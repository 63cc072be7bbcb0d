/** When a claim on the DPoS contract is paid. Refunds of pledges are always paid in time; calls
    that settle rewards on the way fail exactly when there is a reward that cannot be booked. */
module DposClaims {
  import opened Options
  import opened MapSum
  import opened Ranking
  import opened Dpos
  import opened DposSolvency
  import opened DposElection
  import opened DposRewards
  import opened DposConfig
  import opened DposRuns

  // ---- Booking rewards ----

  /** The shares, with those of empty groups added to the next group up, are not negative for any
      group that has members. */
  predicate SharesFit(cfg: Config, g: Groups)
  {
    AllSigned(g, Folded(g, Shares(cfg)))
  }

  /** The shares can split a reward: they are whole, and fit the groups or leave it to the remainder. */
  predicate CanSplit(cfg: Config, g: Groups, reward: int)
  {
    WholeShares(cfg) && (reward < 100 || SharesFit(cfg, g))
  }

  /** Rewards can be booked: there is nothing to book, or there is a validator to receive it and
      the shares can split it. */
  predicate CanSettle(cfg: Config, s: State)
  {
    s.balance == s.allStake || (s.valCands != [] && CanSplit(cfg, GroupsOf(cfg, s), s.balance - s.allStake))
  }

  lemma SignTimes(centi: nat, x: int)
    ensures centi * x >= 0 <==> centi == 0 || x >= 0
  {
  }

  lemma FoldedTimes(g: Groups, centi: nat, part: Parts, left: nat)
    ensures var f := Folded(g, part);
            Folded(g, Parts(centi * part.validators, centi * part.valRest, centi * part.kols, centi * part.kolRest, left))
            == Parts(centi * f.validators, centi * f.valRest, centi * f.kols, centi * f.kolRest, left)
  {
  }

  /** Less than a hundred coins are all remainder; from then on only the shares matter. */
  lemma SignedIsFit(cfg: Config, g: Groups, reward: nat)
    requires WholeShares(cfg)
    ensures AllSigned(g, Folded(g, SplitReward(cfg, reward))) <==> reward < 100 || SharesFit(cfg, g)
  {
    var centi := reward / 100;
    var share := Shares(cfg);
    var f := Folded(g, share);
    FoldedTimes(g, centi, share, reward % 100);
    SignTimes(centi, f.validators);
    SignTimes(centi, f.valRest);
    SignTimes(centi, f.kols);
    SignTimes(centi, f.kolRest);
    hide Folded;
    assert centi == 0 <==> reward < 100;
  }

  /** With whole shares that are not negative only the validator is needed. */
  lemma FitWithoutNegative(cfg: Config, s: State)
    requires WholeShares(cfg) && cfg.validatorShare >= 0.0 && cfg.validatorCandidateShare >= 0.0
    requires cfg.kolShare >= 0.0 && cfg.kolCandidateShare >= 0.0
    ensures CanSettle(cfg, s) <==> s.balance == s.allStake || s.valCands != []
  {
  }

  /** Which groups have members is all that matters. */
  predicate AlikeGroups(g: Groups, h: Groups)
  {
    && (g.validators == [] <==> h.validators == []) && (g.valRest == [] <==> h.valRest == [])
    && (g.kols == [] <==> h.kols == []) && (g.kolRest == [] <==> h.kolRest == [])
  }

  lemma FitAlike(cfg: Config, g: Groups, h: Groups)
    requires AlikeGroups(g, h)
    ensures SharesFit(cfg, g) <==> SharesFit(cfg, h)
  {
  }

  /** Booking rewards fails only when there is a reward and nobody, or somebody unknown, to
      receive it, or shares that cannot split it. */
  lemma DistributionSucceeds(cfg: Config, s: State, validators: seq<Candidate>, kols: seq<Candidate>)
    requires s.balance >= s.allStake
    ensures var g := Groups(validators, Rest(s.valCands, cfg.validatorSize), kols, Rest(s.kolCands, cfg.kolSize));
            var r := RewardDistribution(cfg, s, validators, kols);
            && (r.Some? <==> || s.balance == s.allStake
                             || (Payable(g, Pools(s.valDist, s.kolDist)) && CanSplit(cfg, g, s.balance - s.allStake)))
            && (r.Some? ==> r.value.paid == s.paid && r.value.votes == s.votes && r.value.exits == s.exits
                            && r.value.applications == s.applications)
  {
    hide Calculate, Payable, SharesFit, WholeShares;
    if s.balance != s.allStake && WholeShares(cfg) {
      SignedIsFit(cfg, Groups(validators, Rest(s.valCands, cfg.validatorSize), kols, Rest(s.kolCands, cfg.kolSize)),
                  s.balance - s.allStake);
    }
  }

  /** In a state whose lists are in order nobody is unknown. */
  lemma RewardsDistributable(cfg: Config, s: State)
    requires s.balance >= s.allStake && Shape(s)
    ensures var (validators, kols) := Formal(cfg, s);
            RewardDistribution(cfg, s, validators, kols).Some? <==> CanSettle(cfg, s)
  {
    ListKnown(s.valCands, s.valDist, cfg.validatorSize);
    ListKnown(s.kolCands, s.kolDist, cfg.kolSize);
    TopNonEmpty(s.valCands, cfg.validatorSize);
    var (validators, kols) := Formal(cfg, s);
    DistributionSucceeds(cfg, s, validators, kols);
    hide Shape, RewardDistribution, Known, CanSplit, Top, Rest;
  }

  lemma ListKnown(cs: seq<Candidate>, dist: Dist, k: nat)
    requires ListOk(cs, dist)
    ensures Known(dist, cs) && Known(dist, Top(cs, k)) && Known(dist, Rest(cs, k))
  {
    forall i | 0 <= i < |cs|
      ensures cs[i].address in dist
    {
      AddressIn(cs, i);
    }
  }

  lemma TopNonEmpty(cs: seq<Candidate>, k: nat)
    requires k > 0
    ensures Top(cs, k) == [] <==> cs == []
  {
  }

  /** The same with one list already sorted anew. */
  lemma ResortedDistributable(cfg: Config, s: State, role: Role, sorted: seq<Candidate>)
    requires s.balance >= s.allStake && ListOk(s.valCands, s.valDist) && ListOk(s.kolCands, s.kolDist)
    requires Known(DistOf(s, role), Rest(sorted, FormalSize(cfg, role))) && |sorted| == |Cands(s, role)|
    ensures var (validators, kols) := Formal(cfg, s);
            RewardDistribution(cfg, WithCands(s, role, sorted), validators, kols).Some? <==> CanSettle(cfg, s)
  {
    hide ListOk, Known, RewardDistribution, SharesFit, WholeShares;
    ListKnown(s.valCands, s.valDist, cfg.validatorSize);
    ListKnown(s.kolCands, s.kolDist, cfg.kolSize);
    TopNonEmpty(s.valCands, cfg.validatorSize);
    var (validators, kols) := Formal(cfg, s);
    var s1 := WithCands(s, role, sorted);
    var g := Groups(validators, Rest(s1.valCands, cfg.validatorSize), kols, Rest(s1.kolCands, cfg.kolSize));
    FitAlike(cfg, g, GroupsOf(cfg, s));
    hide Top, Rest;
    DistributionSucceeds(cfg, s1, validators, kols);
  }

  lemma ChangedKnown(cs: seq<Candidate>, p: nat, stake: int, dist: Dist, k: nat)
    requires ListOk(cs, dist) && p < |cs|
    ensures var r := Sort(cs[p := cs[p].(stake := stake)]);
            Known(dist, Rest(r, k)) && |r| == |cs|
  {
    var c := cs[p].(stake := stake);
    ChangeKeeps(cs, p, c, 0);
    SortLength(cs[p := c]);
    hide Sort, Ranked, UniqueAddresses, Addresses, TopData;
    ListKnown(Sort(cs[p := c]), dist, k);
  }

  lemma {:induction false} SortLength(cs: seq<Candidate>)
    ensures |Sort(cs)| == |cs|
  {
    if cs != [] { SortLength(cs[..|cs| - 1]); }
  }

  // ---- Taking votes back ----

  /** Lowered by an amount, the candidate would leave the first k places. */
  predicate LosesPlace(cs: seq<Candidate>, k: nat, p: nat, amount: int)
    requires p < |cs|
  {
    p < k < |cs| && Ahead(cs[k], cs[p].(stake := cs[p].stake - amount))
  }

  lemma UpdateStakeFails(cfg: Config, s: State, role: Role, p: nat, amount: int)
    requires s.balance >= s.allStake && p < |Cands(s, role)|
    ensures var cs := Cands(s, role);
            var sorted := Sort(cs[p := cs[p].(stake := cs[p].stake + amount)]);
            var (validators, kols) := Formal(cfg, s);
            UpdateStake(cfg, s, role, p, amount).Some? <==>
              (p < FormalSize(cfg, role) <==> Position(sorted, cs[p].address) < FormalSize(cfg, role))
              || RewardDistribution(cfg, WithCands(s, role, sorted), validators, kols).Some?
  {
    hide Sort, Position, RewardDistribution, Publish, Top;
  }

  /** A stake can be lowered unless a reward has to be booked first and cannot be. */
  lemma LoweringSucceeds(cfg: Config, s: State, role: Role, p: nat, amount: int)
    requires s.balance >= s.allStake && Shape(s) && p < |Cands(s, role)| && amount >= 0
    ensures UpdateStake(cfg, s, role, p, -amount).Some? <==>
              CanSettle(cfg, s) || !LosesPlace(Cands(s, role), FormalSize(cfg, role), p, amount)
  {
    hide ListOk, Shape, Sort, Known, UpdateStake, RewardDistribution, Rest, LosesPlace, Position;
    var cs := Cands(s, role);
    var k := FormalSize(cfg, role);
    ListShape(s, role);
    LoweredList(cs, DistOf(s, role), p, amount, k);
    UpdateStakeFails(cfg, s, role, p, -amount);
    ResortedDistributable(cfg, s, role, Sort(cs[p := cs[p].(stake := cs[p].stake + -amount)]));
  }

  lemma LoweredList(cs: seq<Candidate>, dist: Dist, p: nat, amount: int, k: nat)
    requires ListOk(cs, dist) && p < |cs| && amount >= 0
    ensures var sorted := Sort(cs[p := cs[p].(stake := cs[p].stake + -amount)]);
            && Known(dist, Rest(sorted, k)) && |sorted| == |cs|
            && ((p < k <==> Position(sorted, cs[p].address) < k) <==> !LosesPlace(cs, k, p, amount))
  {
    hide Sort, Position, Known, Ahead;
    var c := cs[p].(stake := cs[p].stake + -amount);
    assert cs[p].stake + -amount == cs[p].stake - amount;
    LoweredCrosses(cs, p, c, k);
    ChangedKnown(cs, p, cs[p].stake + -amount, dist, k);
  }

  lemma UpdateStakePaysNothing(cfg: Config, s: State, role: Role, p: nat, amount: int)
    requires s.balance >= s.allStake && p < |Cands(s, role)| && UpdateStake(cfg, s, role, p, amount).Some?
    ensures var s' := UpdateStake(cfg, s, role, p, amount).value;
            s'.paid == s.paid && s'.votes == s.votes
  {
    hide Sort, Position, RewardDistribution;
    var cs := Cands(s, role);
    var sorted := Sort(cs[p := cs[p].(stake := cs[p].stake + amount)]);
    var (validators, kols) := Formal(cfg, s);
    DistributionSucceeds(cfg, WithCands(s, role, sorted), validators, kols);
  }

  /** The vote is on a listed candidate who would lose a formal place without it. */
  predicate Displaces(cfg: Config, s: State, key: VoteKey)
    requires key in s.votes
  {
    var cs := Cands(s, key.role);
    var p := Position(cs, key.candidate);
    p < |cs| && LosesPlace(cs, FormalSize(cfg, key.role), p, s.votes[key])
  }

  /** A voter gets the whole recorded vote back, unless there is a reward that cannot be booked and
      the candidate voted for would lose a formal place; then the call throws. */
  lemma UnVotePaid(cfg: Config, s: State, m: Msg, role: Role, candidate: Address)
    requires Solvent(s) && ElectionOk(s) && !role.Committee? && m.wellFormed && m.amount == 0
    requires VoteKey(m.sender, role, candidate) in s.votes
    ensures var key := VoteKey(m.sender, role, candidate);
            var r := Dispatch(cfg, s, m, UnVote(role, candidate));
            && (r.Some? <==> CanSettle(cfg, s) || !Displaces(cfg, s, key))
            && (r.Some? ==> r.value.paid == Logged(s.paid, m.sender, s.votes[key]) && r.value.votes == s.votes - {key})
  {
    hide Dispatch, Covers, DoUnVote, Displaces, ElectionOk;
    CoversStake(s, 0);
    UnVoteDispatched(cfg, s, m, role, candidate);
    DoUnVotePaid(cfg, s, m, role, candidate);
  }

  lemma UnVoteDispatched(cfg: Config, s: State, m: Msg, role: Role, candidate: Address)
    requires s.balance >= s.allStake && m.amount == 0
    ensures Dispatch(cfg, s, m, UnVote(role, candidate)) == DoUnVote(cfg, s, m, role, candidate)
  {
    hide DoUnVote;
    assert Prepared(s, 0) == s;
  }

  lemma WithdrawDispatched(cfg: Config, s: State, m: Msg, role: Role)
    requires s.balance >= s.allStake && m.amount == 0
    ensures Dispatch(cfg, s, m, Withdraw(role)) == DoWithdraw(cfg, s, m, role)
  {
    hide DoWithdraw;
    assert Prepared(s, 0) == s;
  }

  lemma DoUnVotePaid(cfg: Config, s: State, m: Msg, role: Role, candidate: Address)
    requires Solvent(s) && ElectionOk(s) && !role.Committee? && m.wellFormed && VoteKey(m.sender, role, candidate) in s.votes
    ensures var key := VoteKey(m.sender, role, candidate);
            var r := DoUnVote(cfg, s, m, role, candidate);
            && (r.Some? <==> CanSettle(cfg, s) || !Displaces(cfg, s, key))
            && (r.Some? ==> r.value.paid == Logged(s.paid, m.sender, s.votes[key]) && r.value.votes == s.votes - {key})
  {
    hide Covers, Position, UpdateStake, Transfer, Shape, LosesPlace, DoUnVote, Logged, BothBacked;
    var key := VoteKey(m.sender, role, candidate);
    var s1 := Paid(s.(votes := s.votes - {key}), m.sender, s.votes[key]);
    VoteReturned(cfg, s, m, role, candidate);
    ShapeOfLists(cfg, s, s1);
    var p := Position(Cands(s1, role), candidate);
    if p < |Cands(s1, role)| {
      LoweringSucceeds(cfg, s1, role, p, s.votes[key]);
      if UpdateStake(cfg, s1, role, p, -s.votes[key]).Some? {
        UpdateStakePaysNothing(cfg, s1, role, p, -s.votes[key]);
      }
    }
  }

  /** The coins can always be sent back; what follows is the change of the stake. */
  lemma VoteReturned(cfg: Config, s: State, m: Msg, role: Role, candidate: Address)
    requires Solvent(s) && !role.Committee? && m.wellFormed && VoteKey(m.sender, role, candidate) in s.votes
    ensures var key := VoteKey(m.sender, role, candidate);
            var s1 := Paid(s.(votes := s.votes - {key}), m.sender, s.votes[key]);
            var p := Position(Cands(s1, role), candidate);
            && s.votes[key] >= 0 && s1.balance >= s1.allStake
            && DoUnVote(cfg, s, m, role, candidate)
               == if p == |Cands(s1, role)| then Some(s1) else UpdateStake(cfg, s1, role, p, -s.votes[key])
  {
    hide Covers, Position, UpdateStake, Transfer, Logged;
    var key := VoteKey(m.sender, role, candidate);
    VoteCovered(s, key);
    TransferSolvent(s.(votes := s.votes - {key}), m.sender, s.votes[key]);
    CoversStake(s, 0);
  }

  // ---- Pledges ----

  /** An applicant not yet approved gets the pledge back. */
  lemma RefundPaid(cfg: Config, s: State, m: Msg, role: Role)
    requires Solvent(s) && !role.Committee? && m.amount == 0
    requires Key(role, m.sender) in s.applications && !s.applications[Key(role, m.sender)].passed
    requires Key(role, m.sender) !in s.exits
    ensures var r := Dispatch(cfg, s, m, Withdraw(role));
            r.Some? && r.value.paid == Logged(s.paid, m.sender, s.applications[Key(role, m.sender)].pledge)
  {
    var key := Key(role, m.sender);
    RefundCovered(s, key);
    TransferSolvent(s.(applications := s.applications - {key}), m.sender, s.applications[key].pledge);
    CoversStake(s, 0);
    hide Covers, Transfer;
    assert Prepared(s, 0) == s;
  }

  lemma DeletionSucceeds(cfg: Config, s: State, role: Role, a: Address)
    requires s.balance >= s.allStake && Shape(s)
    ensures DeleteCandidate(cfg, s, role, a).Some? <==> CanSettle(cfg, s) || !Contains(Cands(s, role), a)
  {
    hide Shape, RewardDistribution, Sort, Position, Top, Publish, WithCands;
    RewardsDistributable(cfg, s);
  }

  lemma DeletionPaysNothing(cfg: Config, s: State, role: Role, a: Address)
    requires s.balance >= s.allStake && DeleteCandidate(cfg, s, role, a).Some?
    ensures var s' := DeleteCandidate(cfg, s, role, a).value;
            s'.exits == s.exits && s'.paid == s.paid && s'.applications == s.applications
  {
    hide RewardDistribution, Sort, Position, Payable;
    var (validators, kols) := Formal(cfg, s);
    DistributionSucceeds(cfg, s, validators, kols);
  }

  /** A candidate who leaves has the pledge recorded for the end of the waiting period. Leaving
      a list fails exactly when there is a reward that cannot be booked. */
  lemma LeavingRecorded(cfg: Config, s: State, m: Msg, role: Role)
    requires Solvent(s) && ElectionOk(s) && !role.Committee? && m.amount == 0
    requires Key(role, m.sender) in s.applications && s.applications[Key(role, m.sender)].passed
    requires Key(role, m.sender) !in s.exits
    ensures var key := Key(role, m.sender);
            var r := Dispatch(cfg, s, m, Withdraw(role));
            && (r.Some? <==> CanSettle(cfg, s) || !Contains(Cands(s, role), m.sender))
            && (r.Some? ==> r.value.exits == s.exits[key := Exit(s.applications[key].pledge, m.time + cfg.validPeriod)]
                            && r.value.applications == s.applications - {key} && r.value.paid == s.paid)
  {
    var key := Key(role, m.sender);
    var s1 := s.(applications := s.applications - {key});
    CoversStake(s, 0);
    WithdrawDispatched(cfg, s, m, role);
    hide Dispatch, Covers, Shape, BothBacked, DeleteCandidate, Contains;
    ShapeOfLists(cfg, s, s1);
    DeletionSucceeds(cfg, s1, role, m.sender);
    if DeleteCandidate(cfg, s1, role, m.sender).Some? { DeletionPaysNothing(cfg, s1, role, m.sender); }
  }

  /** So does one who left, exactly from the end of the waiting period on. */
  lemma ExitPaid(cfg: Config, s: State, m: Msg, role: Role)
    requires Solvent(s) && !role.Committee? && m.amount == 0 && Key(role, m.sender) in s.exits
    ensures var r := Dispatch(cfg, s, m, Withdraw(role));
            && (r.Some? <==> m.time >= s.exits[Key(role, m.sender)].expiration)
            && (r.Some? ==> r.value.paid == Logged(s.paid, m.sender, s.exits[Key(role, m.sender)].pledge)
                            && r.value.exits == s.exits - {Key(role, m.sender)})
  {
    var key := Key(role, m.sender);
    ExitCovered(s, key);
    TransferSolvent(s.(exits := s.exits - {key}), m.sender, s.exits[key].pledge);
    CoversStake(s, 0);
    hide Covers, Transfer;
    assert Prepared(s, 0) == s;
  }

  // ---- Rewards ----

  ghost function Rewards(s: State): int
  {
    Sum(s.valDist, RewardOf) + Sum(s.kolDist, RewardOf)
  }

  /** The rewards of the listed addresses are gone from a distribution, all others are as they were. */
  ghost predicate Cleared(before: Dist, after: Dist, list: seq<Address>)
  {
    && (forall a :: a in list && a in after ==> after[a].reward == 0)
    && (forall a :: a !in list ==> (a in after <==> a in before))
    && (forall a :: a !in list && a in before && a in after ==> after[a] == before[a])
  }

  /** Exactly the coins that disappear from the distributions leave the balance. */
  ghost predicate PaidOut(s: State, s': State, list: seq<Address>)
  {
    && Cleared(s.valDist, s'.valDist, list) && Cleared(s.kolDist, s'.kolDist, list)
    && s.balance - s'.balance == Rewards(s) - Rewards(s')
  }

  lemma AwardClears(s: State, role: Role, a: Address)
    requires Solvent(s)
    ensures var r := AwardIfAny(s, role, a);
            && r.Some? && Solvent(r.value) && Cleared(DistOf(s, role), DistOf(r.value, role), [a])
            && (if role.Validator? then r.value.kolDist == s.kolDist else r.value.valDist == s.valDist)
            && s.balance - r.value.balance == Rewards(s) - Rewards(r.value)
  {
    if a in DistOf(s, role) {
      AwardSolvent(s, role, a);
      AwardSettles(s, role, a);
      SettledClears(s, role, a);
      hide Award, Settled, Cleared, Solvent;
      assert s.balance - Award(s, role, a).value.balance == Rewards(s) - Rewards(Award(s, role, a).value);
    }
  }

  lemma AwardSettles(s: State, role: Role, a: Address)
    requires Solvent(s) && a in DistOf(s, role) && Award(s, role, a).Some?
    ensures var s' := Award(s, role, a).value;
            && DistOf(s', role) == Settled(s, role, a)
            && (if role.Validator? then s'.kolDist == s.kolDist else s'.valDist == s.valDist)
  {
    RewardCovered(s, role, a);
    OldRatioOk(s, role, a);
    AwardIs(s, role, a);
    hide Award, Settled, Logged, Dividend, Covers;
  }

  lemma SettledClears(s: State, role: Role, a: Address)
    requires Solvent(s) && a in DistOf(s, role)
    ensures Cleared(DistOf(s, role), Settled(s, role, a), [a])
    ensures Sum(Settled(s, role, a), RewardOf) == Sum(DistOf(s, role), RewardOf) - DistOf(s, role)[a].reward
  {
    hide Contains;
    SettledSum(s, role, a);
  }

  lemma ClearedMore(d: Dist, d1: Dist, d2: Dist, list: seq<Address>, a: Address)
    requires Cleared(d, d1, list) && Cleared(d1, d2, [a])
    ensures Cleared(d, d2, list + [a])
  {
  }

  /** Paying a list pays each reward once, however often its address is listed. */
  lemma {:induction false} AwardAllPays(s: State, list: seq<Address>)
    requires Solvent(s)
    ensures AwardAll(s, list).Some? && Solvent(AwardAll(s, list).value) && PaidOut(s, AwardAll(s, list).value, list)
  {
    hide Solvent, AwardIfAny, Cleared, Rewards;
    if list == [] {
      NothingCleared(s);
    } else {
      var init, a := list[..|list| - 1], list[|list| - 1];
      assert init + [a] == list;
      AwardAllPays(s, init);
      var s1 := AwardAll(s, init).value;
      AwardClears(s1, Validator, a);
      var s2 := AwardIfAny(s1, Validator, a).value;
      AwardClears(s2, Kol, a);
      var s3 := AwardIfAny(s2, Kol, a).value;
      ClearedMore(s.valDist, s1.valDist, s3.valDist, init, a);
      ClearedMore(s.kolDist, s1.kolDist, s3.kolDist, init, a);
    }
  }

  /** And it makes exactly these payments. */
  lemma {:induction false} AwardAllPayments(s: State, list: seq<Address>)
    requires Solvent(s)
    ensures AwardAll(s, list).Some? && AwardAll(s, list).value.paid == s.paid + AllPayouts(s.valDist, s.kolDist, list)
  {
    hide Solvent, AwardIfAny, Rewards, PayoutsAt;
    AwardAllPays(s, list);
    if list != [] {
      var before, a := list[..|list| - 1], list[|list| - 1];
      AwardAllPays(s, before);
      AwardAllPayments(s, before);
      var s1 := AwardAll(s, before).value;
      AwardClears(s1, Validator, a);
      var s2 := AwardIfAny(s1, Validator, a).value;
      AwardPayments(s1, Validator, a);
      AwardPayments(s2, Kol, a);
      if a in before {
        PaidAlready(s1.valDist, a);
        PaidAlready(s1.kolDist, a);
      } else {
        SameEntry(s.valDist, s1.valDist, before, a);
        SameEntry(s.kolDist, s1.kolDist, before, a);
      }
    }
  }

  lemma SameEntry(d: Dist, d': Dist, list: seq<Address>, a: Address)
    requires Cleared(d, d', list) && a !in list
    ensures PayoutsAt(d', a) == PayoutsAt(d, a)
  {
  }

  lemma NothingCleared(s: State)
    ensures Cleared(s.valDist, s.valDist, []) && Cleared(s.kolDist, s.kolDist, [])
  {
  }

  /** The rewards of any list of addresses are paid, exactly unless there is a reward that cannot
      be booked: first everything that arrived is booked, then what is recorded for the
      listed addresses leaves the contract and nothing else does. */
  lemma ExtractPaid(cfg: Config, s: State, m: Msg, list: seq<Address>)
    requires Solvent(s) && ElectionOk(s) && m.amount == 0
    ensures var r := Dispatch(cfg, s, m, Extract(list));
            var (validators, kols) := Formal(cfg, s);
            var booked := RewardDistribution(cfg, s, validators, kols);
            && (r.Some? <==> |list| <= 100 && CanSettle(cfg, s))
            && (r.Some? ==> booked.Some? && Rewards(booked.value) == Rewards(s) + s.balance - s.allStake
                            && PaidOut(booked.value, r.value, list)
                            && r.value.paid == s.paid + AllPayouts(booked.value.valDist, booked.value.kolDist, list))
  {
    CoversStake(s, 0);
    assert Prepared(s, 0) == s && Dispatch(cfg, s, m, Extract(list)) == DoExtract(cfg, s, m, list);
    RewardsDistributable(cfg, s);
    var (validators, kols) := Formal(cfg, s);
    if CanSettle(cfg, s) {
      BookedExact(cfg, s, validators, kols);
      DistributionSucceeds(cfg, s, validators, kols);
      hide Covers, RewardDistribution, AwardAll, Dispatch, ElectionOk, PaidOut, AllPayouts;
      RewardDistributionCovers(cfg, s, validators, kols, 0);
      AwardAllPays(RewardDistribution(cfg, s, validators, kols).value, list);
      AwardAllPayments(RewardDistribution(cfg, s, validators, kols).value, list);
    }
  }

  lemma BookedExact(cfg: Config, s: State, validators: seq<Candidate>, kols: seq<Candidate>)
    requires s.balance >= s.allStake && RewardDistribution(cfg, s, validators, kols).Some?
    ensures Rewards(RewardDistribution(cfg, s, validators, kols).value) == Rewards(s) + s.balance - s.allStake
  {
    hide Calculate;
    if s.balance != s.allStake {
      var g := Groups(validators, Rest(s.valCands, cfg.validatorSize), kols, Rest(s.kolCands, cfg.kolSize));
      CalculateExact(cfg, g, Pools(s.valDist, s.kolDist), s.balance - s.allStake);
    }
  }

  // ---- The failing case is reached ----

  /** A chain that starts with one validator, who withdraws; then a block reward arrives. */
  function LastLeaves(g: Genesis, reward: nat): seq<Action>
    requires |g.validators| == 1
  {
    [Ordinary(Called(Msg(g.validators[0].address, 0, g.time, true), Withdraw(Validator))), Ordinary(Rewarded(reward))]
  }

  lemma OneListed(cfg: Config, g: Genesis)
    requires |g.validators| == 1
    ensures var v := g.validators[0].address;
            var s := Init(cfg, g);
            && |s.valCands| == 1 && s.valCands[0].address == v && Position(s.valCands, v) == 0
            && Key(Validator, v) in s.applications && s.applications[Key(Validator, v)].passed
  {
    var own := OwnNodes(g.validators);
    assert own[..0] == [] && Sort(own[..0]) == [];
    assert Sort(own) == [own[0]];
    assert g.validators[0] in g.validators;
    hide Sort;
  }

  lemma LeavesNobody(cfg: Config, s: State, m: Msg)
    requires s.balance == s.allStake && m.amount == 0 && |s.valCands| == 1 && s.valCands[0].address == m.sender
    requires Position(s.valCands, m.sender) == 0 && Key(Validator, m.sender) !in s.exits
    requires Key(Validator, m.sender) in s.applications && s.applications[Key(Validator, m.sender)].passed
    ensures var s' := Step(cfg, s, Called(m, Withdraw(Validator)));
            s'.valCands == [] && s'.balance == s'.allStake
  {
    hide Position, Calculate, Data, Logged;
    assert Prepared(s, 0) == s;
    assert Without(s.valCands, 0) == [];
  }

  /** From then on no reward can be extracted by anyone. */
  lemma NobodyLeftToReward(cfg: Config, g: Genesis, reward: nat, run: seq<World>)
    requires |g.validators| == 1 && g.balance == g.coins && reward > 0 && IsRun(cfg, g, run, LastLeaves(g, reward))
    ensures run[2].s.balance >= run[2].s.allStake && run[2].s.valCands == []
    ensures forall m, list :: Dispatch(run[2].cfg, run[2].s, m, Extract(list)).None?
  {
    var acts := LastLeaves(g, reward);
    RunOk(cfg, g, run, acts, 0);
    RunOk(cfg, g, run, acts, 1);
    RunOk(cfg, g, run, acts, 2);
    hide WorldOk, Init;
    OneListed(cfg, g);
    InitMoney(cfg, g);
    LeavesNobody(cfg, run[0].s, acts[0].ev.m);
    assert run[2].s == run[1].s.(balance := run[1].s.balance + reward);
    hide Step;
    forall m: Msg, list: seq<Address>
      ensures Dispatch(run[2].cfg, run[2].s, m, Extract(list)).None?
    {
      NothingExtracted(cfg, run[2].s, m, list);
    }
  }

  lemma InitMoney(cfg: Config, g: Genesis)
    ensures Init(cfg, g).balance == g.balance && Init(cfg, g).allStake == g.coins && Init(cfg, g).exits == map[]
  {
  }

  lemma NothingExtracted(cfg: Config, s: State, m: Msg, list: seq<Address>)
    requires s.balance > s.allStake && s.valCands == []
    ensures Dispatch(cfg, s, m, Extract(list)).None?
  {
  }

  const ONE_PLACE: RawChange := SetNumber(ValidatorSize, 1)

  /** Shares that add up to 100, but are not all whole or give those behind the first places a
      negative one; (101, -1, 0, 0) and (50.5, 49.5, 0, 0) are such. */
  predicate BadShares(c: Change)
  {
    c.SetShares? && (c.valRest < 0.0 || !(Whole(c.validators) && Whole(c.valRest) && Whole(c.kols) && Whole(c.kolRest)))
  }

  /** The committee leaves one place for validators, then carries the shares; then a block reward
      arrives. */
  function Reshare(x: Msg, y: Msg, c: Change, reward: nat): seq<Action>
  {
    Carry(x, y, ONE_PLACE) + Carry(x, y, c) + [Ordinary(Rewarded(reward))]
  }

  /** From then on nobody can extract a reward and no listed validator can leave, although there
      are validators. */
  lemma BadSharesBlock(cfg: Config, g: Genesis, x: Msg, y: Msg, c: Change, reward: nat, run: seq<World>)
    requires |g.validators| >= 2 && reward >= 100 && BadShares(c) && CanCarry(World(cfg, Init(cfg, g), map[]), x, y)
    requires IsRun(cfg, g, run, Reshare(x, y, c, reward))
    ensures run[5].s.balance >= run[5].s.allStake && |run[5].s.valCands| == |g.validators|
    ensures forall m, list :: Dispatch(run[5].cfg, run[5].s, m, Extract(list)).None?
    ensures forall v, time :: v in Addresses(run[5].s.valCands) ==>
              Dispatch(run[5].cfg, run[5].s, Msg(v, 0, time, true), Withdraw(Validator)).None?
  {
    hide Init, WorldOk, Step;
    ReachesBadShares(cfg, g, x, y, c, reward, run);
    RunOk(cfg, g, run, Reshare(x, y, c, reward), 5);
    InitMoney(cfg, g);
    var w := run[5];
    OneRestUnfit(Changed(cfg, ONE_PLACE), c, w.s);
    forall m: Msg, list: seq<Address>
      ensures Dispatch(w.cfg, w.s, m, Extract(list)).None?
    {
      BlockedExtract(w, m, list);
    }
    forall v, time | v in Addresses(w.s.valCands)
      ensures Dispatch(w.cfg, w.s, Msg(v, 0, time, true), Withdraw(Validator)).None?
    {
      BlockedWithdraw(w, v, time);
    }
  }

  lemma ReachesBadShares(cfg: Config, g: Genesis, x: Msg, y: Msg, c: Change, reward: nat, run: seq<World>)
    requires CanCarry(World(cfg, Init(cfg, g), map[]), x, y) && IsRun(cfg, g, run, Reshare(x, y, c, reward))
    ensures var s := Init(cfg, g);
            && run[5].cfg == Changed(Changed(cfg, ONE_PLACE), c)
            && run[5].s == s.(balance := s.balance + reward) && |s.valCands| == |g.validators|
  {
    hide Init, IsRun, Proceed, Changed, CanCarry;
    var acts := Reshare(x, y, c, reward);
    RunSteps(cfg, g, run, acts);
    assert run[0 + 1] == Proceed(run[0], acts[0]) && run[1 + 1] == Proceed(run[1], acts[1]);
    assert run[2 + 1] == Proceed(run[2], acts[2]) && run[3 + 1] == Proceed(run[3], acts[3]);
    assert run[4 + 1] == Proceed(run[4], acts[4]);
    FirstList(cfg, g);
    ChangeCarried(run[0], x, y, ONE_PLACE);
    CarryAgain(run[0], run[2], x, y);
    ChangeCarried(run[2], x, y, c);
    LastReward(run[4], reward);
  }

  lemma RunSteps(cfg: Config, g: Genesis, run: seq<World>, acts: seq<Action>)
    requires IsRun(cfg, g, run, acts)
    ensures |run| == |acts| + 1 && run[0] == World(cfg, Init(cfg, g), map[])
    ensures forall t :: 0 <= t < |acts| ==> run[t].s.balance >= run[t].s.allStake
    ensures forall t :: 0 <= t < |acts| ==> run[t + 1] == Proceed(run[t], acts[t])
  {
    hide Init, Proceed, WorldOk;
    forall t | 0 <= t < |acts|
      ensures run[t].s.balance >= run[t].s.allStake && run[t + 1] == Proceed(run[t], acts[t])
    {
      RunOk(cfg, g, run, acts, t);
    }
  }

  lemma FirstList(cfg: Config, g: Genesis)
    ensures |Init(cfg, g).valCands| == |g.validators|
  {
    SortLength(OwnNodes(g.validators));
    hide Sort;
  }

  lemma CarryAgain(w: World, w': World, x: Msg, y: Msg)
    requires CanCarry(w, x, y) && w' == w.(cfg := Changed(w.cfg, ONE_PLACE))
    ensures CanCarry(w', x, y)
  {
  }

  lemma LastReward(w: World, reward: nat)
    requires w.s.balance >= w.s.allStake
    ensures Proceed(w, Ordinary(Rewarded(reward))) == w.(s := w.s.(balance := w.s.balance + reward))
  {
  }

  lemma OneRestUnfit(cfg: Config, c: Change, s: State)
    requires cfg.validatorSize == 1 && BadShares(c) && |s.valCands| >= 2 && s.balance - s.allStake >= 100
    ensures !CanSettle(Changed(cfg, c), s)
  {
  }

  lemma BlockedExtract(w: World, m: Msg, list: seq<Address>)
    requires WorldOk(w) && w.s.balance >= w.s.allStake && !CanSettle(w.cfg, w.s)
    ensures Dispatch(w.cfg, w.s, m, Extract(list)).None?
  {
    hide CanSettle, Covers, ElectionOk, PaidOut;
    if m.amount == 0 { ExtractPaid(w.cfg, w.s, m, list); }
  }

  lemma BlockedWithdraw(w: World, v: Address, time: int)
    requires WorldOk(w) && w.s.balance >= w.s.allStake && !CanSettle(w.cfg, w.s)
    requires v in Addresses(w.s.valCands) && Key(Validator, v) !in w.s.exits
    ensures Dispatch(w.cfg, w.s, Msg(v, 0, time, true), Withdraw(Validator)).None?
  {
    ContainsIsMembership(w.s.valCands, v);
    hide CanSettle, Covers, Dispatch, Addresses, Contains, Shape;
    LeavingRecorded(w.cfg, w.s, Msg(v, 0, time, true), Validator);
  }
}
