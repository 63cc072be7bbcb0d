/** Solvency of the DPoS contract: whatever is owed is covered by the recorded stake, and the
    recorded stake by the balance, in every state of every run. */
module DposSolvency {
  import opened Options
  import opened MapSum
  import opened Ranking
  import opened Dpos

  function PledgeOf(a: Application): int { a.pledge }

  function ExitPledge(e: Exit): int { e.pledge }

  function VoteAmount(v: int): int { v }

  function RewardOf(s: Share): int { s.reward }

  /** Everything that can still be claimed: pledges, exits in their waiting period, votes and rewards. */
  ghost function Owed(s: State): int
  {
    Sum(s.applications, PledgeOf) + Sum(s.exits, ExitPledge) + Sum(s.votes, VoteAmount)
    + Sum(s.valDist, RewardOf) + Sum(s.kolDist, RewardOf)
  }

  predicate DistOk(dist: Dist)
  {
    forall a :: a in dist ==> dist[a].reward >= 0 && 0 <= dist[a].ratio <= 100
  }

  predicate ApplicationOk(key: Key, a: Application)
  {
    a.pledge >= 0 && (key.role.Committee? || 0 <= a.ratio <= 100)
  }

  predicate NonNegative(s: State)
  {
    && (forall k :: k in s.applications ==> ApplicationOk(k, s.applications[k]))
    && (forall k :: k in s.exits ==> s.exits[k].pledge >= 0)
    && (forall k :: k in s.votes ==> s.votes[k] >= 0)
    && DistOk(s.valDist) && DistOk(s.kolDist)
  }

  /** Covered even after paying `amount` more. */
  ghost predicate Covers(s: State, amount: int)
  {
    s.balance >= s.allStake >= Owed(s) + amount && NonNegative(s)
  }

  ghost predicate Solvent(s: State)
  {
    Covers(s, 0)
  }

  lemma OwedNonNegative(s: State)
    requires NonNegative(s)
    ensures Owed(s) >= 0
  {
    SumNonNegative(s.applications, PledgeOf);
    SumNonNegative(s.exits, ExitPledge);
    SumNonNegative(s.votes, VoteAmount);
    SumNonNegative(s.valDist, RewardOf);
    SumNonNegative(s.kolDist, RewardOf);
  }

  // ---- The reward split is exact ----

  lemma CreditExact(dist: Dist, a: Address, amount: int)
    requires a in dist
    ensures Sum(Credit(dist, a, amount), RewardOf) == Sum(dist, RewardOf) + amount
    ensures DistOk(dist) && amount >= 0 ==> DistOk(Credit(dist, a, amount))
  {
    SumPut(dist, RewardOf, a, dist[a].(reward := dist[a].reward + amount));
  }

  lemma {:induction false} CreditEachExact(dist: Dist, nodes: seq<Candidate>, amount: int)
    requires Known(dist, nodes)
    ensures Sum(CreditEach(dist, nodes, amount), RewardOf) == Sum(dist, RewardOf) + |nodes| * amount
    ensures DistOk(dist) && amount >= 0 ==> DistOk(CreditEach(dist, nodes, amount))
  {
    if nodes != [] {
      var before := nodes[..|nodes| - 1];
      CreditEachExact(dist, before, amount);
      CreditExact(CreditEach(dist, before, amount), nodes[|nodes| - 1].address, amount);
    }
  }

  lemma DistributeExact(nodes: seq<Candidate>, reward: nat, dist: Dist)
    requires nodes != [] && Known(dist, nodes)
    ensures Sum(Distribute(nodes, reward, dist), RewardOf) == Sum(dist, RewardOf) + reward
    ensures DistOk(dist) ==> DistOk(Distribute(nodes, reward, dist))
  {
    hide CreditEach, Credit, DistOk;
    var n := |nodes|;
    var each, left := reward / n, reward % n;
    assert n * each + left == reward && each >= 0 && left >= 0;
    CreditEachExact(dist, nodes, each);
    CreditExact(CreditEach(dist, nodes, each), nodes[0].address, left);
  }

  lemma HandoutExact(nodes: seq<Candidate>, reward: int, dist: Dist)
    requires Known(dist, nodes) && Signed(nodes, reward)
    ensures Sum(Handout(nodes, reward, dist), RewardOf) == Sum(dist, RewardOf) + (if nodes == [] then 0 else reward)
    ensures DistOk(dist) ==> DistOk(Handout(nodes, reward, dist))
  {
    if nodes != [] {
      DistributeExact(nodes, reward, dist);
    }
  }

  /** Whichever of the other three groups is empty, and whatever the signs of the shares: a reward
      that can be split makes the two distributions grow by exactly the reward, and leaves nobody
      with a negative one. */
  lemma CalculateExact(cfg: Config, g: Groups, p: Pools, reward: nat)
    requires Calculate(cfg, g, p, reward).Some?
    ensures var r := Calculate(cfg, g, p, reward).value;
            && Sum(r.val, RewardOf) + Sum(r.kol, RewardOf) == Sum(p.val, RewardOf) + Sum(p.kol, RewardOf) + reward
            && (DistOk(p.val) && DistOk(p.kol) ==> DistOk(r.val) && DistOk(r.kol))
  {
    hide Handout, SplitReward, Credit, DistOk;
    var due := Folded(g, SplitReward(cfg, reward));
    var kol := Handout(g.kolRest, due.kolRest, p.kol);
    var val := Handout(g.valRest, due.valRest, p.val);
    HandoutExact(g.kolRest, due.kolRest, p.kol);
    HandoutExact(g.kols, due.kols, kol);
    HandoutExact(g.valRest, due.valRest, p.val);
    HandoutExact(g.validators, due.validators, val);
    CreditExact(Handout(g.validators, due.validators, val), g.validators[0].address, due.left);
  }

  /** Only the distributions and the stake record change. */
  predicate SameClaims(s: State, s': State)
  {
    s'.applications == s.applications && s'.exits == s.exits && s'.votes == s.votes && s'.balance == s.balance
  }

  /** Booking the surplus as rewards covers what was covered before. */
  lemma RewardDistributionCovers(cfg: Config, s: State, validators: seq<Candidate>, kols: seq<Candidate>, amount: int)
    requires Covers(s, amount) && RewardDistribution(cfg, s, validators, kols).Some?
    ensures var s' := RewardDistribution(cfg, s, validators, kols).value;
            Covers(s', amount) && SameClaims(s, s') && s'.allStake == s.balance
  {
    hide Calculate;
    if s.balance != s.allStake {
      var g := Groups(validators, Rest(s.valCands, cfg.validatorSize), kols, Rest(s.kolCands, cfg.kolSize));
      CalculateExact(cfg, g, Pools(s.valDist, s.kolDist), s.balance - s.allStake);
    }
  }

  // ---- Payments ----

  /** What is covered can be paid, and what remains is still covered. */
  lemma TransferSolvent(s: State, to: Address, amount: int)
    requires Covers(s, amount) && amount >= 0
    ensures Transfer(s, to, amount) == Some(Paid(s, to, amount)) && Solvent(Paid(s, to, amount))
  {
    OwedNonNegative(s);
    if amount == 0 { assert Paid(s, to, 0) == s; }
  }

  lemma RefundCovered(s: State, key: Key)
    requires Solvent(s) && key in s.applications
    ensures Covers(s.(applications := s.applications - {key}), s.applications[key].pledge) && s.applications[key].pledge >= 0
  {
    SumDrop(s.applications, PledgeOf, key);
  }

  lemma ExitCovered(s: State, key: Key)
    requires Solvent(s) && key in s.exits
    ensures Covers(s.(exits := s.exits - {key}), s.exits[key].pledge) && s.exits[key].pledge >= 0
  {
    SumDrop(s.exits, ExitPledge, key);
  }

  lemma VoteCovered(s: State, key: VoteKey)
    requires Solvent(s) && key in s.votes
    ensures Covers(s.(votes := s.votes - {key}), s.votes[key]) && s.votes[key] >= 0
  {
    SumDrop(s.votes, VoteAmount, key);
  }

  /** A reward, like the other claims, never exceeds the balance. */
  lemma RewardCovered(s: State, role: Role, a: Address)
    requires Solvent(s) && a in DistOf(s, role)
    ensures 0 <= DistOf(s, role)[a].reward <= s.allStake <= s.balance
  {
    SumCovers(DistOf(s, role), RewardOf, a);
    SumNonNegative(s.applications, PledgeOf);
    SumNonNegative(s.exits, ExitPledge);
    SumNonNegative(s.votes, VoteAmount);
    SumNonNegative(if role.Validator? then s.kolDist else s.valDist, RewardOf);
  }

  lemma DividendWithin(reward: int, ratio: int)
    requires reward >= 0 && 0 <= ratio <= 100
    ensures 0 <= reward / 100 * ratio <= reward
  {
    var centi := reward / 100;
    assert centi * ratio <= centi * 100;
  }

  /** The distribution after an award. */
  function Settled(s: State, role: Role, a: Address): Dist
    requires a in DistOf(s, role)
  {
    var dist := DistOf(s, role);
    if Contains(Cands(s, role), a) then dist[a := dist[a].(reward := 0)] else dist - {a}
  }

  lemma SettledSum(s: State, role: Role, a: Address)
    requires a in DistOf(s, role) && DistOk(DistOf(s, role))
    ensures Sum(Settled(s, role, a), RewardOf) == Sum(DistOf(s, role), RewardOf) - DistOf(s, role)[a].reward
    ensures DistOk(Settled(s, role, a))
  {
    var dist := DistOf(s, role);
    SumPut(dist, RewardOf, a, dist[a].(reward := 0));
    SumDrop(dist, RewardOf, a);
  }

  /** `award` pays in two parts that add up to the recorded reward: the voters' pool gets the
      dividend, the node the rest. */
  lemma AwardIs(s: State, role: Role, a: Address)
    requires a in DistOf(s, role)
    requires 0 <= DistOf(s, role)[a].reward <= s.balance && 0 <= DistOf(s, role)[a].ratio <= 100
    ensures var share := DistOf(s, role)[a];
            && 0 <= Dividend(share) <= share.reward
            && Award(s, role, a)
               == Some(WithDist(Paid(Paid(s, share.pool, Dividend(share)), a, share.reward - Dividend(share)),
                                role, Settled(s, role, a)))
  {
    var share := DistOf(s, role)[a];
    DividendWithin(share.reward, share.ratio);
    hide Position, Logged;
    TransferSucceeds(s, share.pool, Dividend(share));
    TransferSucceeds(Paid(s, share.pool, Dividend(share)), a, share.reward - Dividend(share));
    hide Transfer;
  }

  lemma TransferSucceeds(s: State, to: Address, amount: int)
    requires 0 <= amount <= s.balance
    ensures Transfer(s, to, amount) == Some(Paid(s, to, amount))
  {
    if amount == 0 { assert Paid(s, to, 0) == s; }
  }

  /** `award` always succeeds, pays exactly the recorded reward, and keeps the contract solvent. */
  lemma AwardSolvent(s: State, role: Role, a: Address)
    requires Solvent(s) && a in DistOf(s, role)
    ensures Award(s, role, a).Some?
    ensures var s' := Award(s, role, a).value;
            && Solvent(s') && s'.balance == s.balance - DistOf(s, role)[a].reward
            && s'.applications == s.applications && s'.exits == s.exits && s'.votes == s.votes
  {
    RewardCovered(s, role, a);
    AwardIs(s, role, a);
    SettledSum(s, role, a);
    hide Award, Settled, DistOk, ApplicationOk, Logged, Dividend;
  }

  lemma {:induction false} AwardAllSolvent(s: State, list: seq<Address>)
    requires Solvent(s)
    ensures AwardAll(s, list).Some? && Solvent(AwardAll(s, list).value)
  {
    hide Solvent, Award;
    if list != [] {
      AwardAllSolvent(s, list[..|list| - 1]);
      var a := list[|list| - 1];
      var s1 := AwardAll(s, list[..|list| - 1]).value;
      if a in DistOf(s1, Validator) { AwardSolvent(s1, Validator, a); }
      var s2 := AwardIfAny(s1, Validator, a).value;
      if a in DistOf(s2, Kol) { AwardSolvent(s2, Kol, a); }
    }
  }

  // ---- Steps that touch no claim ----

  predicate SameMoney(s: State, s': State)
  {
    SameClaims(s, s') && s'.allStake == s.allStake && s'.valDist == s.valDist && s'.kolDist == s.kolDist
  }

  lemma SameMoneyCovers(s: State, s': State, amount: int)
    requires SameMoney(s, s') && Covers(s, amount)
    ensures Covers(s', amount)
  {
    hide NonNegative;
    assert NonNegative(s') == NonNegative(s) by { SameMoneyNonNegative(s, s'); }
  }

  lemma SameMoneyNonNegative(s: State, s': State)
    requires SameMoney(s, s')
    ensures NonNegative(s') == NonNegative(s)
  {
  }

  lemma CoversStake(s: State, amount: int)
    requires Covers(s, amount)
    ensures s.balance >= s.allStake
  {
  }

  lemma UpdateStakeSolvent(cfg: Config, s: State, role: Role, p: nat, amount: int)
    requires Solvent(s) && p < |Cands(s, role)| && UpdateStake(cfg, s, role, p, amount).Some?
    ensures Solvent(UpdateStake(cfg, s, role, p, amount).value)
  {
    hide Covers, RewardDistribution, Sort, Position;
    var cs := Cands(s, role);
    var c := cs[p].(stake := cs[p].stake + amount);
    var s1 := WithCands(s, role, Sort(cs[p := c]));
    SameMoneyCovers(s, s1, 0);
    CoversStake(s1, 0);
    var (validators, kols) := Formal(cfg, s);
    if RewardDistribution(cfg, s1, validators, kols).Some? {
      RewardDistributionCovers(cfg, s1, validators, kols, 0);
      var s2 := RewardDistribution(cfg, s1, validators, kols).value;
      SameMoneyCovers(s2, Publish(cfg, s2), 0);
    }
  }

  lemma DeleteCandidateCovers(cfg: Config, s: State, role: Role, a: Address, amount: int)
    requires Covers(s, amount) && DeleteCandidate(cfg, s, role, a).Some?
    ensures var s' := DeleteCandidate(cfg, s, role, a).value;
            Covers(s', amount) && SameClaims(s, s')
  {
    CoversStake(s, amount);
    hide Covers, RewardDistribution, Sort, Position;
    var cs := Cands(s, role);
    var p := Position(cs, a);
    if p < |cs| {
      var (validators, kols) := Formal(cfg, s);
      RewardDistributionCovers(cfg, s, validators, kols, amount);
      var s1 := RewardDistribution(cfg, s, validators, kols).value;
      var s2 := WithCands(s1, role, Sort(Without(cs, p)));
      SameMoneyCovers(s1, s2, amount);
      SameMoneyCovers(s2, Publish(cfg, s2), amount);
    }
  }

  /** A fresh distribution entry holds no reward. */
  lemma NewShareSolvent(s: State, role: Role, a: Address, pool: Address, ratio: int)
    requires Solvent(s) && a !in DistOf(s, role) && 0 <= ratio <= 100
    ensures Solvent(WithDist(s, role, DistOf(s, role)[a := Share(0, pool, ratio)]))
  {
    SumPut(DistOf(s, role), RewardOf, a, Share(0, pool, ratio));
  }

  lemma AddCandidateSolvent(cfg: Config, s: State, role: Role, a: Address, app: Application)
    requires Solvent(s) && 0 <= app.ratio <= 100 && AddCandidate(cfg, s, role, a, app).Some?
    ensures Solvent(AddCandidate(cfg, s, role, a, app).value)
  {
    hide Covers, RewardDistribution, Sort, Position, NodeTaken;
    CoversStake(s, 0);
    var cs := Cands(s, role);
    var (validators, kols) := Formal(cfg, s);
    if RewardDistribution(cfg, s, validators, kols).Some? {
      RewardDistributionCovers(cfg, s, validators, kols, 0);
      var s1 := RewardDistribution(cfg, s, validators, kols).value;
      var dist := DistOf(s1, role);
      var s2 := if a in dist then s1 else WithDist(s1, role, dist[a := Share(0, app.pool, app.ratio)]);
      if a !in dist { NewShareSolvent(s1, role, a, app.pool, app.ratio); }
      var c := Entry(a, app.pledge * cfg.magnification, if role.Validator? then app.node else "");
      var s3 := WithCands(s2, role, Top(Sort(cs + [c]), CandidateSize(cfg, role)));
      SameMoneyCovers(s2, s3, 0);
      SameMoneyCovers(s3, Publish(cfg, s3), 0);
    }
  }

  // ---- The calls ----

  lemma PreparedCovers(s: State, amount: nat)
    requires Solvent(s)
    ensures Covers(Prepared(s, amount), amount)
  {
  }

  /** Recording a pledge or a change of one, out of coins that are covered. */
  lemma ApplicationSolvent(s: State, key: Key, a: Application, amount: int)
    requires Covers(s, amount) && ApplicationOk(key, a)
    requires a.pledge == amount + (if key in s.applications then s.applications[key].pledge else 0)
    ensures Solvent(s.(applications := s.applications[key := a]))
  {
    SumPut(s.applications, PledgeOf, key, a);
  }

  lemma VoteRecorded(s: State, key: VoteKey, amount: nat)
    requires Covers(s, amount)
    ensures Solvent(s.(votes := s.votes[key := (if key in s.votes then s.votes[key] else 0) + amount]))
  {
    SumPut(s.votes, VoteAmount, key, (if key in s.votes then s.votes[key] else 0) + amount);
  }

  lemma DoApplySolvent(cfg: Config, s: State, m: Msg, role: Role, pool: Address, ratio: int, node: Address)
    requires Covers(s, m.amount) && DoApply(cfg, s, m, role, pool, ratio, node).Some?
    ensures Solvent(DoApply(cfg, s, m, role, pool, ratio, node).value)
  {
    hide Covers, NodeTaken;
    var a := Application(m.amount, m.time + cfg.validPeriod, false, [], pool, ratio, node);
    ApplicationSolvent(s, Key(role, m.sender), a, m.amount);
  }

  lemma OldApplicationOk(s: State, key: Key, amount: int)
    requires Covers(s, amount) && key in s.applications
    ensures ApplicationOk(key, s.applications[key])
  {
  }

  lemma DoAppendSolvent(cfg: Config, s: State, m: Msg, role: Role)
    requires Covers(s, m.amount) && DoAppend(cfg, s, m, role).Some?
    ensures Solvent(DoAppend(cfg, s, m, role).value)
  {
    hide Covers, AddCandidate, UpdateStake, Position;
    var key := Key(role, m.sender);
    OldApplicationOk(s, key, m.amount);
    var a := s.applications[key];
    var a' := a.(pledge := a.pledge + m.amount);
    ApplicationSolvent(s, key, a', m.amount);
    var s1 := s.(applications := s.applications[key := a']);
    if a.passed {
      var p := Position(Cands(s1, role), m.sender);
      if p == |Cands(s1, role)| {
        AddCandidateSolvent(cfg, s1, role, m.sender, a');
      } else {
        UpdateStakeSolvent(cfg, s1, role, p, m.amount * cfg.magnification);
      }
    }
  }

  lemma DoVoteSolvent(cfg: Config, s: State, m: Msg, role: Role, address: Address)
    requires Covers(s, m.amount) && DoVote(cfg, s, m, role, address).Some?
    ensures Solvent(DoVote(cfg, s, m, role, address).value)
  {
    hide Covers, UpdateStake, Position;
    var key := VoteKey(m.sender, role, address);
    VoteRecorded(s, key, m.amount);
    var s1 := s.(votes := s.votes[key := (if key in s.votes then s.votes[key] else 0) + m.amount]);
    UpdateStakeSolvent(cfg, s1, role, Position(Cands(s, role), address), m.amount);
  }

  lemma DoUnVoteSolvent(cfg: Config, s: State, m: Msg, role: Role, address: Address)
    requires Solvent(s) && DoUnVote(cfg, s, m, role, address).Some?
    ensures Solvent(DoUnVote(cfg, s, m, role, address).value)
  {
    hide Covers, UpdateStake, Position, Transfer;
    var key := VoteKey(m.sender, role, address);
    VoteCovered(s, key);
    var s0 := s.(votes := s.votes - {key});
    TransferSolvent(s0, m.sender, s.votes[key]);
    var s1 := Transfer(s0, m.sender, s.votes[key]).value;
    var p := Position(Cands(s1, role), address);
    if p < |Cands(s1, role)| {
      UpdateStakeSolvent(cfg, s1, role, p, -s.votes[key]);
    }
  }

  lemma ExitRecorded(s: State, key: Key, pledge: int, expiration: int)
    requires Covers(s, pledge) && pledge >= 0 && key !in s.exits
    ensures Solvent(s.(exits := s.exits[key := Exit(pledge, expiration)]))
  {
    SumPut(s.exits, ExitPledge, key, Exit(pledge, expiration));
  }

  lemma LessIsCovered(s: State, amount: int)
    requires Covers(s, amount) && amount >= 0
    ensures Solvent(s)
  {
  }

  lemma LeaveCommitteeSolvent(cfg: Config, s: State, m: Msg)
    requires Solvent(s) && DoWithdraw(cfg, s, m, Committee).Some?
    ensures Solvent(DoWithdraw(cfg, s, m, Committee).value)
  {
    CoversStake(s, 0);
    hide Covers, RemoveFirst;
    var key := Key(Committee, m.sender);
    var s1 := s.(applications := s.applications - {key});
    if key in s.applications {
      RefundCovered(s, key);
      LessIsCovered(s1, s.applications[key].pledge);
    } else {
      assert s1.applications == s.applications;
    }
    SameMoneyCovers(s1, DoWithdraw(cfg, s, m, Committee).value, 0);
  }

  /** The pledge of a leaving candidate moves from its application to an exit. */
  lemma LeaveListSolvent(cfg: Config, s: State, key: Key, expiration: int)
    requires Solvent(s) && key in s.applications && key !in s.exits
    requires DeleteCandidate(cfg, s.(applications := s.applications - {key}), key.role, key.address).Some?
    ensures var s2 := DeleteCandidate(cfg, s.(applications := s.applications - {key}), key.role, key.address).value;
            Solvent(s2.(exits := s2.exits[key := Exit(s.applications[key].pledge, expiration)]))
  {
    hide Covers, DeleteCandidate;
    var pledge := s.applications[key].pledge;
    var s1 := s.(applications := s.applications - {key});
    RefundCovered(s, key);
    CoversStake(s1, pledge);
    DeleteCandidateCovers(cfg, s1, key.role, key.address, pledge);
    ExitRecorded(DeleteCandidate(cfg, s1, key.role, key.address).value, key, pledge, expiration);
  }

  lemma ExitRefundSolvent(s: State, key: Key, to: Address)
    requires Solvent(s) && key in s.exits
    ensures var r := Transfer(s.(exits := s.exits - {key}), to, s.exits[key].pledge);
            r.Some? && Solvent(r.value)
  {
    hide Covers, Transfer;
    ExitCovered(s, key);
    TransferSolvent(s.(exits := s.exits - {key}), to, s.exits[key].pledge);
  }

  lemma RefundSolvent(s: State, key: Key, to: Address)
    requires Solvent(s) && key in s.applications
    ensures var r := Transfer(s.(applications := s.applications - {key}), to, s.applications[key].pledge);
            r.Some? && Solvent(r.value)
  {
    hide Covers, Transfer;
    RefundCovered(s, key);
    TransferSolvent(s.(applications := s.applications - {key}), to, s.applications[key].pledge);
  }

  lemma DoWithdrawSolvent(cfg: Config, s: State, m: Msg, role: Role)
    requires Solvent(s) && !role.Committee? && DoWithdraw(cfg, s, m, role).Some?
    ensures Solvent(DoWithdraw(cfg, s, m, role).value)
  {
    CoversStake(s, 0);
    hide Solvent, DeleteCandidate, Transfer;
    var key := Key(role, m.sender);
    if key in s.exits {
      ExitRefundSolvent(s, key, m.sender);
    } else if !s.applications[key].passed {
      RefundSolvent(s, key, m.sender);
    } else {
      DoLeaveSolvent(cfg, s, m, role);
    }
  }

  lemma DoLeaveSolvent(cfg: Config, s: State, m: Msg, role: Role)
    requires Solvent(s) && !role.Committee? && DoWithdraw(cfg, s, m, role).Some?
    requires Key(role, m.sender) !in s.exits && s.applications[Key(role, m.sender)].passed
    ensures Solvent(DoWithdraw(cfg, s, m, role).value)
  {
    CoversStake(s, 0);
    hide Solvent, DeleteCandidate, Transfer;
    LeaveListSolvent(cfg, s, Key(role, m.sender), m.time + cfg.validPeriod);
  }

  lemma PenaltySolvent(s: State, key: Key)
    requires Solvent(s) && Penalty(s, key).Some?
    ensures Solvent(Penalty(s, key).value)
  {
    hide Covers;
    if key in s.applications {
      RefundCovered(s, key);
      LessIsCovered(s.(applications := s.applications - {key}), s.applications[key].pledge);
    } else {
      ExitCovered(s, key);
      LessIsCovered(s.(exits := s.exits - {key}), s.exits[key].pledge);
    }
  }

  lemma ApproveApplicationSolvent(cfg: Config, s: State, m: Msg, role: Role, address: Address)
    requires Solvent(s) && DoApprove(cfg, s, m, ToApply, role, address).Some?
    ensures Solvent(DoApprove(cfg, s, m, ToApply, role, address).value)
  {
    CoversStake(s, 0);
    hide Covers, AddCandidate, Carried;
    var key := Key(role, address);
    OldApplicationOk(s, key, 0);
    var a := s.applications[key];
    var a' := a.(ballot := a.ballot + [m.sender]);
    ApplicationSolvent(s, key, a', 0);
    ApplicationSolvent(s, key, a'.(passed := true), 0);
    var s1 := s.(applications := s.applications[key := a'.(passed := true)]);
    if Carried(cfg, s, |a'.ballot|) && m.time < a.expiration {
      if role.Committee? {
        SameMoneyCovers(s1, DoApprove(cfg, s, m, ToApply, role, address).value, 0);
      } else {
        AddCandidateSolvent(cfg, s1, role, address, a');
      }
    }
  }

  lemma PassOutSolvent(cfg: Config, s: State, key: Key)
    requires Solvent(s) && DeleteCandidate(cfg, s.(abolitions := s.abolitions - {key}), key.role, key.address).Some?
    requires var s2 := DeleteCandidate(cfg, s.(abolitions := s.abolitions - {key}), key.role, key.address).value;
             Penalty(s2, key).Some?
    ensures var s2 := DeleteCandidate(cfg, s.(abolitions := s.abolitions - {key}), key.role, key.address).value;
            Solvent(Penalty(s2, key).value)
  {
    hide Covers, DeleteCandidate, Penalty;
    var s1 := s.(abolitions := s.abolitions - {key});
    SameMoneyCovers(s, s1, 0);
    CoversStake(s1, 0);
    DeleteCandidateCovers(cfg, s1, key.role, key.address, 0);
    PenaltySolvent(DeleteCandidate(cfg, s1, key.role, key.address).value, key);
  }

  lemma ApproveAbolitionSolvent(cfg: Config, s: State, m: Msg, role: Role, address: Address)
    requires Solvent(s) && DoApprove(cfg, s, m, ToAbolish, role, address).Some?
    ensures Solvent(DoApprove(cfg, s, m, ToAbolish, role, address).value)
  {
    CoversStake(s, 0);
    hide Covers, DeleteCandidate, Penalty, Carried, RemoveFirst;
    var key := Key(role, address);
    var b := s.abolitions[key];
    if Carried(cfg, s, |b.ballot| + 1) && m.time < b.expiration && !role.Committee? {
      PassOutSolvent(cfg, s, key);
    } else {
      SameMoneyCovers(s, DoApprove(cfg, s, m, ToAbolish, role, address).value, 0);
    }
  }

  /** Neither the pool nor the ratio of a distribution entry is part of its reward. */
  lemma ShareChangeSolvent(s: State, role: Role, a: Address, pool: Address, ratio: int)
    requires Solvent(s) && a in DistOf(s, role) && 0 <= ratio <= 100
    ensures Solvent(WithDist(s, role, DistOf(s, role)[a := DistOf(s, role)[a].(pool := pool, ratio := ratio)]))
  {
    SumPut(DistOf(s, role), RewardOf, a, DistOf(s, role)[a].(pool := pool, ratio := ratio));
  }

  lemma OldRatioOk(s: State, role: Role, a: Address)
    requires Solvent(s) && a in DistOf(s, role)
    ensures 0 <= DistOf(s, role)[a].ratio <= 100
  {
  }

  lemma DividendChangeSolvent(s: State, m: Msg, role: Role, pool: Option<Address>, ratio: Option<int>)
    requires Solvent(s) && DoSetVoteDividend(s, m, role, pool, ratio).Some?
    ensures Solvent(DoSetVoteDividend(s, m, role, pool, ratio).value)
  {
    hide Covers;
    var key := Key(role, m.sender);
    OldApplicationOk(s, key, 0);
    var a := s.applications[key];
    var a' := a.(pool := if pool.Some? then pool.value else a.pool, ratio := if ratio.Some? then ratio.value else a.ratio);
    ApplicationSolvent(s, key, a', 0);
    var s1 := s.(applications := s.applications[key := a']);
    if m.sender in DistOf(s1, role) {
      var d := DistOf(s1, role)[m.sender];
      OldRatioOk(s1, role, m.sender);
      ShareChangeSolvent(s1, role, m.sender, if pool.Some? then pool.value else d.pool,
                         if ratio.Some? then ratio.value else d.ratio);
    }
  }

  lemma NodeChangeKeepsMoney(cfg: Config, s: State, m: Msg, node: Address)
    requires DoSetNodeAddress(cfg, s, m, node).Some?
    ensures var key := Key(Validator, m.sender);
            && key in s.applications
            && SameMoney(s.(applications := s.applications[key := s.applications[key].(node := node)]),
                         DoSetNodeAddress(cfg, s, m, node).value)
  {
    hide NodeTaken, Position, Data;
  }

  lemma NodeChangeSolvent(cfg: Config, s: State, m: Msg, node: Address)
    requires Solvent(s) && DoSetNodeAddress(cfg, s, m, node).Some?
    ensures Solvent(DoSetNodeAddress(cfg, s, m, node).value)
  {
    NodeChangeKeepsMoney(cfg, s, m, node);
    hide Covers, DoSetNodeAddress;
    var key := Key(Validator, m.sender);
    OldApplicationOk(s, key, 0);
    var a := s.applications[key].(node := node);
    ApplicationSolvent(s, key, a, 0);
    SameMoneyCovers(s.(applications := s.applications[key := a]), DoSetNodeAddress(cfg, s, m, node).value, 0);
  }

  lemma DoCleanSolvent(s: State, m: Msg, motion: Motion, role: Role, address: Address)
    requires Solvent(s) && DoClean(s, m, motion, role, address).Some?
    ensures Solvent(DoClean(s, m, motion, role, address).value)
  {
    hide Covers, Transfer;
    var key := Key(role, address);
    match motion
    case ToApply => RefundSolvent(s, key, address);
    case ToWithdraw => ExitRefundSolvent(s, key, address);
    case ToAbolish =>
      SameMoneyCovers(s, DoClean(s, m, motion, role, address).value, 0);
  }

  lemma DoExtractSolvent(cfg: Config, s: State, m: Msg, list: seq<Address>)
    requires Solvent(s) && DoExtract(cfg, s, m, list).Some?
    ensures Solvent(DoExtract(cfg, s, m, list).value)
  {
    CoversStake(s, 0);
    hide Covers, RewardDistribution, AwardAll;
    var (validators, kols) := Formal(cfg, s);
    RewardDistributionCovers(cfg, s, validators, kols, 0);
    AwardAllSolvent(RewardDistribution(cfg, s, validators, kols).value, list);
  }

  /** Every call keeps the contract solvent. */
  lemma DispatchSolvent(cfg: Config, before: State, m: Msg, call: Call)
    requires Solvent(before) && Dispatch(cfg, before, m, call).Some?
    ensures Solvent(Dispatch(cfg, before, m, call).value)
  {
    var s := Prepared(before, m.amount);
    PreparedCovers(before, m.amount);
    LessIsCovered(s, m.amount);
    hide Covers, DoApply, DoAppend, DoApprove, DoVote, DoUnVote, DoAbolish, DoWithdraw, DoExtract,
         DoSetNodeAddress, DoSetVoteDividend, DoClean;
    match call
    case Apply(role, pool, ratio, node) => DoApplySolvent(cfg, s, m, role, pool, ratio, node);
    case Append(role) => DoAppendSolvent(cfg, s, m, role);
    case Approve(motion, role, address) => ApproveSolvent(cfg, s, m, motion, role, address);
    case CastVote(role, address) => DoVoteSolvent(cfg, s, m, role, address);
    case UnVote(role, address) => DoUnVoteSolvent(cfg, s, m, role, address);
    case Abolish(role, address) => AbolishSolvent(cfg, s, m, role, address);
    case Withdraw(role) =>
      if role.Committee? { LeaveCommitteeSolvent(cfg, s, m); } else { DoWithdrawSolvent(cfg, s, m, role); }
    case Extract(list) => DoExtractSolvent(cfg, s, m, list);
    case SetNodeAddress(node) => NodeChangeSolvent(cfg, s, m, node);
    case SetVoteDividend(role, pool, ratio) => DividendChangeSolvent(s, m, role, pool, ratio);
    case Clean(motion, role, address) => DoCleanSolvent(s, m, motion, role, address);
  }

  lemma ApproveSolvent(cfg: Config, s: State, m: Msg, motion: Motion, role: Role, address: Address)
    requires Solvent(s) && DoApprove(cfg, s, m, motion, role, address).Some?
    ensures Solvent(DoApprove(cfg, s, m, motion, role, address).value)
  {
    if motion.ToApply? {
      hide DoApprove, Solvent;
      ApproveApplicationSolvent(cfg, s, m, role, address);
    } else {
      ApproveAbolitionSolvent(cfg, s, m, role, address);
    }
  }

  lemma AbolishSolvent(cfg: Config, s: State, m: Msg, role: Role, address: Address)
    requires Solvent(s) && DoAbolish(cfg, s, m, role, address).Some?
    ensures Solvent(DoAbolish(cfg, s, m, role, address).value)
  {
    hide Covers, MayReport;
    SameMoneyCovers(s, DoAbolish(cfg, s, m, role, address).value, 0);
  }

  lemma StepSolvent(cfg: Config, s: State, ev: Event)
    requires Solvent(s)
    ensures Solvent(Step(cfg, s, ev))
  {
    match ev
    case Rewarded(amount) =>
    case Called(m, call) =>
      hide Dispatch, Solvent;
      if Dispatch(cfg, s, m, call).Some? { DispatchSolvent(cfg, s, m, call); }
  }
}
