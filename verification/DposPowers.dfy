/** Who can change what: for every record of the DPoS contract, the calls that change it, exactly
    when they do, and that nothing else does. */
module DposPowers {
  import opened Options
  import opened Ranking
  import opened Dpos
  import opened DposSolvency
  import opened DposElection
  import opened DposConfig
  import opened DposRuns
  import opened DposClaims

  // ---- Rankings and rewards leave the records alone ----

  predicate SameRegister(s: State, s': State)
  {
    && s'.applications == s.applications && s'.exits == s.exits && s'.abolitions == s.abolitions
    && s'.votes == s.votes && s'.committee == s.committee
  }

  predicate OnlyApplications(s: State, s': State)
  {
    s'.exits == s.exits && s'.abolitions == s.abolitions && s'.votes == s.votes && s'.committee == s.committee
  }

  predicate OnlyReports(s: State, s': State)
  {
    s'.applications == s.applications && s'.exits == s.exits && s'.votes == s.votes && s'.committee == s.committee
  }

  predicate OnlyVotes(s: State, s': State)
  {
    && s'.applications == s.applications && s'.exits == s.exits && s'.abolitions == s.abolitions
    && s'.committee == s.committee
  }

  lemma BookingRegister(cfg: Config, s: State, validators: seq<Candidate>, kols: seq<Candidate>)
    requires s.balance >= s.allStake && RewardDistribution(cfg, s, validators, kols).Some?
    ensures SameRegister(s, RewardDistribution(cfg, s, validators, kols).value)
  {
    hide Calculate;
  }

  lemma UpdateStakeRegister(cfg: Config, s: State, role: Role, p: nat, amount: int)
    requires s.balance >= s.allStake && p < |Cands(s, role)| && UpdateStake(cfg, s, role, p, amount).Some?
    ensures SameRegister(s, UpdateStake(cfg, s, role, p, amount).value)
  {
    hide Sort, Position, RewardDistribution, Top, Data;
    var cs := Cands(s, role);
    var s1 := WithCands(s, role, Sort(cs[p := cs[p].(stake := cs[p].stake + amount)]));
    var (validators, kols) := Formal(cfg, s);
    if RewardDistribution(cfg, s1, validators, kols).Some? { BookingRegister(cfg, s1, validators, kols); }
  }

  lemma AddCandidateRegister(cfg: Config, s: State, role: Role, a: Address, app: Application)
    requires s.balance >= s.allStake && AddCandidate(cfg, s, role, a, app).Some?
    ensures SameRegister(s, AddCandidate(cfg, s, role, a, app).value)
  {
    hide Sort, Position, RewardDistribution, Top, NodeTaken, CandidateSize;
    var (validators, kols) := Formal(cfg, s);
    if RewardDistribution(cfg, s, validators, kols).Some? {
      BookingRegister(cfg, s, validators, kols);
      var s1 := RewardDistribution(cfg, s, validators, kols).value;
      var dist := DistOf(s1, role);
      var s2 := if a in dist then s1 else WithDist(s1, role, dist[a := Share(0, app.pool, app.ratio)]);
      assert SameRegister(s, s2);
      hide SameRegister;
      var c := Entry(a, app.pledge * cfg.magnification, if role.Validator? then app.node else "");
      ListedRegister(cfg, s, s2, role, Top(Sort(Cands(s, role) + [c]), CandidateSize(cfg, role)));
    } else {
      hide Formal;
    }
  }

  lemma ListedRegister(cfg: Config, s: State, s2: State, role: Role, kept: seq<Candidate>)
    requires SameRegister(s, s2)
    ensures SameRegister(s, WithCands(s2, role, kept)) && SameRegister(s, Publish(cfg, WithCands(s2, role, kept)))
  {
    hide Top, Data;
  }

  lemma DeleteCandidateRegister(cfg: Config, s: State, role: Role, a: Address)
    requires s.balance >= s.allStake && DeleteCandidate(cfg, s, role, a).Some?
    ensures SameRegister(s, DeleteCandidate(cfg, s, role, a).value)
  {
    hide Sort, Position, RewardDistribution, Top, Data;
    var (validators, kols) := Formal(cfg, s);
    if RewardDistribution(cfg, s, validators, kols).Some? { BookingRegister(cfg, s, validators, kols); }
  }

  lemma AwardRegister(s: State, role: Role, a: Address)
    requires AwardIfAny(s, role, a).Some?
    ensures SameRegister(s, AwardIfAny(s, role, a).value)
  {
    hide Transfer, Dividend, Contains, Logged;
  }

  lemma {:induction false} AwardAllRegister(s: State, list: seq<Address>)
    requires AwardAll(s, list).Some?
    ensures SameRegister(s, AwardAll(s, list).value)
  {
    if list != [] {
      hide AwardIfAny;
      AwardAllRegister(s, list[..|list| - 1]);
      var s1 := AwardAll(s, list[..|list| - 1]).value;
      AwardRegister(s1, Validator, list[|list| - 1]);
      AwardRegister(AwardIfAny(s1, Validator, list[|list| - 1]).value, Kol, list[|list| - 1]);
    }
  }

  lemma ExtractRegister(cfg: Config, s: State, m: Msg, list: seq<Address>)
    requires s.balance >= s.allStake && DoExtract(cfg, s, m, list).Some?
    ensures SameRegister(s, DoExtract(cfg, s, m, list).value)
  {
    hide RewardDistribution, AwardAll;
    var (validators, kols) := Formal(cfg, s);
    BookingRegister(cfg, s, validators, kols);
    AwardAllRegister(RewardDistribution(cfg, s, validators, kols).value, list);
  }

  // ---- When a candidate can join or rise ----

  /** The list is full and the pledge does not outweigh its last entry: nothing happens. */
  predicate TooLow(cfg: Config, cs: seq<Candidate>, role: Role, pledge: int)
  {
    && |cs| >= (if role.Validator? then cfg.validatorCandidateSize else cfg.kolCandidateSize)
    && (cs == [] || pledge * cfg.magnification <= cs[|cs| - 1].stake)
  }

  /** Nobody has to join, or rewards can be booked and, for a validator, the node is free. */
  predicate CanJoin(cfg: Config, s: State, role: Role, a: Application)
  {
    || TooLow(cfg, Cands(s, role), role, a.pledge)
    || (CanSettle(cfg, s) && (role.Validator? ==> forall k :: 0 <= k < |s.valCands| ==> s.valCands[k].data != a.node))
  }

  lemma JoiningSucceeds(cfg: Config, s: State, role: Role, address: Address, a: Application)
    requires s.balance >= s.allStake && Shape(s)
    ensures AddCandidate(cfg, s, role, address, a).Some? <==> CanJoin(cfg, s, role, a)
  {
    RewardsDistributable(cfg, s);
    hide Shape, RewardDistribution, CanSettle, Sort, Position, Top, Data;
  }

  /** Raised, the candidate would come into a formal place. */
  predicate GainsPlace(cs: seq<Candidate>, k: nat, p: nat, amount: int)
    requires p < |cs|
  {
    0 < k <= p && Ahead(cs[p].(stake := cs[p].stake + amount), cs[k - 1])
  }

  lemma RaisingSucceeds(cfg: Config, s: State, role: Role, p: nat, amount: int)
    requires s.balance >= s.allStake && Shape(s) && p < |Cands(s, role)| && amount >= 0
    ensures UpdateStake(cfg, s, role, p, amount).Some? <==>
              CanSettle(cfg, s) || !GainsPlace(Cands(s, role), FormalSize(cfg, role), p, amount)
  {
    hide ListOk, Shape, Sort, Known, UpdateStake, RewardDistribution, Rest, GainsPlace, Position, CanSettle;
    var cs := Cands(s, role);
    ListShape(s, role);
    RaisedList(cs, DistOf(s, role), p, amount, FormalSize(cfg, role));
    UpdateStakeFails(cfg, s, role, p, amount);
    ResortedDistributable(cfg, s, role, Sort(cs[p := cs[p].(stake := cs[p].stake + amount)]));
  }

  lemma RaisedList(cs: seq<Candidate>, dist: Dist, p: nat, amount: int, k: nat)
    requires ListOk(cs, dist) && p < |cs| && amount >= 0
    ensures var sorted := Sort(cs[p := cs[p].(stake := cs[p].stake + amount)]);
            && Known(dist, Rest(sorted, k)) && |sorted| == |cs|
            && ((p < k <==> Position(sorted, cs[p].address) < k) <==> !GainsPlace(cs, k, p, amount))
  {
    hide Sort, Position, Known, Ahead;
    RaisedCrosses(cs, p, cs[p].(stake := cs[p].stake + amount), k);
    ChangedKnown(cs, p, cs[p].stake + amount, dist, k);
  }

  // ---- The conditions, from the state before the call ----

  /** More than the pass rate's part of the committee. */
  predicate Enough(cfg: Config, s: State, ballots: nat)
  {
    ballots as real > |s.committee| as real * cfg.passRate
  }

  lemma EnoughIsCarried(cfg: Config, s: State, ballots: nat)
    ensures Enough(cfg, s, ballots) <==> Carried(cfg, s, ballots)
  {
    var x := |s.committee| as real * cfg.passRate;
    assert x.Floor as real <= x < (x.Floor + 1) as real;
  }

  predicate Member(s: State, m: Msg)
  {
    m.amount == 0 && m.wellFormed && m.sender in s.committee
  }

  predicate Listed(s: State, key: Key)
  {
    exists k :: 0 <= k < |Cands(s, key.role)| && Cands(s, key.role)[k].address == key.address
  }

  lemma ListedIs(s: State, key: Key)
    ensures Listed(s, key) <==> Contains(Cands(s, key.role), key.address)
  {
  }

  /** A first application: nothing on record, the least pledge of the role sent along, terms in
      range and, for a validator, a free node. */
  predicate Applies(cfg: Config, s: State, m: Msg, call: Call, key: Key)
  {
    && call.Apply? && key == Key(call.role, m.sender) && key !in s.applications
    && (match call.role
        case Committee => m.amount == 0
        case Validator => m.amount >= cfg.validatorMinPledge
        case Kol => m.amount >= cfg.kolMinPledge)
    && (!call.role.Committee? ==> m.wellFormed && 0 <= call.ratio <= 100)
    && (call.role.Validator? ==> forall k :: 0 <= k < |s.valCands| ==> s.valCands[k].data != call.node)
  }

  /** More coins on an application: in whole vote units, while it is open or once it passed. For a
      passed one the candidate must be able to rise or to join. */
  predicate Adds(cfg: Config, s: State, m: Msg, call: Call, key: Key)
  {
    && call.Append? && key == Key(call.role, m.sender) && key in s.applications && m.amount % cfg.voteUnit == 0
    && var a := s.applications[key];
       && (m.time < a.expiration || a.passed)
       && (a.passed ==> !key.role.Committee? && if Listed(s, key) then CanRise(cfg, s, key, m.amount * cfg.magnification)
                                                else CanJoin(cfg, s, key.role, a.(pledge := a.pledge + m.amount)))
  }

  predicate CanRise(cfg: Config, s: State, key: Key, amount: int)
    requires Listed(s, key)
  {
    ListedIs(s, key);
    CanSettle(cfg, s)
    || !GainsPlace(Cands(s, key.role), FormalSize(cfg, key.role), Position(Cands(s, key.role), key.address), amount)
  }

  /** A member's first ballot for an open application. */
  predicate Supports(s: State, m: Msg, call: Call, key: Key)
  {
    && call == Approve(ToApply, key.role, key.address) && Member(s, m) && key in s.applications
    && var a := s.applications[key];
       !a.passed && m.time < a.expiration && m.sender !in a.ballot
  }

  /** The ballot that carries it, if the candidate can join. */
  predicate Passes(cfg: Config, s: State, m: Msg, call: Call, key: Key)
  {
    && Supports(s, m, call, key) && Enough(cfg, s, |s.applications[key].ballot| + 1)
    && (key.role.Committee? || CanJoin(cfg, s, key.role, s.applications[key]))
  }

  /** A ballot on record: it does not carry, or carries and takes effect. */
  predicate Ballots(cfg: Config, s: State, m: Msg, call: Call, key: Key)
  {
    Supports(s, m, call, key) && (Enough(cfg, s, |s.applications[key].ballot| + 1) ==> Passes(cfg, s, m, call, key))
  }

  /** A report by someone of the same standing against one who passed. */
  predicate Reports(cfg: Config, s: State, m: Msg, call: Call, key: Key)
  {
    && call == Abolish(key.role, key.address) && m.amount == 0 && m.wellFormed
    && key in s.applications && s.applications[key].passed
    && (match key.role
        case Committee => m.sender in s.committee
        case Validator => exists k :: 0 <= k < |s.valCands| && k < cfg.validatorSize && s.valCands[k].address == m.sender
        case Kol => exists k :: 0 <= k < |s.kolCands| && k < cfg.kolSize && s.kolCands[k].address == m.sender)
  }

  /** A member's first ballot on an open report. */
  predicate Opposes(s: State, m: Msg, call: Call, key: Key)
  {
    && call == Approve(ToAbolish, key.role, key.address) && Member(s, m) && key in s.abolitions
    && m.time < s.abolitions[key].expiration && m.sender !in s.abolitions[key].ballot
  }

  /** The ballot that carries it, if there is somebody to expel and the list can be left. */
  predicate Expels(cfg: Config, s: State, m: Msg, call: Call, key: Key)
  {
    && Opposes(s, m, call, key) && Enough(cfg, s, |s.abolitions[key].ballot| + 1)
    && if key.role.Committee? then key.address in s.committee
       else (key in s.applications || key in s.exits) && (CanSettle(cfg, s) || !Listed(s, key))
  }

  /** Withdrawing what has not passed, or leaving. */
  predicate Withdraws(cfg: Config, s: State, m: Msg, call: Call, key: Key)
  {
    && call.Withdraw? && m.amount == 0 && key == Key(call.role, m.sender)
    && if key.role.Committee? then m.sender in s.committee && |s.committee| >= 2
       else && key !in s.exits && key in s.applications
            && (s.applications[key].passed ==> CanSettle(cfg, s) || !Listed(s, key))
  }

  /** Anyone may clear away what is over. */
  predicate Cleans(s: State, m: Msg, call: Call, motion: Motion, key: Key)
  {
    && call == Clean(motion, key.role, key.address) && m.amount == 0 && m.wellFormed
    && match motion
       case ToApply => key in s.applications && !s.applications[key].passed && m.time >= s.applications[key].expiration
       case ToWithdraw => key in s.exits && m.time >= s.exits[key].expiration
       case ToAbolish => key in s.abolitions && m.time >= s.abolitions[key].expiration
  }

  /** The waiting period is over. */
  predicate CollectsExit(s: State, m: Msg, call: Call, key: Key)
  {
    && call.Withdraw? && m.amount == 0 && key == Key(call.role, m.sender) && !key.role.Committee?
    && key in s.exits && m.time >= s.exits[key].expiration
  }

  predicate Renodes(s: State, m: Msg, call: Call, key: Key)
  {
    && call.SetNodeAddress? && m.amount == 0 && m.wellFormed && key == Key(Validator, m.sender) && key in s.applications
    && forall k :: 0 <= k < |s.valCands| ==> s.valCands[k].data != call.node
  }

  predicate Reterms(s: State, m: Msg, call: Call, key: Key)
  {
    && call.SetVoteDividend? && m.amount == 0 && m.wellFormed && key == Key(call.role, m.sender) && key in s.applications
    && (call.newRatio.Some? ==> 0 <= call.newRatio.value <= 100)
  }

  predicate CastsVote(cfg: Config, s: State, m: Msg, call: Call, key: VoteKey)
  {
    && call == CastVote(key.role, key.candidate) && key.voter == m.sender && !key.role.Committee? && m.wellFormed
    && m.amount % cfg.voteUnit == 0 && Listed(s, Key(key.role, key.candidate))
    && CanRise(cfg, s, Key(key.role, key.candidate), m.amount)
  }

  predicate TakesVoteBack(cfg: Config, s: State, m: Msg, call: Call, key: VoteKey)
  {
    && call == UnVote(key.role, key.candidate) && key.voter == m.sender && !key.role.Committee? && m.wellFormed
    && m.amount == 0 && key in s.votes && (CanSettle(cfg, s) || !Displaces(cfg, s, key))
  }

  // ---- Call by call ----

  lemma SettlesAlike(cfg: Config, s: State, s': State)
    requires s'.balance - s'.allStake == s.balance - s.allStake && s'.valCands == s.valCands && s'.kolCands == s.kolCands
    ensures CanSettle(cfg, s') <==> CanSettle(cfg, s)
  {
    hide SharesFit, WholeShares;
  }

  predicate Ready(s: State)
  {
    s.balance >= s.allStake && ElectionOk(s)
  }

  lemma ApplyExact(cfg: Config, s: State, m: Msg, call: Call)
    requires call.Apply?
    ensures var key := Key(call.role, m.sender);
            var r := DoApply(cfg, s, m, call.role, call.pool, call.ratio, call.node);
            && (r.Some? <==> Applies(cfg, s, m, call, key))
            && (r.Some? ==> OnlyApplications(s, r.value)
                            && r.value.applications == s.applications[key :=
                                 Application(m.amount, m.time + cfg.validPeriod, false, [], call.pool, call.ratio, call.node)])
  {
  }

  lemma AppendExact(cfg: Config, s: State, m: Msg, call: Call)
    requires call.Append? && Ready(s)
    ensures var key := Key(call.role, m.sender);
            var r := DoAppend(cfg, s, m, call.role);
            && (r.Some? <==> Adds(cfg, s, m, call, key))
            && (r.Some? ==> key in s.applications && OnlyApplications(s, r.value)
                            && r.value.applications
                               == s.applications[key := s.applications[key].(pledge := s.applications[key].pledge + m.amount)])
  {
    hide AddCandidate, UpdateStake, Position, CanSettle, CanRise, CanJoin, Listed, ElectionOk;
    var key := Key(call.role, m.sender);
    if key in s.applications && s.applications[key].passed && !call.role.Committee? {
      var s1 := s.(applications := s.applications[key := s.applications[key].(pledge := s.applications[key].pledge + m.amount)]);
      ListedIs(s, key);
      ListedIs(s1, key);
      if Listed(s, key) {
        RiseExact(cfg, s, s1, key, m.amount * cfg.magnification);
      } else {
        JoinExact(cfg, s, s1, key, s1.applications[key]);
      }
    }
  }

  lemma RiseExact(cfg: Config, s: State, s1: State, key: Key, amount: int)
    requires Ready(s) && s1 == s.(applications := s1.applications) && !key.role.Committee? && amount >= 0 && Listed(s, key)
    ensures var p := Position(Cands(s1, key.role), key.address);
            && p < |Cands(s1, key.role)|
            && (UpdateStake(cfg, s1, key.role, p, amount).Some? <==> CanRise(cfg, s, key, amount))
            && (UpdateStake(cfg, s1, key.role, p, amount).Some? ==>
                  SameRegister(s1, UpdateStake(cfg, s1, key.role, p, amount).value))
  {
    ListedIs(s, key);
    SettlesAlike(cfg, s, s1);
    assert Shape(s1) by { hide ListOk; }
    hide UpdateStake, Position, CanSettle, GainsPlace, ElectionOk, Shape, Listed;
    var p := Position(Cands(s1, key.role), key.address);
    RaisingSucceeds(cfg, s1, key.role, p, amount);
    if UpdateStake(cfg, s1, key.role, p, amount).Some? { UpdateStakeRegister(cfg, s1, key.role, p, amount); }
  }

  lemma JoinExact(cfg: Config, s: State, s1: State, key: Key, a: Application)
    requires Ready(s) && s1 == s.(applications := s1.applications) && !key.role.Committee?
    ensures var r := AddCandidate(cfg, s1, key.role, key.address, a);
            && (r.Some? <==> CanJoin(cfg, s, key.role, a)) && (r.Some? ==> SameRegister(s1, r.value))
  {
    assert Shape(s1) by { hide ListOk; }
    hide AddCandidate, CanJoin, ElectionOk, Shape;
    JoinsAlike(cfg, s, s1, key.role, a, a);
    JoiningSucceeds(cfg, s1, key.role, key.address, a);
    if AddCandidate(cfg, s1, key.role, key.address, a).Some? { AddCandidateRegister(cfg, s1, key.role, key.address, a); }
  }

  lemma SupportExact(cfg: Config, s: State, m: Msg, key: Key)
    requires Ready(s) && m.amount == 0
    ensures var call := Approve(ToApply, key.role, key.address);
            var s' := After(s, DoApprove(cfg, s, m, ToApply, key.role, key.address));
            && s'.votes == s.votes && s'.exits == s.exits && s'.abolitions == s.abolitions
            && s'.applications == (if !Ballots(cfg, s, m, call, key) then s.applications
                                   else var a := s.applications[key];
                                        s.applications[key := a.(ballot := a.ballot + [m.sender],
                                                                 passed := Passes(cfg, s, m, call, key))])
            && s'.committee == (if Passes(cfg, s, m, call, key) && key.role.Committee? && |s.committee| < cfg.committeeSize
                                then s.committee + [key.address] else s.committee)
  {
    hide Enough, CanJoin, ElectionOk, DoApprove;
    if !Supports(s, m, Approve(ToApply, key.role, key.address), key) || !Enough(cfg, s, |s.applications[key].ballot| + 1) {
      SupportShort(cfg, s, m, key);
    } else if key.role.Committee? {
      SupportMember(cfg, s, m, key);
    } else {
      SupportListed(cfg, s, m, key);
    }
  }

  /** A ballot that does not count, or does not carry. */
  lemma SupportShort(cfg: Config, s: State, m: Msg, key: Key)
    requires s.balance >= s.allStake && m.amount == 0
    requires Supports(s, m, Approve(ToApply, key.role, key.address), key) ==> !Enough(cfg, s, |s.applications[key].ballot| + 1)
    ensures var s' := After(s, DoApprove(cfg, s, m, ToApply, key.role, key.address));
            && OnlyApplications(s, s')
            && s'.applications == (if !Supports(s, m, Approve(ToApply, key.role, key.address), key) then s.applications
                                   else var a := s.applications[key];
                                        s.applications[key := a.(ballot := a.ballot + [m.sender], passed := false)])
  {
    hide AddCandidate, Enough, Carried;
    if key in s.applications { EnoughIsCarried(cfg, s, |s.applications[key].ballot| + 1); }
  }

  lemma SupportMember(cfg: Config, s: State, m: Msg, key: Key)
    requires s.balance >= s.allStake && m.amount == 0 && key.role.Committee?
    requires Supports(s, m, Approve(ToApply, key.role, key.address), key) && Enough(cfg, s, |s.applications[key].ballot| + 1)
    ensures var r := DoApprove(cfg, s, m, ToApply, key.role, key.address);
            var a := s.applications[key];
            && r.Some? && r.value.votes == s.votes && r.value.exits == s.exits && r.value.abolitions == s.abolitions
            && r.value.applications == s.applications[key := a.(ballot := a.ballot + [m.sender], passed := true)]
            && r.value.committee == (if |s.committee| < cfg.committeeSize then s.committee + [key.address] else s.committee)
  {
    hide AddCandidate, Enough, Carried;
    EnoughIsCarried(cfg, s, |s.applications[key].ballot| + 1);
  }

  lemma SupportListed(cfg: Config, s: State, m: Msg, key: Key)
    requires Ready(s) && m.amount == 0 && !key.role.Committee?
    requires Supports(s, m, Approve(ToApply, key.role, key.address), key) && Enough(cfg, s, |s.applications[key].ballot| + 1)
    ensures var r := DoApprove(cfg, s, m, ToApply, key.role, key.address);
            var a := s.applications[key];
            && (r.Some? <==> CanJoin(cfg, s, key.role, a))
            && (r.Some? ==>
                  && OnlyApplications(s, r.value)
                  && r.value.applications == s.applications[key := a.(ballot := a.ballot + [m.sender], passed := true)])
  {
    hide AddCandidate, CanJoin, BothBacked, Enough, Carried, Shape;
    var a := s.applications[key];
    var a' := a.(ballot := a.ballot + [m.sender]);
    EnoughIsCarried(cfg, s, |a'.ballot|);
    var s1 := s.(applications := s.applications[key := a'.(passed := true)]);
    JoinsAlike(cfg, s, s, key.role, a, a');
    JoinExact(cfg, s, s1, key, a');
  }

  lemma JoinsAlike(cfg: Config, s: State, s': State, role: Role, a: Application, a': Application)
    requires s'.balance - s'.allStake == s.balance - s.allStake && s'.valCands == s.valCands && s'.kolCands == s.kolCands
    requires a'.pledge == a.pledge && a'.node == a.node
    ensures CanJoin(cfg, s', role, a') <==> CanJoin(cfg, s, role, a)
  {
    SettlesAlike(cfg, s, s');
    hide CanSettle;
  }

  lemma OpposeExact(cfg: Config, s: State, m: Msg, key: Key)
    requires Ready(s) && m.amount == 0
    ensures var call := Approve(ToAbolish, key.role, key.address);
            var s' := After(s, DoApprove(cfg, s, m, ToAbolish, key.role, key.address));
            var out := Expels(cfg, s, m, call, key);
            && s'.votes == s.votes
            && s'.abolitions == (if out then s.abolitions - {key}
                                 else if Opposes(s, m, call, key) && !Enough(cfg, s, |s.abolitions[key].ballot| + 1)
                                 then s.abolitions[key := s.abolitions[key].(ballot := s.abolitions[key].ballot + [m.sender])]
                                 else s.abolitions)
            && s'.applications == (if out && !key.role.Committee? then s.applications - {key} else s.applications)
            && s'.exits == (if out && !key.role.Committee? && key !in s.applications then s.exits - {key} else s.exits)
            && s'.committee == (if out && key.role.Committee? then RemoveFirst(s.committee, key.address) else s.committee)
  {
    hide Enough, CanSettle, ElectionOk, RemoveFirst, Listed, DoApprove;
    if !Opposes(s, m, Approve(ToAbolish, key.role, key.address), key) || !Enough(cfg, s, |s.abolitions[key].ballot| + 1) {
      OpposeShort(cfg, s, m, key);
    } else if key.role.Committee? {
      OpposeMember(cfg, s, m, key);
    } else {
      OpposeListed(cfg, s, m, key);
    }
  }

  /** A ballot that does not count, or does not carry. */
  lemma OpposeShort(cfg: Config, s: State, m: Msg, key: Key)
    requires s.balance >= s.allStake && m.amount == 0
    requires Opposes(s, m, Approve(ToAbolish, key.role, key.address), key) ==> !Enough(cfg, s, |s.abolitions[key].ballot| + 1)
    ensures var s' := After(s, DoApprove(cfg, s, m, ToAbolish, key.role, key.address));
            && OnlyReports(s, s')
            && s'.abolitions == (if Opposes(s, m, Approve(ToAbolish, key.role, key.address), key)
                                 then s.abolitions[key := s.abolitions[key].(ballot := s.abolitions[key].ballot + [m.sender])]
                                 else s.abolitions)
  {
    hide DeleteCandidate, Enough, Carried, RemoveFirst, Penalty;
    if key in s.abolitions { EnoughIsCarried(cfg, s, |s.abolitions[key].ballot| + 1); }
  }

  lemma OpposeMember(cfg: Config, s: State, m: Msg, key: Key)
    requires s.balance >= s.allStake && m.amount == 0 && key.role.Committee?
    requires Opposes(s, m, Approve(ToAbolish, key.role, key.address), key) && Enough(cfg, s, |s.abolitions[key].ballot| + 1)
    ensures DoApprove(cfg, s, m, ToAbolish, key.role, key.address)
            == if key.address !in s.committee then None
               else Some(s.(abolitions := s.abolitions - {key}, committee := RemoveFirst(s.committee, key.address)))
  {
    hide DeleteCandidate, Enough, Carried, RemoveFirst, Penalty;
    EnoughIsCarried(cfg, s, |s.abolitions[key].ballot| + 1);
  }

  lemma OpposeListed(cfg: Config, s: State, m: Msg, key: Key)
    requires Ready(s) && m.amount == 0 && !key.role.Committee?
    requires Opposes(s, m, Approve(ToAbolish, key.role, key.address), key) && Enough(cfg, s, |s.abolitions[key].ballot| + 1)
    ensures var r := DoApprove(cfg, s, m, ToAbolish, key.role, key.address);
            && (r.Some? <==> (key in s.applications || key in s.exits) && (CanSettle(cfg, s) || !Listed(s, key)))
            && (r.Some? ==>
                  && r.value.votes == s.votes && r.value.committee == s.committee && r.value.abolitions == s.abolitions - {key}
                  && r.value.applications == s.applications - {key}
                  && r.value.exits == (if key !in s.applications then s.exits - {key} else s.exits))
  {
    hide DeleteCandidate, CanSettle, BothBacked, Enough, Carried, RemoveFirst, Contains, Listed;
    EnoughIsCarried(cfg, s, |s.abolitions[key].ballot| + 1);
    var s1 := s.(abolitions := s.abolitions - {key});
    assert Shape(s1) by { hide ListOk; }
    hide Shape;
    SettlesAlike(cfg, s, s1);
    ListedIs(s, key);
    DeletionSucceeds(cfg, s1, key.role, key.address);
    if DeleteCandidate(cfg, s1, key.role, key.address).Some? {
      DeleteCandidateRegister(cfg, s1, key.role, key.address);
    }
    if key !in s.applications { assert s.applications - {key} == s.applications; }
  }

  lemma ReportExact(cfg: Config, s: State, m: Msg, key: Key)
    requires m.amount == 0
    ensures var call := Abolish(key.role, key.address);
            var s' := After(s, DoAbolish(cfg, s, m, key.role, key.address));
            && OnlyReports(s, s')
            && s'.abolitions == (if !Reports(cfg, s, m, call, key) then s.abolitions
                                 else s.abolitions[key := Abolition(m.time + cfg.validPeriod,
                                        if key in s.abolitions then s.abolitions[key].ballot
                                        else if key.role.Committee? then [m.sender] else [])])
  {
    TopContains(s.valCands, cfg.validatorSize, m.sender);
    TopContains(s.kolCands, cfg.kolSize, m.sender);
    hide Contains, Top;
  }

  lemma TopContains(cs: seq<Candidate>, n: nat, a: Address)
    ensures Contains(Top(cs, n), a) <==> exists k :: 0 <= k < |cs| && k < n && cs[k].address == a
  {
    var top := Top(cs, n);
    if Contains(top, a) { assert cs[Position(top, a)].address == a; }
    if k :| 0 <= k < |cs| && k < n && cs[k].address == a { assert top[k].address == a; }
  }

  lemma VoteExact(cfg: Config, s: State, m: Msg, role: Role, a: Address)
    requires Ready(s)
    ensures var key := VoteKey(m.sender, role, a);
            var s' := After(s, DoVote(cfg, s, m, role, a));
            && OnlyVotes(s, s')
            && s'.votes == (if !CastsVote(cfg, s, m, CastVote(role, a), key) then s.votes
                            else s.votes[key := (if key in s.votes then s.votes[key] else 0) + m.amount])
  {
    hide UpdateStake, Position, CanSettle, GainsPlace, BothBacked;
    var key := VoteKey(m.sender, role, a);
    ListedIs(s, Key(role, a));
    var p := Position(Cands(s, role), a);
    if p < |Cands(s, role)| {
      var s1 := s.(votes := s.votes[key := (if key in s.votes then s.votes[key] else 0) + m.amount]);
      assert Shape(s1) by { hide ListOk; }
      hide Shape;
      SettlesAlike(cfg, s, s1);
      RaisingSucceeds(cfg, s1, role, p, m.amount);
      if UpdateStake(cfg, s1, role, p, m.amount).Some? { UpdateStakeRegister(cfg, s1, role, p, m.amount); }
    }
  }

  lemma UnVoteExact(cfg: Config, s: State, m: Msg, role: Role, a: Address)
    requires Solvent(s) && Ready(s) && m.amount == 0
    ensures var key := VoteKey(m.sender, role, a);
            var s' := After(s, DoUnVote(cfg, s, m, role, a));
            && OnlyVotes(s, s')
            && s'.votes == (if TakesVoteBack(cfg, s, m, UnVote(role, a), key) then s.votes - {key} else s.votes)
  {
    var key := VoteKey(m.sender, role, a);
    if !role.Committee? && m.wellFormed && key in s.votes {
      DoUnVotePaid(cfg, s, m, role, a);
      VoteReturned(cfg, s, m, role, a);
      hide Covers, ElectionOk, Displaces, CanSettle, UpdateStake, Position, Logged, DoUnVote;
      var s1 := Paid(s.(votes := s.votes - {key}), m.sender, s.votes[key]);
      var p := Position(Cands(s1, role), a);
      if p < |Cands(s1, role)| && UpdateStake(cfg, s1, role, p, -s.votes[key]).Some? {
        UpdateStakeRegister(cfg, s1, role, p, -s.votes[key]);
      }
    }
  }

  lemma WithdrawExact(cfg: Config, s: State, m: Msg, role: Role)
    requires Solvent(s) && Ready(s) && m.amount == 0
    ensures var key := Key(role, m.sender);
            var call := Withdraw(role);
            var s' := After(s, DoWithdraw(cfg, s, m, role));
            var out := Withdraws(cfg, s, m, call, key);
            && s'.votes == s.votes && s'.abolitions == s.abolitions
            && s'.applications == (if out then s.applications - {key} else s.applications)
            && s'.exits == (if out && !role.Committee? && s.applications[key].passed
                            then s.exits[key := Exit(s.applications[key].pledge, m.time + cfg.validPeriod)]
                            else if CollectsExit(s, m, call, key) then s.exits - {key} else s.exits)
            && s'.committee == (if out && role.Committee? then RemoveFirst(s.committee, m.sender) else s.committee)
  {
    hide Covers, ElectionOk, CanSettle, RemoveFirst, Listed, DoWithdraw;
    var key := Key(role, m.sender);
    if role.Committee? {
      LeaveCommitteeExact(cfg, s, m);
    } else if key in s.exits {
      CollectExact(cfg, s, m, role);
    } else if key in s.applications {
      LeaveExact(cfg, s, m, role);
    } else {
      NothingToWithdraw(cfg, s, m, role);
    }
  }

  lemma LeaveCommitteeExact(cfg: Config, s: State, m: Msg)
    requires s.balance >= s.allStake
    ensures DoWithdraw(cfg, s, m, Committee)
            == if m.sender in s.committee && |s.committee| >= 2
               then Some(s.(applications := s.applications - {Key(Committee, m.sender)},
                            committee := RemoveFirst(s.committee, m.sender)))
               else None
  {
    hide DeleteCandidate, RemoveFirst, Transfer;
  }

  lemma NothingToWithdraw(cfg: Config, s: State, m: Msg, role: Role)
    requires s.balance >= s.allStake && !role.Committee?
    requires Key(role, m.sender) !in s.exits && Key(role, m.sender) !in s.applications
    ensures DoWithdraw(cfg, s, m, role) == None
  {
    hide DeleteCandidate, RemoveFirst, Transfer;
  }

  lemma CollectExact(cfg: Config, s: State, m: Msg, role: Role)
    requires Solvent(s) && s.balance >= s.allStake && !role.Committee? && Key(role, m.sender) in s.exits
    ensures var key := Key(role, m.sender);
            var r := DoWithdraw(cfg, s, m, role);
            && (r.Some? <==> m.time >= s.exits[key].expiration)
            && (r.Some? ==> SameRegister(s.(exits := s.exits - {key}), r.value))
  {
    var key := Key(role, m.sender);
    ExitRefundSolvent(s, key, m.sender);
    TransferRegister(s.(exits := s.exits - {key}), m.sender, s.exits[key].pledge);
    hide Covers, DeleteCandidate, RemoveFirst, Transfer;
  }

  lemma LeaveExact(cfg: Config, s: State, m: Msg, role: Role)
    requires Solvent(s) && Ready(s) && !role.Committee? && m.amount == 0
    requires Key(role, m.sender) !in s.exits && Key(role, m.sender) in s.applications
    ensures var key := Key(role, m.sender);
            var a := s.applications[key];
            var r := DoWithdraw(cfg, s, m, role);
            && (r.Some? <==> !a.passed || CanSettle(cfg, s) || !Listed(s, key))
            && (r.Some? ==>
                  && r.value.applications == s.applications - {key} && r.value.abolitions == s.abolitions
                  && r.value.votes == s.votes && r.value.committee == s.committee
                  && r.value.exits == if a.passed then s.exits[key := Exit(a.pledge, m.time + cfg.validPeriod)] else s.exits)
  {
    hide ElectionOk, CanSettle, Listed, DoWithdraw, Covers;
    if s.applications[Key(role, m.sender)].passed { LeaveListExact(cfg, s, m, role); } else { RefundExact(cfg, s, m, role); }
  }

  lemma RefundExact(cfg: Config, s: State, m: Msg, role: Role)
    requires Solvent(s) && s.balance >= s.allStake && !role.Committee?
    requires Key(role, m.sender) !in s.exits && Key(role, m.sender) in s.applications
    requires !s.applications[Key(role, m.sender)].passed
    ensures var r := DoWithdraw(cfg, s, m, role);
            r.Some? && OnlyApplications(s, r.value) && r.value.applications == s.applications - {Key(role, m.sender)}
  {
    var key := Key(role, m.sender);
    RefundSolvent(s, key, m.sender);
    TransferRegister(s.(applications := s.applications - {key}), m.sender, s.applications[key].pledge);
    hide Covers, DeleteCandidate, RemoveFirst, Transfer;
  }

  lemma LeaveListExact(cfg: Config, s: State, m: Msg, role: Role)
    requires Ready(s) && !role.Committee?
    requires Key(role, m.sender) !in s.exits && Key(role, m.sender) in s.applications
    requires s.applications[Key(role, m.sender)].passed
    ensures var key := Key(role, m.sender);
            var r := DoWithdraw(cfg, s, m, role);
            && (r.Some? <==> CanSettle(cfg, s) || !Listed(s, key))
            && (r.Some? ==>
                  && r.value.applications == s.applications - {key} && r.value.abolitions == s.abolitions
                  && r.value.votes == s.votes && r.value.committee == s.committee
                  && r.value.exits == s.exits[key := Exit(s.applications[key].pledge, m.time + cfg.validPeriod)])
  {
    hide DeleteCandidate, RemoveFirst, Transfer, CanSettle, BothBacked, Contains, Listed;
    var key := Key(role, m.sender);
    var s1 := s.(applications := s.applications - {key});
    assert Shape(s1) by { hide ListOk; }
    hide Shape;
    ListedIs(s, key);
    SettlesAlike(cfg, s, s1);
    DeletionSucceeds(cfg, s1, role, m.sender);
    if DeleteCandidate(cfg, s1, role, m.sender).Some? { DeleteCandidateRegister(cfg, s1, role, m.sender); }
  }

  lemma CleanExact(s: State, m: Msg, motion: Motion, key: Key)
    requires Solvent(s) && m.amount == 0
    ensures var call := Clean(motion, key.role, key.address);
            var s' := After(s, DoClean(s, m, motion, key.role, key.address));
            && s'.votes == s.votes && s'.committee == s.committee
            && s'.applications == (if Cleans(s, m, call, ToApply, key) then s.applications - {key} else s.applications)
            && s'.exits == (if Cleans(s, m, call, ToWithdraw, key) then s.exits - {key} else s.exits)
            && s'.abolitions == (if Cleans(s, m, call, ToAbolish, key) then s.abolitions - {key} else s.abolitions)
  {
    hide Covers, Transfer;
    match motion
    case ToApply =>
      if key in s.applications {
        RefundSolvent(s, key, key.address);
        TransferRegister(s.(applications := s.applications - {key}), key.address, s.applications[key].pledge);
      }
    case ToWithdraw =>
      if key in s.exits {
        ExitRefundSolvent(s, key, key.address);
        TransferRegister(s.(exits := s.exits - {key}), key.address, s.exits[key].pledge);
      }
    case ToAbolish =>
  }

  lemma TransferRegister(s: State, to: Address, amount: int)
    ensures Transfer(s, to, amount).Some? ==> SameRegister(s, Transfer(s, to, amount).value)
  {
  }

  lemma NodeExact(cfg: Config, s: State, m: Msg, node: Address)
    requires m.amount == 0
    ensures var key := Key(Validator, m.sender);
            var s' := After(s, DoSetNodeAddress(cfg, s, m, node));
            && OnlyApplications(s, s')
            && s'.applications == (if !Renodes(s, m, SetNodeAddress(node), key) then s.applications
                                   else s.applications[key := s.applications[key].(node := node)])
  {
    RenodesIs(s, m, node);
    hide Position, Data, Top, NodeTaken, Renodes;
  }

  lemma RenodesIs(s: State, m: Msg, node: Address)
    requires m.amount == 0
    ensures Renodes(s, m, SetNodeAddress(node), Key(Validator, m.sender)) <==>
              m.wellFormed && !NodeTaken(s.valCands, node) && Key(Validator, m.sender) in s.applications
  {
  }

  lemma TermsExact(s: State, m: Msg, call: Call)
    requires call.SetVoteDividend? && m.amount == 0
    ensures var key := Key(call.role, m.sender);
            var s' := After(s, DoSetVoteDividend(s, m, call.role, call.newPool, call.newRatio));
            && OnlyApplications(s, s')
            && s'.applications == (if !Reterms(s, m, call, key) then s.applications
                                   else var a := s.applications[key];
                                        s.applications[key :=
                                          a.(pool := if call.newPool.Some? then call.newPool.value else a.pool,
                                             ratio := if call.newRatio.Some? then call.newRatio.value else a.ratio)])
  {
    hide WithDist, DistOf;
    var key := Key(call.role, m.sender);
    if key in s.applications {
      var a := s.applications[key];
      var s1 := s.(applications := s.applications[key :=
                     a.(pool := if call.newPool.Some? then call.newPool.value else a.pool,
                        ratio := if call.newRatio.Some? then call.newRatio.value else a.ratio)]);
      var dist := DistOf(s1, call.role);
      if m.sender in dist {
        var d := dist[m.sender];
        DistRegister(s1, call.role, dist[m.sender :=
                       d.(pool := if call.newPool.Some? then call.newPool.value else d.pool,
                          ratio := if call.newRatio.Some? then call.newRatio.value else d.ratio)]);
      }
    }
  }

  lemma DistRegister(s: State, role: Role, dist: Dist)
    ensures SameRegister(s, WithDist(s, role, dist))
  {
  }

  // ---- Record by record ----

  lemma AppliesAlike(cfg: Config, s: State, m: Msg, call: Call, key: Key)
    ensures Applies(cfg, Prepared(s, m.amount), m, call, key) <==> Applies(cfg, s, m, call, key)
    ensures Applies(cfg, s, m, call, key) ==> key !in s.applications
  {
  }

  lemma AddsAlike(cfg: Config, s: State, m: Msg, call: Call, key: Key)
    ensures Adds(cfg, Prepared(s, m.amount), m, call, key) <==> Adds(cfg, s, m, call, key)
  {
    var s0 := Prepared(s, m.amount);
    SettlesAlike(cfg, s, s0);
    hide CanSettle, Position, GainsPlace;
    ListedIs(s, key);
    ListedIs(s0, key);
    hide Listed;
  }

  lemma CastsAlike(cfg: Config, s: State, m: Msg, call: Call, key: VoteKey)
    ensures CastsVote(cfg, Prepared(s, m.amount), m, call, key) <==> CastsVote(cfg, s, m, call, key)
  {
    var s0 := Prepared(s, m.amount);
    SettlesAlike(cfg, s, s0);
    hide CanSettle, Position, GainsPlace;
    ListedIs(s, Key(key.role, key.candidate));
    ListedIs(s0, Key(key.role, key.candidate));
    hide Listed;
  }

  lemma PreparedReady(s: State, amount: nat)
    requires Solvent(s) && ElectionOk(s)
    ensures Ready(Prepared(s, amount)) && Solvent(Prepared(s, amount)) && s.balance >= s.allStake
    ensures amount == 0 ==> Prepared(s, amount) == s
  {
    PreparedCovers(s, amount);
    LessIsCovered(Prepared(s, amount), amount);
    CoversStake(s, 0);
    CoversStake(Prepared(s, amount), 0);
    hide Covers, BothBacked;
    assert Shape(Prepared(s, amount)) by { hide ListOk; }
    assert BothBacked(Prepared(s, amount)) by { BackedPrepared(s, amount); }
  }

  lemma BackedPrepared(s: State, amount: nat)
    requires BothBacked(s)
    ensures BothBacked(Prepared(s, amount))
  {
    hide Backed;
  }

  /** What becomes of an application. */
  function ApplicationAfter(cfg: Config, s: State, m: Msg, call: Call, key: Key): Option<Application>
  {
    if Applies(cfg, s, m, call, key) then
      Some(Application(m.amount, m.time + cfg.validPeriod, false, [], call.pool, call.ratio, call.node))
    else if key !in s.applications || Withdraws(cfg, s, m, call, key) || Cleans(s, m, call, ToApply, key)
            || (Expels(cfg, s, m, call, key) && !key.role.Committee?) then None
    else
      var a := s.applications[key];
      Some(Application(
             if Adds(cfg, s, m, call, key) then a.pledge + m.amount else a.pledge,
             a.expiration,
             a.passed || Passes(cfg, s, m, call, key),
             if Ballots(cfg, s, m, call, key) then a.ballot + [m.sender] else a.ballot,
             if Reterms(s, m, call, key) && call.newPool.Some? then call.newPool.value else a.pool,
             if Reterms(s, m, call, key) && call.newRatio.Some? then call.newRatio.value else a.ratio,
             if Renodes(s, m, call, key) then call.node else a.node))
  }

  /** What becomes of a report. */
  function ReportAfter(cfg: Config, s: State, m: Msg, call: Call, key: Key): Option<Abolition>
  {
    if Reports(cfg, s, m, call, key) then
      Some(Abolition(m.time + cfg.validPeriod,
                     if key in s.abolitions then s.abolitions[key].ballot
                     else if key.role.Committee? then [m.sender] else []))
    else if key !in s.abolitions || Expels(cfg, s, m, call, key) || Cleans(s, m, call, ToAbolish, key) then None
    else if Opposes(s, m, call, key) && !Enough(cfg, s, |s.abolitions[key].ballot| + 1) then
      Some(s.abolitions[key].(ballot := s.abolitions[key].ballot + [m.sender]))
    else Some(s.abolitions[key])
  }

  /** What becomes of a pledge waiting to be paid back. */
  function ExitAfter(cfg: Config, s: State, m: Msg, call: Call, key: Key): Option<Exit>
  {
    if Withdraws(cfg, s, m, call, key) && !key.role.Committee? && s.applications[key].passed then
      Some(Exit(s.applications[key].pledge, m.time + cfg.validPeriod))
    else if key !in s.exits || CollectsExit(s, m, call, key) || Cleans(s, m, call, ToWithdraw, key)
            || (Expels(cfg, s, m, call, key) && !key.role.Committee? && key !in s.applications) then None
    else Some(s.exits[key])
  }

  /** What becomes of a vote. */
  function VoteAfter(cfg: Config, s: State, m: Msg, call: Call, key: VoteKey): Option<int>
  {
    if CastsVote(cfg, s, m, call, key) then Some((if key in s.votes then s.votes[key] else 0) + m.amount)
    else if key !in s.votes || TakesVoteBack(cfg, s, m, call, key) then None
    else Some(s.votes[key])
  }

  function CommitteeAfter(cfg: Config, s: State, m: Msg, call: Call): multiset<Address>
  {
    var members := multiset(s.committee);
    if call.Approve? && call.role.Committee? && Passes(cfg, s, m, call, Key(Committee, call.address)) then
      if |s.committee| < cfg.committeeSize then members + multiset{call.address} else members
    else if call.Approve? && call.role.Committee? && Expels(cfg, s, m, call, Key(Committee, call.address)) then
      members - multiset{call.address}
    else if Withdraws(cfg, s, m, call, Key(Committee, m.sender)) then members - multiset{m.sender}
    else members
  }

  lemma {:induction false} RemovedOnce(list: seq<Address>, a: Address)
    ensures multiset(RemoveFirst(list, a)) == multiset(list) - multiset{a}
  {
    if list != [] {
      assert list == [list[0]] + list[1..];
      if list[0] != a { RemovedOnce(list[1..], a); }
    }
  }

  /** Which call each condition is about. */
  lemma Kinds(cfg: Config, s: State, m: Msg, call: Call, key: Key)
    ensures Applies(cfg, s, m, call, key) ==> call.Apply? && key == Key(call.role, m.sender)
    ensures Adds(cfg, s, m, call, key) ==> call.Append? && key == Key(call.role, m.sender)
    ensures Passes(cfg, s, m, call, key) || Ballots(cfg, s, m, call, key) ==>
              call == Approve(ToApply, key.role, key.address) && m.amount == 0
    ensures Opposes(s, m, call, key) || Expels(cfg, s, m, call, key) ==>
              call == Approve(ToAbolish, key.role, key.address) && m.amount == 0
    ensures Reports(cfg, s, m, call, key) ==> call == Abolish(key.role, key.address) && m.amount == 0
    ensures Withdraws(cfg, s, m, call, key) || CollectsExit(s, m, call, key) ==>
              call == Withdraw(key.role) && key.address == m.sender && m.amount == 0
    ensures Cleans(s, m, call, ToApply, key) ==> call == Clean(ToApply, key.role, key.address) && m.amount == 0
    ensures Cleans(s, m, call, ToWithdraw, key) ==> call == Clean(ToWithdraw, key.role, key.address) && m.amount == 0
    ensures Cleans(s, m, call, ToAbolish, key) ==> call == Clean(ToAbolish, key.role, key.address) && m.amount == 0
    ensures Renodes(s, m, call, key) ==> call.SetNodeAddress? && key == Key(Validator, m.sender) && m.amount == 0
    ensures Reterms(s, m, call, key) ==> call.SetVoteDividend? && key == Key(call.role, m.sender) && m.amount == 0
  {
    hide Enough, CanJoin, CanSettle, Listed, CanRise;
  }

  lemma VoteKinds(cfg: Config, s: State, m: Msg, call: Call, key: VoteKey)
    ensures CastsVote(cfg, s, m, call, key) ==> call == CastVote(key.role, key.candidate) && key.voter == m.sender
    ensures TakesVoteBack(cfg, s, m, call, key) ==>
              call == UnVote(key.role, key.candidate) && key.voter == m.sender && m.amount == 0
  {
    hide CanSettle, Listed, CanRise, Displaces;
  }

  predicate FilesAre(cfg: Config, s: State, m: Msg, call: Call, s': State, key: Key)
  {
    && Lookup(s'.applications, key) == ApplicationAfter(cfg, s, m, call, key)
    && Lookup(s'.abolitions, key) == ReportAfter(cfg, s, m, call, key)
    && Lookup(s'.exits, key) == ExitAfter(cfg, s, m, call, key)
  }

  predicate RecordsAre(cfg: Config, s: State, m: Msg, call: Call, s': State, key: Key, vote: VoteKey)
  {
    && FilesAre(cfg, s, m, call, s', key)
    && Lookup(s'.votes, vote) == VoteAfter(cfg, s, m, call, vote)
    && multiset(s'.committee) == CommitteeAfter(cfg, s, m, call)
  }

  lemma ApplyRecords(cfg: Config, s: State, m: Msg, call: Call, key: Key, vote: VoteKey)
    requires call.Apply?
    ensures var r := DoApply(cfg, Prepared(s, m.amount), m, call.role, call.pool, call.ratio, call.node);
            RecordsAre(cfg, s, m, call, After(s, r), key, vote)
  {
    hide DoApply, Applies, Adds, Passes, Ballots, Opposes, Expels, Reports, Withdraws, CollectsExit, Cleans, Renodes, Reterms,
         CastsVote, TakesVoteBack;
    ApplyExact(cfg, Prepared(s, m.amount), m, call);
    AppliesAlike(cfg, s, m, call, Key(call.role, m.sender));
    Kinds(cfg, s, m, call, key);
    Kinds(cfg, s, m, call, Key(Committee, m.sender));
    VoteKinds(cfg, s, m, call, vote);
  }

  lemma AppendRecords(cfg: Config, s: State, m: Msg, call: Call, key: Key, vote: VoteKey)
    requires call.Append? && Ready(Prepared(s, m.amount))
    ensures RecordsAre(cfg, s, m, call, After(s, DoAppend(cfg, Prepared(s, m.amount), m, call.role)), key, vote)
  {
    hide DoAppend, Applies, Adds, Passes, Ballots, Opposes, Expels, Reports, Withdraws, CollectsExit, Cleans, Renodes, Reterms,
         CastsVote, TakesVoteBack, ElectionOk;
    AppendExact(cfg, Prepared(s, m.amount), m, call);
    AddsAlike(cfg, s, m, call, Key(call.role, m.sender));
    Kinds(cfg, s, m, call, key);
    Kinds(cfg, s, m, call, Key(Committee, m.sender));
    VoteKinds(cfg, s, m, call, vote);
  }

  lemma SupportRecords(cfg: Config, s: State, m: Msg, call: Call, key: Key, vote: VoteKey)
    requires call.Approve? && call.motion.ToApply? && Ready(s) && m.amount == 0
    ensures RecordsAre(cfg, s, m, call, After(s, DoApprove(cfg, s, m, ToApply, call.role, call.address)), key, vote)
  {
    hide DoApprove, Applies, Adds, Opposes, Expels, Reports, Withdraws, CollectsExit, Cleans, Renodes, Reterms,
         CastsVote, TakesVoteBack, ElectionOk, Supports, Enough, CanJoin, Passes, Ballots;
    var its := Key(call.role, call.address);
    SupportExact(cfg, s, m, its);
    BallotFacts(cfg, s, m, call, its);
    Kinds(cfg, s, m, call, key);
    Kinds(cfg, s, m, call, its);
    Kinds(cfg, s, m, call, Key(Committee, m.sender));
    VoteKinds(cfg, s, m, call, vote);
  }

  lemma BallotFacts(cfg: Config, s: State, m: Msg, call: Call, key: Key)
    ensures Passes(cfg, s, m, call, key) ==> Ballots(cfg, s, m, call, key)
    ensures Ballots(cfg, s, m, call, key) ==> key in s.applications && !s.applications[key].passed
  {
    hide Enough, CanJoin;
  }

  lemma OpposeFiles(cfg: Config, s: State, m: Msg, call: Call, key: Key)
    requires call.Approve? && call.motion.ToAbolish? && Ready(s) && m.amount == 0
    ensures FilesAre(cfg, s, m, call, After(s, DoApprove(cfg, s, m, ToAbolish, call.role, call.address)), key)
  {
    hide DoApprove, Applies, Adds, Passes, Ballots, Reports, Withdraws, CollectsExit, Cleans, Renodes, Reterms,
         ElectionOk, Enough, RemoveFirst, Expels, Opposes;
    var its := Key(call.role, call.address);
    OpposeExact(cfg, s, m, its);
    ExpelFacts(cfg, s, m, call, its);
    Kinds(cfg, s, m, call, key);
  }

  lemma OpposeRecords(cfg: Config, s: State, m: Msg, call: Call, key: Key, vote: VoteKey)
    requires call.Approve? && call.motion.ToAbolish? && Ready(s) && m.amount == 0
    ensures RecordsAre(cfg, s, m, call, After(s, DoApprove(cfg, s, m, ToAbolish, call.role, call.address)), key, vote)
  {
    hide DoApprove, Applies, Adds, Passes, Ballots, Reports, Withdraws, CollectsExit, Cleans, Renodes, Reterms,
         ElectionOk, Enough, RemoveFirst, Expels, Opposes, FilesAre;
    OpposeFiles(cfg, s, m, call, key);
    hide CastsVote, TakesVoteBack;
    OpposeExact(cfg, s, m, Key(call.role, call.address));
    RemovedOnce(s.committee, call.address);
    Kinds(cfg, s, m, call, Key(call.role, call.address));
    Kinds(cfg, s, m, call, Key(Committee, m.sender));
    VoteKinds(cfg, s, m, call, vote);
  }

  lemma ExpelFacts(cfg: Config, s: State, m: Msg, call: Call, key: Key)
    ensures Expels(cfg, s, m, call, key) ==> Opposes(s, m, call, key)
    ensures Opposes(s, m, call, key) ==> key in s.abolitions
  {
    hide Enough, CanSettle, Listed;
  }

  lemma VoteRecords(cfg: Config, s: State, m: Msg, call: Call, key: Key, vote: VoteKey)
    requires call.CastVote? && Ready(Prepared(s, m.amount))
    ensures RecordsAre(cfg, s, m, call, After(s, DoVote(cfg, Prepared(s, m.amount), m, call.role, call.address)), key, vote)
  {
    hide DoVote, Applies, Adds, Passes, Ballots, Opposes, Expels, Reports, Withdraws, CollectsExit, Cleans, Renodes, Reterms,
         CastsVote, TakesVoteBack, ElectionOk;
    VoteExact(cfg, Prepared(s, m.amount), m, call.role, call.address);
    CastsAlike(cfg, s, m, call, VoteKey(m.sender, call.role, call.address));
    Kinds(cfg, s, m, call, key);
    Kinds(cfg, s, m, call, Key(Committee, m.sender));
    VoteKinds(cfg, s, m, call, vote);
  }

  lemma UnVoteRecords(cfg: Config, s: State, m: Msg, call: Call, key: Key, vote: VoteKey)
    requires call.UnVote? && Ready(s) && Solvent(s) && m.amount == 0
    ensures RecordsAre(cfg, s, m, call, After(s, DoUnVote(cfg, s, m, call.role, call.address)), key, vote)
  {
    hide DoUnVote, Applies, Adds, Passes, Ballots, Opposes, Expels, Reports, Withdraws, CollectsExit, Cleans, Renodes, Reterms,
         CastsVote, TakesVoteBack, ElectionOk, Covers;
    UnVoteExact(cfg, s, m, call.role, call.address);
    Kinds(cfg, s, m, call, key);
    Kinds(cfg, s, m, call, Key(Committee, m.sender));
    VoteKinds(cfg, s, m, call, vote);
  }

  lemma ReportRecords(cfg: Config, s: State, m: Msg, call: Call, key: Key, vote: VoteKey)
    requires call.Abolish? && m.amount == 0
    ensures RecordsAre(cfg, s, m, call, After(s, DoAbolish(cfg, s, m, call.role, call.address)), key, vote)
  {
    hide DoAbolish, Applies, Adds, Passes, Ballots, Opposes, Expels, Reports, Withdraws, CollectsExit, Cleans, Renodes, Reterms,
         CastsVote, TakesVoteBack;
    ReportExact(cfg, s, m, Key(call.role, call.address));
    Kinds(cfg, s, m, call, key);
    Kinds(cfg, s, m, call, Key(Committee, m.sender));
    VoteKinds(cfg, s, m, call, vote);
  }

  lemma WithdrawFiles(cfg: Config, s: State, m: Msg, call: Call, key: Key)
    requires call.Withdraw? && Ready(s) && Solvent(s) && m.amount == 0
    ensures FilesAre(cfg, s, m, call, After(s, DoWithdraw(cfg, s, m, call.role)), key)
  {
    hide DoWithdraw, Applies, Adds, Passes, Ballots, Opposes, Expels, Reports, Cleans, Renodes, Reterms, Withdraws, CollectsExit,
         ElectionOk, Covers, CanSettle, Listed, RemoveFirst;
    WithdrawExact(cfg, s, m, call.role);
    WithdrawFacts(cfg, s, m, call, key);
    Kinds(cfg, s, m, call, key);
  }

  lemma WithdrawRecords(cfg: Config, s: State, m: Msg, call: Call, key: Key, vote: VoteKey)
    requires call.Withdraw? && Ready(s) && Solvent(s) && m.amount == 0
    ensures RecordsAre(cfg, s, m, call, After(s, DoWithdraw(cfg, s, m, call.role)), key, vote)
  {
    hide DoWithdraw, Applies, Adds, Passes, Ballots, Opposes, Expels, Reports, Cleans, Renodes, Reterms, Withdraws, CollectsExit,
         ElectionOk, Covers, CanSettle, Listed, RemoveFirst, FilesAre;
    WithdrawFiles(cfg, s, m, call, key);
    hide CastsVote, TakesVoteBack;
    WithdrawExact(cfg, s, m, call.role);
    RemovedOnce(s.committee, m.sender);
    Kinds(cfg, s, m, call, Key(Committee, m.sender));
    VoteKinds(cfg, s, m, call, vote);
  }

  lemma WithdrawFacts(cfg: Config, s: State, m: Msg, call: Call, key: Key)
    ensures Withdraws(cfg, s, m, call, key) && !key.role.Committee? ==> key in s.applications && key !in s.exits
    ensures CollectsExit(s, m, call, key) ==> !key.role.Committee? && key in s.exits
  {
    hide CanSettle, Listed;
  }

  lemma CleanFiles(cfg: Config, s: State, m: Msg, call: Call, key: Key)
    requires call.Clean? && Solvent(s) && m.amount == 0
    ensures FilesAre(cfg, s, m, call, After(s, DoClean(s, m, call.motion, call.role, call.address)), key)
  {
    hide DoClean, Applies, Adds, Passes, Ballots, Opposes, Expels, Reports, Withdraws, CollectsExit, Cleans, Renodes, Reterms,
         Covers;
    CleanExact(s, m, call.motion, Key(call.role, call.address));
    Kinds(cfg, s, m, call, key);
  }

  lemma CleanRecords(cfg: Config, s: State, m: Msg, call: Call, key: Key, vote: VoteKey)
    requires call.Clean? && Solvent(s) && m.amount == 0
    ensures RecordsAre(cfg, s, m, call, After(s, DoClean(s, m, call.motion, call.role, call.address)), key, vote)
  {
    hide DoClean, Applies, Adds, Passes, Ballots, Opposes, Expels, Reports, Withdraws, CollectsExit, Cleans, Renodes, Reterms,
         Covers, FilesAre;
    CleanFiles(cfg, s, m, call, key);
    hide CastsVote, TakesVoteBack;
    CleanExact(s, m, call.motion, Key(call.role, call.address));
    Kinds(cfg, s, m, call, Key(Committee, m.sender));
    VoteKinds(cfg, s, m, call, vote);
  }

  lemma NodeRecords(cfg: Config, s: State, m: Msg, call: Call, key: Key, vote: VoteKey)
    requires call.SetNodeAddress? && m.amount == 0
    ensures RecordsAre(cfg, s, m, call, After(s, DoSetNodeAddress(cfg, s, m, call.node)), key, vote)
  {
    hide DoSetNodeAddress, Applies, Adds, Passes, Ballots, Opposes, Expels, Reports, Withdraws, CollectsExit, Cleans, Reterms,
         CastsVote, TakesVoteBack;
    NodeExact(cfg, s, m, call.node);
    Kinds(cfg, s, m, call, key);
    Kinds(cfg, s, m, call, Key(Committee, m.sender));
    VoteKinds(cfg, s, m, call, vote);
  }

  lemma TermsRecords(cfg: Config, s: State, m: Msg, call: Call, key: Key, vote: VoteKey)
    requires call.SetVoteDividend? && m.amount == 0
    ensures RecordsAre(cfg, s, m, call, After(s, DoSetVoteDividend(s, m, call.role, call.newPool, call.newRatio)), key, vote)
  {
    hide DoSetVoteDividend, Applies, Adds, Passes, Ballots, Opposes, Expels, Reports, Withdraws, CollectsExit, Cleans, Renodes,
         CastsVote, TakesVoteBack;
    TermsExact(s, m, call);
    Kinds(cfg, s, m, call, key);
    Kinds(cfg, s, m, call, Key(Committee, m.sender));
    VoteKinds(cfg, s, m, call, vote);
  }

  /** A call that leaves all records as they were, and is of none of those kinds. */
  lemma NoRecords(cfg: Config, s: State, m: Msg, call: Call, s': State, key: Key, vote: VoteKey)
    requires SameRegister(s, s')
    requires call.Extract? || (m.amount != 0 && !TakesCoins(call)) || (call.Approve? && call.motion.ToWithdraw?)
    ensures RecordsAre(cfg, s, m, call, s', key, vote)
  {
    hide Applies, Adds, Passes, Ballots, Opposes, Expels, Reports, Withdraws, CollectsExit, Cleans, Renodes, Reterms,
         CastsVote, TakesVoteBack;
    Kinds(cfg, s, m, call, key);
    Kinds(cfg, s, m, call, Key(Committee, m.sender));
    if call.Approve? { Kinds(cfg, s, m, call, Key(Committee, call.address)); }
    VoteKinds(cfg, s, m, call, vote);
  }

  /** All five kinds of records change by the calls named above and by nothing else, exactly as
      said; a call that is refused changes none. */
  lemma RecordsChange(cfg: Config, s: State, m: Msg, call: Call, key: Key, vote: VoteKey)
    requires Solvent(s) && ElectionOk(s) && s.balance >= s.allStake
    ensures RecordsAre(cfg, s, m, call, Step(cfg, s, Called(m, call)), key, vote)
  {
    PreparedReady(s, m.amount);
    hide Covers, Ready, ElectionOk, RecordsAre, DoApply, DoAppend, DoVote, DoApprove, DoUnVote, DoAbolish, DoWithdraw, DoExtract,
         DoSetNodeAddress, DoSetVoteDividend, DoClean;
    if m.amount != 0 && !TakesCoins(call) {
      NoRecords(cfg, s, m, call, s, key, vote);
    } else if call.Apply? {
      ApplyRecords(cfg, s, m, call, key, vote);
    } else if call.Append? {
      AppendRecords(cfg, s, m, call, key, vote);
    } else if call.CastVote? {
      VoteRecords(cfg, s, m, call, key, vote);
    } else {
      FreeRecords(cfg, s, m, call, key, vote);
    }
  }

  lemma FreeRecords(cfg: Config, s: State, m: Msg, call: Call, key: Key, vote: VoteKey)
    requires !TakesCoins(call) && m.amount == 0 && Ready(s) && Solvent(s)
    ensures RecordsAre(cfg, s, m, call, After(s, Dispatch(cfg, s, m, call)), key, vote)
  {
    hide Covers, ElectionOk, RecordsAre, DoApply, DoAppend, DoApprove, DoVote, DoUnVote, DoAbolish, DoWithdraw, DoExtract,
         DoSetNodeAddress, DoSetVoteDividend, DoClean, After;
    match call
    case Approve(_, _, _) => ApproveRecords(cfg, s, m, call, key, vote);
    case UnVote(_, _) => UnVoteRecords(cfg, s, m, call, key, vote);
    case Abolish(_, _) => ReportRecords(cfg, s, m, call, key, vote);
    case Withdraw(_) => WithdrawRecords(cfg, s, m, call, key, vote);
    case Extract(list) => ExtractRecords(cfg, s, m, call, key, vote);
    case SetNodeAddress(_) => NodeRecords(cfg, s, m, call, key, vote);
    case SetVoteDividend(_, _, _) => TermsRecords(cfg, s, m, call, key, vote);
    case Clean(_, _, _) => CleanRecords(cfg, s, m, call, key, vote);
  }

  lemma ApproveRecords(cfg: Config, s: State, m: Msg, call: Call, key: Key, vote: VoteKey)
    requires call.Approve? && Ready(s) && m.amount == 0
    ensures RecordsAre(cfg, s, m, call, After(s, DoApprove(cfg, s, m, call.motion, call.role, call.address)), key, vote)
  {
    hide ElectionOk, RecordsAre, DoApprove;
    match call.motion
    case ToApply => SupportRecords(cfg, s, m, call, key, vote);
    case ToAbolish => OpposeRecords(cfg, s, m, call, key, vote);
    case ToWithdraw =>
      NotApprovable(cfg, s, m, call.role, call.address);
      NoRecords(cfg, s, m, call, s, key, vote);
  }

  lemma ExtractRecords(cfg: Config, s: State, m: Msg, call: Call, key: Key, vote: VoteKey)
    requires call.Extract? && s.balance >= s.allStake
    ensures RecordsAre(cfg, s, m, call, After(s, DoExtract(cfg, s, m, call.list)), key, vote)
  {
    hide RecordsAre, DoExtract;
    if DoExtract(cfg, s, m, call.list).Some? { ExtractRegister(cfg, s, m, call.list); }
    NoRecords(cfg, s, m, call, After(s, DoExtract(cfg, s, m, call.list)), key, vote);
  }

  lemma NotApprovable(cfg: Config, s: State, m: Msg, role: Role, address: Address)
    requires s.balance >= s.allStake
    ensures DoApprove(cfg, s, m, ToWithdraw, role, address) == None
  {
    hide AddCandidate, DeleteCandidate, Penalty, RemoveFirst, Carried;
  }

  // ---- The configuration ----

  /** What is configured under an item; the items the contract itself does not read have none. */
  function Setting(cfg: Config, item: Item): seq<real>
  {
    match item
    case PassRate => [cfg.passRate]
    case RewardShares => [cfg.validatorShare, cfg.validatorCandidateShare, cfg.kolShare, cfg.kolCandidateShare]
    case LogicContract => []
    case Numeric(number) =>
      match number
      case CommitteeSize => [cfg.committeeSize as real]
      case KolSize => [cfg.kolSize as real]
      case KolCandidateSize => [cfg.kolCandidateSize as real]
      case KolMinPledge => [cfg.kolMinPledge as real]
      case ValidatorSize => [cfg.validatorSize as real]
      case ValidatorCandidateSize => [cfg.validatorCandidateSize as real]
      case ValidatorMinPledge => [cfg.validatorMinPledge as real]
      case PledgeMagnification => [cfg.magnification as real]
      case ValidPeriod => [cfg.validPeriod as real]
      case VoteUnit => [cfg.voteUnit as real]
      case GasPrice => []
      case BaseReserve => []
  }

  /** What a change asks for. */
  function Asked(c: RawChange): seq<real>
  {
    match c
    case SetNumber(number, n) => if number.GasPrice? || number.BaseReserve? then [] else [n as real]
    case SetPassRate(rate) => [rate]
    case SetShares(a, b, c, d) => [a, b, c, d]
    case SetLogicContract(_) => []
  }

  /** A change sets its own item and no other. */
  lemma ChangedSetting(cfg: Config, c: Change, item: Item)
    ensures Setting(Changed(cfg, c), item) == if item == ItemOf(c) then Asked(c) else Setting(cfg, item)
  {
    match c
    case SetNumber(number, n) => NumberSetting(cfg, number, n, item);
    case SetPassRate(_) =>
    case SetShares(_, _, _, _) =>
    case SetLogicContract(_) =>
  }

  lemma NumberSetting(cfg: Config, number: Number, n: nat, item: Item)
    requires n > 0
    ensures Setting(WithNumber(cfg, number, n), item)
            == if item == Numeric(number) then Asked(SetNumber(number, n)) else Setting(cfg, item)
  {
  }

  /** A proposal is filed under the item it changes, with its proposer's ballot first. */
  ghost predicate Filed(w: World)
  {
    forall key :: key in w.proposals ==>
      ItemOf(w.proposals[key].change) == key.item && w.proposals[key].ballot != [] && w.proposals[key].ballot[0] == key.proposer
  }

  lemma ProceedFiled(w: World, a: Action)
    requires w.s.balance >= w.s.allStake && Filed(w)
    ensures Filed(Proceed(w, a))
  {
    hide Carried, Changed, Step, CfgValid;
  }

  /** A member proposes something valid, and not the number that is proposed already. */
  predicate Proposes(w: World, a: Action, key: ChangeKey)
  {
    && a.Configure? && key == ChangeKey(ItemOf(a.change), a.m.sender) && Member(w.s, a.m)
    && (match a.change
        case SetNumber(_, n) => n > 0
        case SetPassRate(rate) => 0.0 < rate && rate <= 1.0
        case SetShares(v, r, k, b) => v + r + k + b == 100.0
        case SetLogicContract(_) => true)
    && (key in w.proposals && w.proposals[key].change == a.change ==> a.change.SetShares?)
  }

  /** A member's first ballot on an open proposal. */
  predicate Backs(w: World, a: Action, key: ChangeKey)
  {
    && a.ApproveChange? && key == a.key && Member(w.s, a.m) && key in w.proposals
    && a.m.time < w.proposals[key].expiration && a.m.sender !in w.proposals[key].ballot
  }

  predicate Carries(w: World, a: Action, key: ChangeKey)
  {
    Backs(w, a, key) && Enough(w.cfg, w.s, |w.proposals[key].ballot| + 1)
  }

  /** Anyone may clear away a proposal that is over. */
  predicate Drops(w: World, a: Action, key: ChangeKey)
  {
    && a.CleanChange? && key == a.key && a.m.amount == 0 && a.m.wellFormed && key in w.proposals
    && a.m.time >= w.proposals[key].expiration
  }

  /** What becomes of a proposal. */
  function ProposalAfter(w: World, a: Action, key: ChangeKey): Option<Proposal>
  {
    if Proposes(w, a, key) then Some(Proposal(a.change, a.m.time + w.cfg.validPeriod, [a.m.sender]))
    else if key !in w.proposals || Carries(w, a, key) || Drops(w, a, key) then None
    else if Backs(w, a, key) then Some(w.proposals[key].(ballot := w.proposals[key].ballot + [a.m.sender]))
    else Some(w.proposals[key])
  }

  /** What becomes of a setting. */
  function SettingAfter(w: World, a: Action, item: Item): seq<real>
  {
    if a.ApproveChange? && a.key.item == item && Carries(w, a, a.key) then Asked(w.proposals[a.key].change)
    else Setting(w.cfg, item)
  }

  /** Proposals and settings change by a member's proposal, by the ballots of members and by the
      clearing of what is over, exactly as said, and by nothing else. */
  lemma SettingsChange(w: World, a: Action, key: ChangeKey, item: Item)
    requires w.s.balance >= w.s.allStake && Filed(w)
    ensures Lookup(Proceed(w, a).proposals, key) == ProposalAfter(w, a, key)
    ensures Setting(Proceed(w, a).cfg, item) == SettingAfter(w, a, item)
  {
    hide Enough, Carried, Changed, Setting, Asked, Step;
    match a
    case Ordinary(_) =>
    case Configure(_, _) =>
    case ApproveChange(_, its) =>
      if its in w.proposals {
        EnoughIsCarried(w.cfg, w.s, |w.proposals[its].ballot| + 1);
        ChangedSetting(w.cfg, w.proposals[its].change, item);
      }
    case CleanChange(_, _) =>
  }

  // ---- Runs ----

  predicate PassedAt(s: State, key: Key)
  {
    key in s.applications && s.applications[key].passed
  }

  /** The action is the ballot that carries the application. */
  predicate CarriesAt(w: World, a: Action, key: Key)
  {
    a.Ordinary? && a.ev.Called? && Passes(w.cfg, w.s, a.ev.m, a.ev.call, key)
  }

  lemma PassingNeedsVote(w: World, a: Action, key: Key)
    requires WorldOk(w) && w.s.balance >= w.s.allStake && !PassedAt(w.s, key) && PassedAt(Proceed(w, a).s, key)
    ensures CarriesAt(w, a, key)
  {
    if a.Ordinary? {
      if a.ev.Called? {
        var vote := VoteKey(key.address, key.role, key.address);
        PassesAfter(w.cfg, w.s, a.ev.m, a.ev.call, key);
        hide ElectionOk, Covers, Step, Passes, ApplicationAfter;
        RecordsChange(w.cfg, w.s, a.ev.m, a.ev.call, key, vote);
      }
    } else {
      hide ElectionOk, Covers, Step, DoConfigure, DoApproveChange, DoCleanChange;
      OtherState(w, a);
    }
  }

  lemma OtherState(w: World, a: Action)
    requires !a.Ordinary? && w.s.balance >= w.s.allStake
    ensures Proceed(w, a).s == w.s
  {
    hide Carried, Changed, CfgValid;
  }

  lemma PassesAfter(cfg: Config, s: State, m: Msg, call: Call, key: Key)
    ensures var r := ApplicationAfter(cfg, s, m, call, key);
            r.Some? && r.value.passed ==> PassedAt(s, key) || Passes(cfg, s, m, call, key)
  {
    hide Applies, Adds, Passes, Ballots, Withdraws, Cleans, Expels, Reterms, Renodes;
    Kinds(cfg, s, m, call, key);
  }

  lemma RunSize(cfg: Config, g: Genesis, run: seq<World>, acts: seq<Action>)
    requires IsRun(cfg, g, run, acts)
    ensures |run| == |acts| + 1
  {
    hide Proceed, GenesisOk, Init;
  }

  /** Nobody passes without a vote: between two states of a run an application comes to be passed
      only by a member's ballot that carried it, with more than the pass rate's part of the
      committee. */
  lemma {:induction false} PassedOnlyByVote(
      cfg: Config, g: Genesis, run: seq<World>, acts: seq<Action>, t: nat, u: nat, key: Key) returns (v: nat)
    requires IsRun(cfg, g, run, acts) && t <= u < |run| && !PassedAt(run[t].s, key) && PassedAt(run[u].s, key)
    ensures t <= v < u && CarriesAt(run[v], acts[v], key)
    decreases u
  {
    hide IsRun, Proceed, CarriesAt, PassedAt, WorldOk;
    RunSize(cfg, g, run, acts);
    RunOk(cfg, g, run, acts, u - 1);
    if PassedAt(run[u - 1].s, key) {
      v := PassedOnlyByVote(cfg, g, run, acts, t, u - 1, key);
    } else {
      v := u - 1;
      PassingNeedsVote(run[v], acts[v], key);
    }
  }

  /** The action is the ballot that carries a change of the item. */
  predicate SetsAt(w: World, a: Action, item: Item)
  {
    a.ApproveChange? && a.key.item == item && Carries(w, a, a.key)
  }

  lemma {:induction false} AlwaysFiled(cfg: Config, g: Genesis, run: seq<World>, acts: seq<Action>, t: nat)
    requires IsRun(cfg, g, run, acts) && t < |run|
    ensures Filed(run[t])
  {
    if t > 0 {
      AlwaysFiled(cfg, g, run, acts, t - 1);
      hide Proceed, Filed, IsRun, ElectionOk, Covers;
      RunOk(cfg, g, run, acts, t - 1);
      ProceedFiled(run[t - 1], acts[t - 1]);
    }
  }

  /** Nothing is reconfigured without a vote: between two states of a run a setting changes only by
      ballots that carried a change of that item. */
  lemma {:induction false} SetOnlyByVote(
      cfg: Config, g: Genesis, run: seq<World>, acts: seq<Action>, t: nat, u: nat, item: Item) returns (v: nat)
    requires IsRun(cfg, g, run, acts) && t <= u < |run| && Setting(run[t].cfg, item) != Setting(run[u].cfg, item)
    ensures t <= v < u && SetsAt(run[v], acts[v], item)
    decreases u
  {
    hide IsRun, Proceed, Setting, Carries, Filed, Asked, WorldOk, ProposalAfter;
    RunSize(cfg, g, run, acts);
    RunOk(cfg, g, run, acts, u - 1);
    AlwaysFiled(cfg, g, run, acts, u - 1);
    if Setting(run[t].cfg, item) != Setting(run[u - 1].cfg, item) {
      v := SetOnlyByVote(cfg, g, run, acts, t, u - 1, item);
    } else {
      v := u - 1;
      SettingsChange(run[v], acts[v], ChangeKey(item, ""), item);
    }
  }
}
