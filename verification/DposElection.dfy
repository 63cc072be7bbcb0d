/** The published validators: after every call they are the first places of the candidate list,
    although most calls do not recompute them. */
module DposElection {
  import opened Options
  import opened Ranking
  import opened Dpos
  import opened DposSolvency

  /** A stored list: in ranking order, no address twice, every candidate with an entry in the
      reward distribution. */
  predicate ListOk(cs: seq<Candidate>, dist: Dist)
  {
    Ranked(cs) && UniqueAddresses(cs) && Addresses(cs) <= dist.Keys
  }

  /** Every candidate has an application that passed. */
  predicate Backed(apps: map<Key, Application>, role: Role, cs: seq<Candidate>)
  {
    forall a :: a in Addresses(cs) ==> Key(role, a) in apps && apps[Key(role, a)].passed
  }

  /** The nodes last handed to `setValidators` are those of the first places. */
  predicate Current(cfg: Config, s: State)
  {
    multiset(s.published) == TopData(s.valCands, cfg.validatorSize)
  }

  predicate Shape(s: State)
  {
    ListOk(s.valCands, s.valDist) && ListOk(s.kolCands, s.kolDist)
  }

  predicate BothBacked(s: State)
  {
    Backed(s.applications, Validator, s.valCands) && Backed(s.applications, Kol, s.kolCands)
  }

  predicate ElectionOk(s: State)
  {
    Shape(s) && BothBacked(s)
  }

  predicate StaysCurrent(cfg: Config, s: State, s': State)
  {
    Current(cfg, s) ==> Current(cfg, s')
  }

  /** Lists in order, and the published nodes current if they were. */
  predicate KeepsElection(cfg: Config, s: State, s': State)
  {
    ElectionOk(s') && StaysCurrent(cfg, s, s')
  }

  // ---- Rewards leave the lists alone ----

  predicate SameLists(s: State, s': State)
  {
    && s'.valCands == s.valCands && s'.kolCands == s.kolCands && s'.published == s.published
    && s'.applications == s.applications
  }

  predicate SameEntries(s: State, s': State)
  {
    s'.valDist.Keys == s.valDist.Keys && s'.kolDist.Keys == s.kolDist.Keys
  }

  lemma RewardDistributionKeeps(cfg: Config, s: State, validators: seq<Candidate>, kols: seq<Candidate>)
    requires s.balance >= s.allStake && RewardDistribution(cfg, s, validators, kols).Some?
    ensures var s' := RewardDistribution(cfg, s, validators, kols).value;
            SameLists(s, s') && SameEntries(s, s') && s'.balance == s.balance
  {
    hide Calculate;
  }

  lemma SameShape(cfg: Config, s: State, s': State)
    requires Shape(s) && SameLists(s, s') && SameEntries(s, s')
    ensures Shape(s') && StaysCurrent(cfg, s, s')
  {
    hide Ranked, UniqueAddresses, TopData;
  }

  // ---- The three list operations ----

  lemma PublishShape(cfg: Config, s: State)
    requires ListOk(s.valCands, s.valDist) && ListOk(s.kolCands, s.kolDist)
    ensures Shape(Publish(cfg, s)) && Current(cfg, Publish(cfg, s))
  {
    hide ListOk;
  }

  /** One list replaced. Either the validators are published again, or what the first places
      store has not changed. */
  lemma WithCandsShape(cfg: Config, s: State, role: Role, cs: seq<Candidate>)
    requires Shape(s) && ListOk(cs, DistOf(s, role))
    requires role.Validator? ==> TopData(cs, cfg.validatorSize) == TopData(s.valCands, cfg.validatorSize)
    ensures Shape(WithCands(s, role, cs)) && StaysCurrent(cfg, s, WithCands(s, role, cs))
  {
    hide ListOk, TopData;
  }

  lemma ListShape(s: State, role: Role)
    requires Shape(s)
    ensures ListOk(Cands(s, role), DistOf(s, role)) && ListOk(s.valCands, s.valDist) && ListOk(s.kolCands, s.kolDist)
  {
  }

  lemma ChangedList(cs: seq<Candidate>, p: nat, amount: int, dist: Dist, k: nat)
    requires ListOk(cs, dist) && p < |cs|
    ensures var r := Sort(cs[p := cs[p].(stake := cs[p].stake + amount)]);
            && ListOk(r, dist) && Addresses(r) == Addresses(cs)
            && ((p < k <==> Position(r, cs[p].address) < k) ==> TopData(r, k) == TopData(cs, k))
  {
    hide Ranked, UniqueAddresses, Addresses, TopData, Sort, Position;
    ChangeKeeps(cs, p, cs[p].(stake := cs[p].stake + amount), k);
  }

  /** Settled rewards and, for a validator, the first places published again. */
  lemma CrossedShape(cfg: Config, s1: State, role: Role, s2: State)
    requires SameLists(s1, s2) && SameEntries(s1, s2) && ListOk(s1.valCands, s1.valDist) && ListOk(s1.kolCands, s1.kolDist)
    ensures var s3 := if role.Validator? then Publish(cfg, s2) else s2;
            Shape(s3) && if role.Validator? then Current(cfg, s3) else StaysCurrent(cfg, s1, s3)
  {
    hide ListOk, Top;
    if role.Validator? {
      ListKeys(s1, s2);
      PublishShape(cfg, s2);
    } else {
      SameShape(cfg, s1, s2);
    }
  }

  lemma UpdateStakeShape(cfg: Config, s: State, role: Role, p: nat, amount: int)
    requires s.balance >= s.allStake && Shape(s) && p < |Cands(s, role)|
    requires UpdateStake(cfg, s, role, p, amount).Some?
    ensures var s' := UpdateStake(cfg, s, role, p, amount).value;
            && Shape(s') && StaysCurrent(cfg, s, s') && s'.applications == s.applications
            && Addresses(s'.valCands) == Addresses(s.valCands) && Addresses(s'.kolCands) == Addresses(s.kolCands)
  {
    hide Shape, ListOk, Sort, Position, RewardDistribution, TopData, Addresses, Top;
    var cs := Cands(s, role);
    var k := FormalSize(cfg, role);
    ListShape(s, role);
    ChangedList(cs, p, amount, DistOf(s, role), k);
    var sorted := Sort(cs[p := cs[p].(stake := cs[p].stake + amount)]);
    var s1 := WithCands(s, role, sorted);
    if !role.Validator? || (p < k <==> Position(sorted, cs[p].address) < k) {
      WithCandsShape(cfg, s, role, sorted);
    }
    if !(p < k <==> Position(sorted, cs[p].address) < k) {
      var (validators, kols) := Formal(cfg, s);
      RewardDistributionKeeps(cfg, s1, validators, kols);
      CrossedShape(cfg, s1, role, RewardDistribution(cfg, s1, validators, kols).value);
    }
  }

  lemma ListKeys(s: State, s': State)
    requires SameLists(s, s') && SameEntries(s, s') && ListOk(s.valCands, s.valDist) && ListOk(s.kolCands, s.kolDist)
    ensures ListOk(s'.valCands, s'.valDist) && ListOk(s'.kolCands, s'.kolDist)
  {
    hide Ranked, UniqueAddresses;
  }

  lemma DeleteCandidateShape(cfg: Config, s: State, role: Role, a: Address)
    requires s.balance >= s.allStake && Shape(s)
    requires DeleteCandidate(cfg, s, role, a).Some?
    ensures var s' := DeleteCandidate(cfg, s, role, a).value;
            && Shape(s') && StaysCurrent(cfg, s, s') && s'.applications == s.applications
            && Addresses(Cands(s', role)) == Addresses(Cands(s, role)) - {a}
            && (if role.Validator? then s'.kolCands == s.kolCands else s'.valCands == s.valCands)
  {
    var cs := Cands(s, role);
    var p := Position(cs, a);
    ListShape(s, role);
    ContainsIsMembership(cs, a);
    if p < |cs| {
      RemoveKeeps(cs, p, cfg.validatorSize);
      var r := Sort(Without(cs, p));
      assert ListOk(r, DistOf(s, role));
      hide Shape, ListOk, Sort, Position, RewardDistribution, TopData, Addresses, Top;
      var (validators, kols) := Formal(cfg, s);
      RewardDistributionKeeps(cfg, s, validators, kols);
      var s1 := RewardDistribution(cfg, s, validators, kols).value;
      var s2 := WithCands(s1, role, r);
      SameShape(cfg, s, s1);
      ListSmaller(cs, r, DistOf(s, role), DistOf(s1, role));
      if role.Validator? && p < cfg.validatorSize {
        ListShape(s1, role);
        PublishShape(cfg, s2);
      } else {
        WithCandsShape(cfg, s1, role, r);
      }
    }
  }

  lemma ListSmaller(cs: seq<Candidate>, r: seq<Candidate>, dist: Dist, dist': Dist)
    requires ListOk(r, dist) && dist'.Keys >= dist.Keys
    ensures ListOk(r, dist')
  {
    hide Ranked, UniqueAddresses;
  }

  lemma PushedList(cs: seq<Candidate>, c: Candidate, size: nat, k: nat, dist: Dist)
    requires ListOk(cs, dist) && c.address !in Addresses(cs)
    ensures var r := Top(Sort(cs + [c]), size);
            && Ranked(r) && UniqueAddresses(r)
            && Addresses(r) <= Addresses(cs) + {c.address} && Addresses(r) <= dist.Keys + {c.address}
            && (k <= Position(r, c.address) < |r| ==> TopData(r, k) == TopData(cs, k))
  {
    hide Ranked, UniqueAddresses, Addresses, TopData, Sort, Position, Top;
    PushKeeps(cs, c, size, k);
  }

  lemma AddCandidateShape(cfg: Config, s: State, role: Role, a: Address, app: Application)
    requires s.balance >= s.allStake && Shape(s) && a !in Addresses(Cands(s, role))
    requires AddCandidate(cfg, s, role, a, app).Some?
    ensures var s' := AddCandidate(cfg, s, role, a, app).value;
            && Shape(s') && StaysCurrent(cfg, s, s') && s'.applications == s.applications
            && Addresses(Cands(s', role)) <= Addresses(Cands(s, role)) + {a}
            && (if role.Validator? then s'.kolCands == s.kolCands else s'.valCands == s.valCands)
  {
    hide Shape, ListOk, Sort, Position, RewardDistribution, TopData, Addresses, Top, NodeTaken, Ranked, UniqueAddresses;
    var cs := Cands(s, role);
    var stake := app.pledge * cfg.magnification;
    var c := Entry(a, stake, if role.Validator? then app.node else "");
    ListShape(s, role);
    PushedList(cs, c, CandidateSize(cfg, role), cfg.validatorSize, DistOf(s, role));
    var kept := Top(Sort(cs + [c]), CandidateSize(cfg, role));
    if !(|cs| >= CandidateSize(cfg, role) && (cs == [] || stake <= cs[|cs| - 1].stake)) {
      var (validators, kols) := Formal(cfg, s);
      RewardDistributionKeeps(cfg, s, validators, kols);
      var s1 := RewardDistribution(cfg, s, validators, kols).value;
      SameShape(cfg, s, s1);
      var dist := DistOf(s1, role);
      var s2 := if a in dist then s1 else WithDist(s1, role, dist[a := Share(0, app.pool, app.ratio)]);
      MoreEntriesShape(cfg, s1, s2);
      AddedShape(cfg, s2, role, a, kept);
    }
  }

  lemma MoreEntriesShape(cfg: Config, s: State, s': State)
    requires Shape(s) && SameLists(s, s') && s.valDist.Keys <= s'.valDist.Keys && s.kolDist.Keys <= s'.kolDist.Keys
    ensures Shape(s') && StaysCurrent(cfg, s, s')
  {
    hide Ranked, UniqueAddresses, TopData;
  }

  lemma AddedShape(cfg: Config, s: State, role: Role, a: Address, kept: seq<Candidate>)
    requires Shape(s) && Ranked(kept) && UniqueAddresses(kept) && Addresses(kept) <= DistOf(s, role).Keys
    requires role.Validator? && cfg.validatorSize <= Position(kept, a) < |kept| ==>
               TopData(kept, cfg.validatorSize) == TopData(s.valCands, cfg.validatorSize)
    ensures var s3 := WithCands(s, role, kept);
            var p := Position(kept, a);
            var s4 := if role.Validator? && (p < cfg.validatorSize || p == |kept|) then Publish(cfg, s3) else s3;
            Shape(s4) && StaysCurrent(cfg, s, s4)
  {
    assert ListOk(kept, DistOf(s, role));
    ListShape(s, role);
    hide Shape, ListOk, Position, TopData, Addresses, Top;
    var p := Position(kept, a);
    if role.Validator? && (p < cfg.validatorSize || p == |kept|) {
      PublishShape(cfg, WithCands(s, role, kept));
    } else {
      WithCandsShape(cfg, s, role, kept);
    }
  }

  // ---- The calls ----

  /** Passed applications stay; those of the committee back no candidate. */
  predicate PassedKept(apps: map<Key, Application>, apps': map<Key, Application>)
  {
    forall k :: k in apps && !k.role.Committee? && apps[k].passed ==> k in apps' && apps'[k].passed
  }

  lemma KeepsOk(cfg: Config, s: State, s': State)
    requires ElectionOk(s)
    requires s'.valCands == s.valCands && s'.kolCands == s.kolCands && s'.published == s.published && SameEntries(s, s')
    requires PassedKept(s.applications, s'.applications)
    ensures KeepsElection(cfg, s, s')
  {
    hide Ranked, UniqueAddresses, TopData, Addresses;
  }

  /** Lists that lost candidates, or gained one with a passed application. */
  lemma BackedAgain(s: State, s': State)
    requires BothBacked(s) && PassedKept(s.applications, s'.applications)
    requires forall a :: a in Addresses(s'.valCands) ==>
               a in Addresses(s.valCands) || (Key(Validator, a) in s'.applications && s'.applications[Key(Validator, a)].passed)
    requires forall a :: a in Addresses(s'.kolCands) ==>
               a in Addresses(s.kolCands) || (Key(Kol, a) in s'.applications && s'.applications[Key(Kol, a)].passed)
    ensures BothBacked(s')
  {
    hide Addresses;
  }

  lemma PassInOk(cfg: Config, s: State, role: Role, a: Address, app: Application)
    requires s.balance >= s.allStake && ElectionOk(s) && !role.Committee? && a !in Addresses(Cands(s, role))
    requires Key(role, a) in s.applications && s.applications[Key(role, a)].passed
    requires AddCandidate(cfg, s, role, a, app).Some?
    ensures KeepsElection(cfg, s, AddCandidate(cfg, s, role, a, app).value)
  {
    hide Shape, BothBacked, AddCandidate, Addresses;
    AddCandidateShape(cfg, s, role, a, app);
    BackedAgain(s, AddCandidate(cfg, s, role, a, app).value);
  }

  lemma UpdateStakeOk(cfg: Config, s: State, role: Role, p: nat, amount: int)
    requires s.balance >= s.allStake && ElectionOk(s) && p < |Cands(s, role)|
    requires UpdateStake(cfg, s, role, p, amount).Some?
    ensures KeepsElection(cfg, s, UpdateStake(cfg, s, role, p, amount).value)
  {
    hide Shape, BothBacked, UpdateStake, Addresses;
    UpdateStakeShape(cfg, s, role, p, amount);
    BackedAgain(s, UpdateStake(cfg, s, role, p, amount).value);
  }

  lemma DoAppendOk(cfg: Config, s: State, m: Msg, role: Role)
    requires s.balance >= s.allStake && ElectionOk(s) && DoAppend(cfg, s, m, role).Some?
    ensures KeepsElection(cfg, s, DoAppend(cfg, s, m, role).value)
  {
    hide ElectionOk, Current, AddCandidate, UpdateStake, Position;
    var key := Key(role, m.sender);
    var a := s.applications[key];
    var a' := a.(pledge := a.pledge + m.amount);
    var s1 := s.(applications := s.applications[key := a']);
    KeepsOk(cfg, s, s1);
    if a.passed {
      var p := Position(Cands(s1, role), m.sender);
      if p == |Cands(s1, role)| {
        ContainsIsMembership(Cands(s1, role), m.sender);
        PassInOk(cfg, s1, role, m.sender, a');
      } else {
        UpdateStakeOk(cfg, s1, role, p, m.amount * cfg.magnification);
      }
    }
  }

  lemma DoVoteOk(cfg: Config, s: State, m: Msg, role: Role, address: Address)
    requires s.balance >= s.allStake && ElectionOk(s) && DoVote(cfg, s, m, role, address).Some?
    ensures KeepsElection(cfg, s, DoVote(cfg, s, m, role, address).value)
  {
    hide ElectionOk, Current, UpdateStake, Position;
    var key := VoteKey(m.sender, role, address);
    var s1 := s.(votes := s.votes[key := (if key in s.votes then s.votes[key] else 0) + m.amount]);
    KeepsOk(cfg, s, s1);
    UpdateStakeOk(cfg, s1, role, Position(Cands(s, role), address), m.amount);
  }

  lemma DoUnVoteOk(cfg: Config, s: State, m: Msg, role: Role, address: Address)
    requires s.balance >= s.allStake && ElectionOk(s) && DoUnVote(cfg, s, m, role, address).Some?
    ensures KeepsElection(cfg, s, DoUnVote(cfg, s, m, role, address).value)
  {
    hide ElectionOk, Current, UpdateStake, Position, Transfer;
    var key := VoteKey(m.sender, role, address);
    var s0 := s.(votes := s.votes - {key});
    var s1 := Transfer(s0, m.sender, s.votes[key]).value;
    KeepsOk(cfg, s, s1);
    var p := Position(Cands(s1, role), address);
    if p < |Cands(s1, role)| {
      UpdateStakeOk(cfg, s1, role, p, -s.votes[key]);
    }
  }

  /** Leaving the list and dropping the application go together, in either order. */
  lemma DeleteBacked(s: State, key: Key, s': State)
    requires BothBacked(s) && !key.role.Committee? && s'.applications == s.applications - {key}
    requires Addresses(Cands(s', key.role)) == Addresses(Cands(s, key.role)) - {key.address}
    requires if key.role.Validator? then s'.kolCands == s.kolCands else s'.valCands == s.valCands
    ensures BothBacked(s')
  {
    hide Addresses;
  }

  lemma LeaveListOk(cfg: Config, s: State, key: Key, e: Exit)
    requires s.balance >= s.allStake && ElectionOk(s) && !key.role.Committee?
    requires DeleteCandidate(cfg, s.(applications := s.applications - {key}), key.role, key.address).Some?
    ensures var s2 := DeleteCandidate(cfg, s.(applications := s.applications - {key}), key.role, key.address).value;
            KeepsElection(cfg, s, s2.(exits := s2.exits[key := e]))
  {
    var s1 := s.(applications := s.applications - {key});
    assert Shape(s1) by { hide ListOk, TopData; }
    hide Shape, BothBacked, DeleteCandidate, Addresses;
    DeleteCandidateShape(cfg, s1, key.role, key.address);
    var s2 := DeleteCandidate(cfg, s1, key.role, key.address).value;
    DeleteBacked(s, key, s2);
    KeepsOk(cfg, s2, s2.(exits := s2.exits[key := e]));
  }

  lemma DoWithdrawOk(cfg: Config, s: State, m: Msg, role: Role)
    requires s.balance >= s.allStake && ElectionOk(s) && DoWithdraw(cfg, s, m, role).Some?
    ensures KeepsElection(cfg, s, DoWithdraw(cfg, s, m, role).value)
  {
    hide ElectionOk, Current, DeleteCandidate, RemoveFirst;
    var key := Key(role, m.sender);
    if !role.Committee? && key !in s.exits && s.applications[key].passed {
      LeaveListOk(cfg, s, key, Exit(s.applications[key].pledge, m.time + cfg.validPeriod));
    } else {
      KeepsOk(cfg, s, DoWithdraw(cfg, s, m, role).value);
    }
  }

  lemma PenaltyOk(cfg: Config, s: State, key: Key)
    requires s.balance >= s.allStake && ElectionOk(s) && !key.role.Committee?
    requires DeleteCandidate(cfg, s, key.role, key.address).Some?
    requires Penalty(DeleteCandidate(cfg, s, key.role, key.address).value, key).Some?
    ensures KeepsElection(cfg, s, Penalty(DeleteCandidate(cfg, s, key.role, key.address).value, key).value)
  {
    hide Shape, BothBacked, DeleteCandidate, Addresses;
    DeleteCandidateShape(cfg, s, key.role, key.address);
    var s2 := DeleteCandidate(cfg, s, key.role, key.address).value;
    var s3 := Penalty(s2, key).value;
    assert s.applications - {key} == s3.applications;
    assert SameEntries(s2, s3) && s3.valCands == s2.valCands && s3.kolCands == s2.kolCands && s3.published == s2.published;
    DeleteBacked(s, key, s3);
    assert Shape(s3) by { ShapeOfLists(cfg, s2, s3); }
  }

  lemma ShapeOfLists(cfg: Config, s: State, s': State)
    requires Shape(s) && SameEntries(s, s')
    requires s'.valCands == s.valCands && s'.kolCands == s.kolCands && s'.published == s.published
    ensures Shape(s') && StaysCurrent(cfg, s, s')
  {
    hide Ranked, UniqueAddresses, TopData, Addresses;
  }

  lemma ApproveApplicationOk(cfg: Config, s: State, m: Msg, role: Role, address: Address)
    requires s.balance >= s.allStake && ElectionOk(s) && DoApprove(cfg, s, m, ToApply, role, address).Some?
    ensures KeepsElection(cfg, s, DoApprove(cfg, s, m, ToApply, role, address).value)
  {
    hide ElectionOk, Current, AddCandidate, Carried;
    var key := Key(role, address);
    var a := s.applications[key];
    var a' := a.(ballot := a.ballot + [m.sender]);
    var s1 := s.(applications := s.applications[key := a'.(passed := true)]);
    KeepsOk(cfg, s, s1);
    if Carried(cfg, s, |a'.ballot|) && m.time < a.expiration && !role.Committee? {
      NotYetCandidate(s, key);
      PassInOk(cfg, s1, role, address, a');
    } else {
      KeepsOk(cfg, s, DoApprove(cfg, s, m, ToApply, role, address).value);
    }
  }

  /** An applicant who has not passed is not a candidate. */
  lemma NotYetCandidate(s: State, key: Key)
    requires ElectionOk(s) && !key.role.Committee? && key in s.applications && !s.applications[key].passed
    ensures key.address !in Addresses(Cands(s, key.role))
  {
    hide Addresses, Shape;
  }

  lemma ApproveAbolitionOk(cfg: Config, s: State, m: Msg, role: Role, address: Address)
    requires s.balance >= s.allStake && ElectionOk(s) && DoApprove(cfg, s, m, ToAbolish, role, address).Some?
    ensures KeepsElection(cfg, s, DoApprove(cfg, s, m, ToAbolish, role, address).value)
  {
    hide ElectionOk, Current, DeleteCandidate, Penalty, Carried, RemoveFirst;
    var key := Key(role, address);
    var b := s.abolitions[key];
    var s1 := s.(abolitions := s.abolitions - {key});
    KeepsOk(cfg, s, s1);
    if Carried(cfg, s, |b.ballot| + 1) && m.time < b.expiration && !role.Committee? {
      PenaltyOk(cfg, s1, key);
    } else {
      KeepsOk(cfg, s, DoApprove(cfg, s, m, ToAbolish, role, address).value);
    }
  }

  /** A new node address: the ranking stays, and the first places change only if it is among them. */
  lemma RenamedList(cs: seq<Candidate>, p: nat, node: Address, dist: Dist, k: nat)
    requires ListOk(cs, dist) && p < |cs|
    ensures var r := cs[p := cs[p].(data := node)];
            ListOk(r, dist) && Addresses(r) == Addresses(cs) && (k <= p ==> TopData(r, k) == TopData(cs, k))
  {
    var r := cs[p := cs[p].(data := node)];
    forall i, j | 0 <= i < j < |r|
      ensures Ahead(r[i], r[j]) && r[i].address != r[j].address
    {
      assert Ahead(cs[i], cs[j]);
    }
    forall a
      ensures a in Addresses(r) <==> a in Addresses(cs)
    {
      if a in Addresses(r) {
        var k :| 0 <= k < |r| && r[k].address == a;
        assert cs[k] in cs;
      }
      if a in Addresses(cs) {
        var k :| 0 <= k < |cs| && cs[k].address == a;
        assert r[k] in r;
      }
    }
    if k <= p { assert Top(r, k) == Top(cs, k); }
  }

  lemma NodeChangeOk(cfg: Config, s: State, m: Msg, node: Address)
    requires ElectionOk(s) && DoSetNodeAddress(cfg, s, m, node).Some?
    ensures KeepsElection(cfg, s, DoSetNodeAddress(cfg, s, m, node).value)
  {
    hide ElectionOk, Current, NodeTaken, Position, Top;
    var key := Key(Validator, m.sender);
    var s1 := s.(applications := s.applications[key := s.applications[key].(node := node)]);
    KeepsOk(cfg, s, s1);
    var p := Position(s.valCands, m.sender);
    if p < |s.valCands| {
      RenamedOk(cfg, s1, p, node);
    }
  }

  lemma RenamedOk(cfg: Config, s: State, p: nat, node: Address)
    requires ElectionOk(s) && p < |s.valCands|
    ensures var s' := s.(valCands := s.valCands[p := s.valCands[p].(data := node)]);
            KeepsElection(cfg, s, if p < cfg.validatorSize then Publish(cfg, s') else s')
  {
    var r := s.valCands[p := s.valCands[p].(data := node)];
    ListShape(s, Validator);
    RenamedList(s.valCands, p, node, s.valDist, cfg.validatorSize);
    hide Shape, ListOk, TopData, Addresses, Top;
    var s' := s.(valCands := r);
    if p < cfg.validatorSize {
      PublishShape(cfg, s');
    } else {
      assert WithCands(s, Validator, r) == s';
      WithCandsShape(cfg, s, Validator, r);
    }
  }

  lemma AwardOk(cfg: Config, s: State, role: Role, a: Address)
    requires Solvent(s) && ElectionOk(s) && a in DistOf(s, role)
    ensures Award(s, role, a).Some? && KeepsElection(cfg, s, Award(s, role, a).value)
  {
    RewardCovered(s, role, a);
    AwardIs(s, role, a);
    ContainsIsMembership(Cands(s, role), a);
    hide Award, Contains, Ranked, UniqueAddresses, TopData, Addresses, Logged, Dividend;
  }

  lemma {:induction false} AwardAllOk(cfg: Config, s: State, list: seq<Address>)
    requires Solvent(s) && ElectionOk(s)
    ensures AwardAll(s, list).Some? && Solvent(AwardAll(s, list).value) && KeepsElection(cfg, s, AwardAll(s, list).value)
  {
    hide ElectionOk, Current, Award, Solvent;
    AwardAllSolvent(s, list);
    if list != [] {
      AwardAllOk(cfg, s, list[..|list| - 1]);
      var a := list[|list| - 1];
      var s1 := AwardAll(s, list[..|list| - 1]).value;
      if a in DistOf(s1, Validator) { AwardSolvent(s1, Validator, a); AwardOk(cfg, s1, Validator, a); }
      var s2 := AwardIfAny(s1, Validator, a).value;
      if a in DistOf(s2, Kol) { AwardOk(cfg, s2, Kol, a); }
    }
  }

  lemma DoExtractOk(cfg: Config, s: State, m: Msg, list: seq<Address>)
    requires Solvent(s) && ElectionOk(s) && DoExtract(cfg, s, m, list).Some?
    ensures KeepsElection(cfg, s, DoExtract(cfg, s, m, list).value)
  {
    CoversStake(s, 0);
    hide ElectionOk, Current, RewardDistribution, AwardAll, Covers;
    var (validators, kols) := Formal(cfg, s);
    RewardDistributionKeeps(cfg, s, validators, kols);
    RewardDistributionCovers(cfg, s, validators, kols, 0);
    var s1 := RewardDistribution(cfg, s, validators, kols).value;
    KeepsOk(cfg, s, s1);
    AwardAllOk(cfg, s1, list);
  }

  lemma DividendChangeOk(cfg: Config, s: State, m: Msg, role: Role, pool: Option<Address>, ratio: Option<int>)
    requires ElectionOk(s) && DoSetVoteDividend(s, m, role, pool, ratio).Some?
    ensures KeepsElection(cfg, s, DoSetVoteDividend(s, m, role, pool, ratio).value)
  {
    hide ElectionOk, Current;
    KeepsOk(cfg, s, DoSetVoteDividend(s, m, role, pool, ratio).value);
  }

  lemma DoCleanOk(cfg: Config, s: State, m: Msg, motion: Motion, role: Role, address: Address)
    requires ElectionOk(s) && DoClean(s, m, motion, role, address).Some?
    ensures KeepsElection(cfg, s, DoClean(s, m, motion, role, address).value)
  {
    hide ElectionOk, Current;
    KeepsOk(cfg, s, DoClean(s, m, motion, role, address).value);
  }

  lemma DoApplyOk(cfg: Config, s: State, m: Msg, role: Role, pool: Address, ratio: int, node: Address)
    requires ElectionOk(s) && DoApply(cfg, s, m, role, pool, ratio, node).Some?
    ensures KeepsElection(cfg, s, DoApply(cfg, s, m, role, pool, ratio, node).value)
  {
    hide ElectionOk, Current, NodeTaken;
    KeepsOk(cfg, s, DoApply(cfg, s, m, role, pool, ratio, node).value);
  }

  lemma DoAbolishOk(cfg: Config, s: State, m: Msg, role: Role, address: Address)
    requires ElectionOk(s) && DoAbolish(cfg, s, m, role, address).Some?
    ensures KeepsElection(cfg, s, DoAbolish(cfg, s, m, role, address).value)
  {
    hide ElectionOk, Current, MayReport;
    KeepsOk(cfg, s, DoAbolish(cfg, s, m, role, address).value);
  }

  lemma ApproveOk(cfg: Config, s: State, m: Msg, motion: Motion, role: Role, address: Address)
    requires s.balance >= s.allStake && ElectionOk(s) && DoApprove(cfg, s, m, motion, role, address).Some?
    ensures KeepsElection(cfg, s, DoApprove(cfg, s, m, motion, role, address).value)
  {
    assert !motion.ToWithdraw?;
    hide ElectionOk, Current, DoApprove;
    if motion.ToApply? {
      ApproveApplicationOk(cfg, s, m, role, address);
    } else {
      ApproveAbolitionOk(cfg, s, m, role, address);
    }
  }

  lemma DispatchOk(cfg: Config, before: State, m: Msg, call: Call)
    requires Solvent(before) && ElectionOk(before) && Dispatch(cfg, before, m, call).Some?
    ensures KeepsElection(cfg, before, Dispatch(cfg, before, m, call).value)
  {
    var s := Prepared(before, m.amount);
    KeepsOk(cfg, before, s);
    PreparedCovers(before, m.amount);
    LessIsCovered(s, m.amount);
    CoversStake(s, 0);
    hide ElectionOk, Current, Solvent, DoApply, DoAppend, DoApprove, DoVote, DoUnVote, DoAbolish, DoWithdraw, DoExtract,
         DoSetNodeAddress, DoSetVoteDividend, DoClean;
    match call
    case Apply(role, pool, ratio, node) => DoApplyOk(cfg, s, m, role, pool, ratio, node);
    case Append(role) => DoAppendOk(cfg, s, m, role);
    case Approve(motion, role, address) => ApproveOk(cfg, s, m, motion, role, address);
    case CastVote(role, address) => DoVoteOk(cfg, s, m, role, address);
    case UnVote(role, address) => DoUnVoteOk(cfg, s, m, role, address);
    case Abolish(role, address) => DoAbolishOk(cfg, s, m, role, address);
    case Withdraw(role) => DoWithdrawOk(cfg, s, m, role);
    case Extract(list) => DoExtractOk(cfg, s, m, list);
    case SetNodeAddress(node) => NodeChangeOk(cfg, s, m, node);
    case SetVoteDividend(role, pool, ratio) => DividendChangeOk(cfg, s, m, role, pool, ratio);
    case Clean(motion, role, address) => DoCleanOk(cfg, s, m, motion, role, address);
  }

  lemma StepOk(cfg: Config, s: State, ev: Event)
    requires Solvent(s) && ElectionOk(s)
    ensures KeepsElection(cfg, s, Step(cfg, s, ev))
  {
    match ev
    case Rewarded(amount) => KeepsOk(cfg, s, Step(cfg, s, ev));
    case Called(m, call) =>
      hide Dispatch, ElectionOk;
      if Dispatch(cfg, s, m, call).Some? { DispatchOk(cfg, s, m, call); }
  }
}
