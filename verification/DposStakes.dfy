/** What a candidate's stake is made of: its pledge, magnified, and the votes recorded for it. */
module DposStakes {
  import opened Options
  import opened MapSum
  import opened Ranking
  import opened Dpos
  import opened DposSolvency
  import opened DposElection

  /** The votes recorded for one candidate, whoever cast them and whenever. */
  function VotesOn(votes: map<VoteKey, int>, key: Key): map<VoteKey, int>
  {
    map v | v in votes && v.role == key.role && v.candidate == key.address :: votes[v]
  }

  ghost function VoteTotal(votes: map<VoteKey, int>, key: Key): int
  {
    Sum(VotesOn(votes, key), VoteAmount)
  }

  function PledgeAt(apps: map<Key, Application>, key: Key): int
  {
    if key in apps then apps[key].pledge else 0
  }

  /** What the records say a candidate should weigh. */
  ghost function Backing(cfg: Config, s: State, key: Key): int
  {
    PledgeAt(s.applications, key) * cfg.magnification + VoteTotal(s.votes, key)
  }

  /** How far its stake is from that. */
  ghost function Drift(cfg: Config, s: State, role: Role, c: Candidate): int
  {
    c.stake - Backing(cfg, s, Key(role, c.address))
  }

  /** Every candidate of the new list was in the old one with the same drift, or is new and
      weighs its magnified pledge alone. */
  ghost predicate DriftKept(cfg: Config, s: State, s': State, role: Role)
  {
    forall c' :: c' in Cands(s', role) ==>
      || (exists c :: c in Cands(s, role) && c.address == c'.address && Drift(cfg, s', role, c') == Drift(cfg, s, role, c))
      || (c'.address !in Addresses(Cands(s, role)) && Drift(cfg, s', role, c') == -VoteTotal(s'.votes, Key(role, c'.address)))
  }

  ghost predicate StakesKept(cfg: Config, s: State, s': State)
  {
    DriftKept(cfg, s, s', Validator) && DriftKept(cfg, s, s', Kol)
  }

  /** Of the configuration only the magnification matters. */
  lemma SameMagnification(cfg: Config, cfg': Config, s: State, s': State)
    requires cfg'.magnification == cfg.magnification && StakesKept(cfg, s, s')
    ensures StakesKept(cfg', s, s')
  {
    forall s: State, role: Role, c: Candidate
      ensures Drift(cfg', s, role, c) == Drift(cfg, s, role, c)
    {
    }
    hide Drift;
  }

  // ---- Votes ----

  lemma VoteCast(votes: map<VoteKey, int>, v: VoteKey, amount: int, key: Key)
    ensures var before := if v in votes then votes[v] else 0;
            VoteTotal(votes[v := before + amount], key)
            == VoteTotal(votes, key) + (if key == Key(v.role, v.candidate) then amount else 0)
  {
    var before := if v in votes then votes[v] else 0;
    var after := votes[v := before + amount];
    if key == Key(v.role, v.candidate) {
      assert VotesOn(after, key) == VotesOn(votes, key)[v := before + amount];
      SumPut(VotesOn(votes, key), VoteAmount, v, before + amount);
    } else {
      assert VotesOn(after, key) == VotesOn(votes, key);
    }
  }

  lemma VoteTaken(votes: map<VoteKey, int>, v: VoteKey, key: Key)
    requires v in votes
    ensures VoteTotal(votes - {v}, key) == VoteTotal(votes, key) - (if key == Key(v.role, v.candidate) then votes[v] else 0)
  {
    if key == Key(v.role, v.candidate) {
      assert VotesOn(votes - {v}, key) == VotesOn(votes, key) - {v};
      SumDrop(VotesOn(votes, key), VoteAmount, v);
    } else {
      assert VotesOn(votes - {v}, key) == VotesOn(votes, key);
    }
  }

  // ---- Lists ----

  /** The entries of a re-sorted list: the old ones, one of them changed. */
  lemma ChangedMembers(cs: seq<Candidate>, p: nat, c: Candidate)
    requires UniqueAddresses(cs) && Ranked(cs) && p < |cs| && c.address == cs[p].address
    ensures forall x :: x in Sort(cs[p := c]) ==> x == c || (x in cs && x.address != c.address)
  {
    SortAfterChange(cs, p, c);
    InsertContents(Without(cs, p), c);
    WithoutContents(cs, p);
    hide Sort, Ranked, Insert;
    forall x | x in Sort(cs[p := c]) && x != c
      ensures x in cs && x.address != c.address
    {
      assert x in Without(cs, p);
    }
  }

  lemma PushedMembers(cs: seq<Candidate>, c: Candidate, size: nat)
    requires UniqueAddresses(cs) && Ranked(cs) && c.address !in Addresses(cs)
    ensures forall x :: x in Top(Sort(cs + [c]), size) ==> x == c || x in cs
  {
    SortAfterPush(cs, c);
    InsertContents(cs, c);
  }

  lemma RemovedMembers(cs: seq<Candidate>, p: nat)
    requires UniqueAddresses(cs) && Ranked(cs) && p < |cs|
    ensures forall x :: x in Sort(Without(cs, p)) ==> x in cs
  {
    WithoutRanked(cs, p);
    WithoutUnique(cs, p);
    SortOfRanked(Without(cs, p));
    WithoutContents(cs, p);
  }

  // ---- One list at a time ----

  /** Candidates that stay as they are, with the same backing. */
  lemma ListKept(cfg: Config, s: State, s': State, role: Role)
    requires forall c :: c in Cands(s', role) ==>
               c in Cands(s, role) && Backing(cfg, s', Key(role, c.address)) == Backing(cfg, s, Key(role, c.address))
    ensures DriftKept(cfg, s, s', role)
  {
    hide Backing, Cands;
  }

  /** One candidate's stake and backing change by the same amount. */
  lemma ListChanged(cfg: Config, s: State, s': State, role: Role, was: Candidate, now: Candidate, amount: int)
    requires was in Cands(s, role) && now.address == was.address && now.stake == was.stake + amount
    requires Backing(cfg, s', Key(role, was.address)) == Backing(cfg, s, Key(role, was.address)) + amount
    requires forall c :: c in Cands(s', role) ==> c == now || (c in Cands(s, role) && c.address != was.address)
    requires forall a :: a != was.address ==> Backing(cfg, s', Key(role, a)) == Backing(cfg, s, Key(role, a))
    ensures DriftKept(cfg, s, s', role)
  {
    hide Backing, Cands;
    assert Drift(cfg, s', role, now) == Drift(cfg, s, role, was);
  }

  /** A newcomer that weighs its magnified pledge. */
  lemma ListJoined(cfg: Config, s: State, s': State, role: Role, now: Candidate)
    requires now.address !in Addresses(Cands(s, role))
    requires now.stake == PledgeAt(s'.applications, Key(role, now.address)) * cfg.magnification
    requires forall c :: c in Cands(s', role) ==> c == now || c in Cands(s, role)
    requires forall a :: a != now.address ==> Backing(cfg, s', Key(role, a)) == Backing(cfg, s, Key(role, a))
    ensures DriftKept(cfg, s, s', role)
  {
    assert Drift(cfg, s', role, now) == -VoteTotal(s'.votes, Key(role, now.address));
    hide Backing, Cands;
    forall c | c in Cands(s', role) && c != now
      ensures exists d :: d in Cands(s, role) && d.address == c.address && Drift(cfg, s', role, c) == Drift(cfg, s, role, d)
    {
      AddressOf(Cands(s, role), c);
    }
  }

  lemma AddressOf(cs: seq<Candidate>, c: Candidate)
    requires c in cs
    ensures c.address in Addresses(cs)
  {
  }

  // ---- What the list operations leave ----

  /** Neither pledges nor votes change. */
  predicate SameRecords(s: State, s': State)
  {
    s'.applications == s.applications && s'.votes == s.votes
  }

  lemma SettledRecords(cfg: Config, s: State, validators: seq<Candidate>, kols: seq<Candidate>)
    requires s.balance >= s.allStake && RewardDistribution(cfg, s, validators, kols).Some?
    ensures var s' := RewardDistribution(cfg, s, validators, kols).value;
            SameRecords(s, s') && s'.valCands == s.valCands && s'.kolCands == s.kolCands
  {
    hide Calculate;
  }

  lemma UpdateStakeList(cfg: Config, s: State, role: Role, p: nat, amount: int)
    requires s.balance >= s.allStake && p < |Cands(s, role)| && UpdateStake(cfg, s, role, p, amount).Some?
    ensures var cs := Cands(s, role);
            var s' := UpdateStake(cfg, s, role, p, amount).value;
            && SameRecords(s, s') && Cands(s', role) == Sort(cs[p := cs[p].(stake := cs[p].stake + amount)])
            && (if role.Validator? then s'.kolCands == s.kolCands else s'.valCands == s.valCands)
  {
    hide Sort, Position, RewardDistribution, Data, Top;
    var cs := Cands(s, role);
    var s1 := WithCands(s, role, Sort(cs[p := cs[p].(stake := cs[p].stake + amount)]));
    var (validators, kols) := Formal(cfg, s);
    if RewardDistribution(cfg, s1, validators, kols).Some? {
      SettledRecords(cfg, s1, validators, kols);
    }
  }

  lemma DeleteCandidateList(cfg: Config, s: State, role: Role, a: Address)
    requires s.balance >= s.allStake && DeleteCandidate(cfg, s, role, a).Some?
    ensures var cs := Cands(s, role);
            var p := Position(cs, a);
            var s' := DeleteCandidate(cfg, s, role, a).value;
            && SameRecords(s, s') && Cands(s', role) == (if p == |cs| then cs else Sort(Without(cs, p)))
            && (if role.Validator? then s'.kolCands == s.kolCands else s'.valCands == s.valCands)
  {
    hide Sort, Position, RewardDistribution, Data, Top;
    var (validators, kols) := Formal(cfg, s);
    if RewardDistribution(cfg, s, validators, kols).Some? {
      SettledRecords(cfg, s, validators, kols);
    }
  }

  lemma AddCandidateList(cfg: Config, s: State, role: Role, a: Address, app: Application)
    requires s.balance >= s.allStake && AddCandidate(cfg, s, role, a, app).Some?
    ensures var cs := Cands(s, role);
            var c := Entry(a, app.pledge * cfg.magnification, if role.Validator? then app.node else "");
            var s' := AddCandidate(cfg, s, role, a, app).value;
            && SameRecords(s, s')
            && (Cands(s', role) == cs || Cands(s', role) == Top(Sort(cs + [c]), CandidateSize(cfg, role)))
            && (if role.Validator? then s'.kolCands == s.kolCands else s'.valCands == s.valCands)
  {
    hide Sort, Position, RewardDistribution, Data, Top, NodeTaken;
    var (validators, kols) := Formal(cfg, s);
    if RewardDistribution(cfg, s, validators, kols).Some? {
      SettledRecords(cfg, s, validators, kols);
    }
  }

  // ---- The calls ----

  lemma SameBacking(cfg: Config, s: State, s': State, key: Key)
    requires PledgeAt(s'.applications, key) == PledgeAt(s.applications, key) && s'.votes == s.votes
    ensures Backing(cfg, s', key) == Backing(cfg, s, key)
  {
  }

  /** Lists, votes and the pledges behind them untouched. */
  predicate PledgesKept(apps: map<Key, Application>, apps': map<Key, Application>)
  {
    forall k :: k in apps && !k.role.Committee? && apps[k].passed ==> k in apps' && apps'[k].pledge == apps[k].pledge
  }

  lemma UntouchedList(cfg: Config, s: State, s': State, role: Role)
    requires Backed(s.applications, role, Cands(s, role)) && !role.Committee?
    requires Cands(s', role) == Cands(s, role) && s'.votes == s.votes && PledgesKept(s.applications, s'.applications)
    ensures DriftKept(cfg, s, s', role)
  {
    hide Backing, Cands, Addresses, DriftKept;
    forall c | c in Cands(s', role)
      ensures Backing(cfg, s', Key(role, c.address)) == Backing(cfg, s, Key(role, c.address))
    {
      AddressOf(Cands(s, role), c);
      SameBacking(cfg, s, s', Key(role, c.address));
    }
    ListKept(cfg, s, s', role);
  }

  lemma Untouched(cfg: Config, s: State, s': State)
    requires BothBacked(s) && s'.valCands == s.valCands && s'.kolCands == s.kolCands && s'.votes == s.votes
    requires PledgesKept(s.applications, s'.applications)
    ensures StakesKept(cfg, s, s')
  {
    hide Backed, DriftKept, PledgesKept;
    UntouchedList(cfg, s, s', Validator);
    UntouchedList(cfg, s, s', Kol);
  }

  /** The other list of a call that works on one. */
  lemma OtherList(cfg: Config, s: State, s': State, role: Role)
    requires forall a :: Backing(cfg, s', Key(role, a)) == Backing(cfg, s, Key(role, a))
    requires Cands(s', role) == Cands(s, role)
    ensures DriftKept(cfg, s, s', role)
  {
    hide Backing, Cands;
    ListKept(cfg, s, s', role);
  }

  lemma StakeMovedTo(cfg: Config, s: State, s': State, role: Role, was: Candidate, now: Candidate, amount: int)
    requires !role.Committee? && was in Cands(s, role) && now.address == was.address && now.stake == was.stake + amount
    requires forall c :: c in Cands(s', role) ==> c == now || (c in Cands(s, role) && c.address != was.address)
    requires if role.Validator? then s'.kolCands == s.kolCands else s'.valCands == s.valCands
    requires forall key :: Backing(cfg, s', key) == Backing(cfg, s, key) + (if key == Key(role, was.address) then amount else 0)
    ensures StakesKept(cfg, s, s')
  {
    hide Backing, DriftKept;
    ListChanged(cfg, s, s', role, was, now, amount);
    OtherList(cfg, s, s', if role.Validator? then Kol else Validator);
  }

  lemma SameRecordsBacking(cfg: Config, s: State, s': State)
    requires SameRecords(s, s')
    ensures forall key :: Backing(cfg, s', key) == Backing(cfg, s, key)
  {
    forall key
      ensures Backing(cfg, s', key) == Backing(cfg, s, key)
    {
      SameBacking(cfg, s, s', key);
    }
  }

  /** A stake changed together with what backs it: one vote or one pledge. */
  lemma StakeMoved(cfg: Config, s: State, s1: State, role: Role, p: nat, amount: int)
    requires Shape(s) && !role.Committee? && s1.balance >= s1.allStake && p < |Cands(s, role)|
    requires s1.valCands == s.valCands && s1.kolCands == s.kolCands
    requires UpdateStake(cfg, s1, role, p, amount).Some?
    requires forall key :: Backing(cfg, s1, key)
                           == Backing(cfg, s, key) + (if key == Key(role, Cands(s, role)[p].address) then amount else 0)
    ensures StakesKept(cfg, s, UpdateStake(cfg, s1, role, p, amount).value)
  {
    hide Shape, UpdateStake, Backing, StakesKept, Sort;
    var s' := UpdateStake(cfg, s1, role, p, amount).value;
    var was := Cands(s, role)[p];
    var now := was.(stake := was.stake + amount);
    UpdateStakeList(cfg, s1, role, p, amount);
    SameRecordsBacking(cfg, s1, s');
    ListShape(s, role);
    ChangedMembers(Cands(s, role), p, now);
    hide ListOk;
    StakeMovedTo(cfg, s, s', role, was, now, amount);
  }

  lemma DoVoteStakes(cfg: Config, s: State, m: Msg, role: Role, address: Address)
    requires s.balance >= s.allStake && Shape(s) && DoVote(cfg, s, m, role, address).Some?
    ensures StakesKept(cfg, s, DoVote(cfg, s, m, role, address).value)
  {
    hide UpdateStake, Shape, StakesKept;
    var v := VoteKey(m.sender, role, address);
    var s1 := s.(votes := s.votes[v := (if v in s.votes then s.votes[v] else 0) + m.amount]);
    forall key
      ensures Backing(cfg, s1, key) == Backing(cfg, s, key) + (if key == Key(role, address) then m.amount else 0)
    {
      VoteCast(s.votes, v, m.amount, key);
    }
    StakeMoved(cfg, s, s1, role, Position(Cands(s, role), address), m.amount);
  }

  lemma DoUnVoteStakes(cfg: Config, s: State, m: Msg, role: Role, address: Address)
    requires s.balance >= s.allStake && Shape(s) && DoUnVote(cfg, s, m, role, address).Some?
    ensures StakesKept(cfg, s, DoUnVote(cfg, s, m, role, address).value)
  {
    hide UpdateStake, Shape, Transfer, Logged, DriftKept;
    var v := VoteKey(m.sender, role, address);
    var s1 := Transfer(s.(votes := s.votes - {v}), m.sender, s.votes[v]).value;
    var p := Position(Cands(s1, role), address);
    forall key
      ensures Backing(cfg, s1, key) == Backing(cfg, s, key) - (if key == Key(role, address) then s.votes[v] else 0)
    {
      VoteTaken(s.votes, v, key);
    }
    if p < |Cands(s1, role)| {
      StakeMoved(cfg, s, s1, role, p, -s.votes[v]);
    } else {
      NotListed(cfg, s, s1, role, address);
    }
  }

  /** Votes on an address that is not listed back nobody's stake. */
  lemma NotListed(cfg: Config, s: State, s1: State, role: Role, address: Address)
    requires s1.valCands == s.valCands && s1.kolCands == s.kolCands && !role.Committee?
    requires Position(Cands(s, role), address) == |Cands(s, role)|
    requires forall key :: key != Key(role, address) ==> Backing(cfg, s1, key) == Backing(cfg, s, key)
    ensures StakesKept(cfg, s, s1)
  {
    hide Backing, DriftKept;
    ContainsIsMembership(Cands(s, role), address);
    hide Position;
    forall c | c in Cands(s, role)
      ensures c.address != address
    {
      AddressOf(Cands(s, role), c);
    }
    ListKept(cfg, s, s1, role);
    OtherList(cfg, s, s1, if role.Validator? then Kol else Validator);
  }

  /** A candidate added with its pledge as now recorded. */
  lemma Joined(cfg: Config, s: State, s1: State, role: Role, a: Address, app: Application)
    requires Shape(s) && !role.Committee? && s1.balance >= s1.allStake && a !in Addresses(Cands(s, role))
    requires s1.valCands == s.valCands && s1.kolCands == s.kolCands && AddCandidate(cfg, s1, role, a, app).Some?
    requires PledgeAt(s1.applications, Key(role, a)) == app.pledge
    requires forall key :: key != Key(role, a) ==> Backing(cfg, s1, key) == Backing(cfg, s, key)
    ensures StakesKept(cfg, s, AddCandidate(cfg, s1, role, a, app).value)
  {
    hide Shape, AddCandidate, Backing, DriftKept, Sort, PledgeAt;
    var s' := AddCandidate(cfg, s1, role, a, app).value;
    var c := Entry(a, app.pledge * cfg.magnification, if role.Validator? then app.node else "");
    AddCandidateList(cfg, s1, role, a, app);
    SameRecordsBacking(cfg, s1, s');
    ListShape(s, role);
    PushedMembers(Cands(s, role), c, CandidateSize(cfg, role));
    hide ListOk, Top;
    ListJoined(cfg, s, s', role, c);
    OtherList(cfg, s, s', if role.Validator? then Kol else Validator);
  }

  /** A candidate taken out, whatever becomes of its own records. */
  lemma Departed(cfg: Config, s: State, s': State, role: Role, a: Address)
    requires !role.Committee?
    requires forall c :: c in Cands(s', role) ==> c in Cands(s, role) && c.address != a
    requires if role.Validator? then s'.kolCands == s.kolCands else s'.valCands == s.valCands
    requires forall key :: key != Key(role, a) ==> Backing(cfg, s', key) == Backing(cfg, s, key)
    ensures StakesKept(cfg, s, s')
  {
    hide Backing, DriftKept;
    ListKept(cfg, s, s', role);
    OtherList(cfg, s, s', if role.Validator? then Kol else Validator);
  }

  lemma DeletedMembers(cfg: Config, s: State, role: Role, a: Address)
    requires s.balance >= s.allStake && Shape(s) && DeleteCandidate(cfg, s, role, a).Some?
    ensures var s' := DeleteCandidate(cfg, s, role, a).value;
            && (forall c :: c in Cands(s', role) ==> c in Cands(s, role) && c.address != a)
            && SameRecords(s, s')
            && (if role.Validator? then s'.kolCands == s.kolCands else s'.valCands == s.valCands)
  {
    DeleteCandidateList(cfg, s, role, a);
    DeleteCandidateShape(cfg, s, role, a);
    ListShape(s, role);
    var s' := DeleteCandidate(cfg, s, role, a).value;
    var p := Position(Cands(s, role), a);
    if p < |Cands(s, role)| { RemovedMembers(Cands(s, role), p); }
    hide Shape, DeleteCandidate, Sort, Position, ListOk;
    forall c | c in Cands(s', role)
      ensures c.address != a
    {
      AddressOf(Cands(s', role), c);
    }
  }

  lemma OtherKeys(cfg: Config, s: State, s': State, own: Key)
    requires s'.votes == s.votes && forall k :: k != own ==> PledgeAt(s'.applications, k) == PledgeAt(s.applications, k)
    ensures forall key :: key != own ==> Backing(cfg, s', key) == Backing(cfg, s, key)
  {
    forall key | key != own
      ensures Backing(cfg, s', key) == Backing(cfg, s, key)
    {
      SameBacking(cfg, s, s', key);
    }
  }

  lemma DoAppendStakes(cfg: Config, s: State, m: Msg, role: Role)
    requires s.balance >= s.allStake && ElectionOk(s) && DoAppend(cfg, s, m, role).Some?
    ensures StakesKept(cfg, s, DoAppend(cfg, s, m, role).value)
  {
    hide UpdateStake, AddCandidate, Shape, DriftKept, Backed, Position, Backing;
    var key := Key(role, m.sender);
    var a := s.applications[key];
    var a' := a.(pledge := a.pledge + m.amount);
    var s1 := s.(applications := s.applications[key := a']);
    OtherKeys(cfg, s, s1, key);
    if !a.passed {
      Untouched(cfg, s, s1);
    } else {
      var p := Position(Cands(s1, role), m.sender);
      if p == |Cands(s1, role)| {
        ContainsIsMembership(Cands(s, role), m.sender);
        Joined(cfg, s, s1, role, m.sender, a');
      } else {
        PledgeAdded(cfg, s, s1, key, m.amount);
        StakeMoved(cfg, s, s1, role, p, m.amount * cfg.magnification);
      }
    }
  }

  lemma PledgeAdded(cfg: Config, s: State, s1: State, key: Key, amount: int)
    requires s1.votes == s.votes && PledgeAt(s1.applications, key) == PledgeAt(s.applications, key) + amount
    ensures Backing(cfg, s1, key) == Backing(cfg, s, key) + amount * cfg.magnification
  {
    var pledge := PledgeAt(s.applications, key);
    assert (pledge + amount) * cfg.magnification == pledge * cfg.magnification + amount * cfg.magnification;
  }

  lemma ApproveApplicationStakes(cfg: Config, s: State, m: Msg, role: Role, address: Address)
    requires s.balance >= s.allStake && ElectionOk(s) && DoApprove(cfg, s, m, ToApply, role, address).Some?
    ensures StakesKept(cfg, s, DoApprove(cfg, s, m, ToApply, role, address).value)
  {
    hide AddCandidate, Shape, DriftKept, Backed, Carried, Backing;
    var key := Key(role, address);
    var a := s.applications[key];
    var a' := a.(ballot := a.ballot + [m.sender]);
    var s1 := s.(applications := s.applications[key := a'.(passed := true)]);
    OtherKeys(cfg, s, s1, key);
    if Carried(cfg, s, |a'.ballot|) && m.time < a.expiration && !role.Committee? {
      NotYetCandidate(s, key);
      Joined(cfg, s, s1, role, address, a');
    } else {
      Untouched(cfg, s, DoApprove(cfg, s, m, ToApply, role, address).value);
    }
  }

  lemma LeaveListStakes(cfg: Config, s: State, key: Key, e: Exit)
    requires s.balance >= s.allStake && Shape(s) && !key.role.Committee?
    requires DeleteCandidate(cfg, s.(applications := s.applications - {key}), key.role, key.address).Some?
    ensures var s2 := DeleteCandidate(cfg, s.(applications := s.applications - {key}), key.role, key.address).value;
            StakesKept(cfg, s, s2.(exits := s2.exits[key := e]))
  {
    hide DeleteCandidate, Shape, DriftKept, Backing;
    var s1 := s.(applications := s.applications - {key});
    ShapeOfLists(cfg, s, s1);
    DeletedMembers(cfg, s1, key.role, key.address);
    var s2 := DeleteCandidate(cfg, s1, key.role, key.address).value;
    var s3 := s2.(exits := s2.exits[key := e]);
    assert Cands(s1, key.role) == Cands(s, key.role) && Cands(s3, key.role) == Cands(s2, key.role);
    OtherKeys(cfg, s, s3, key);
    Departed(cfg, s, s3, key.role, key.address);
  }

  lemma DoWithdrawStakes(cfg: Config, s: State, m: Msg, role: Role)
    requires s.balance >= s.allStake && ElectionOk(s) && DoWithdraw(cfg, s, m, role).Some?
    ensures StakesKept(cfg, s, DoWithdraw(cfg, s, m, role).value)
  {
    hide Shape, BothBacked, StakesKept, DeleteCandidate, RemoveFirst, Transfer, Logged;
    var key := Key(role, m.sender);
    if !role.Committee? && key !in s.exits && s.applications[key].passed {
      LeaveListStakes(cfg, s, key, Exit(s.applications[key].pledge, m.time + cfg.validPeriod));
    } else {
      Untouched(cfg, s, DoWithdraw(cfg, s, m, role).value);
    }
  }

  lemma PenaltyStakes(cfg: Config, s: State, key: Key)
    requires s.balance >= s.allStake && Shape(s) && !key.role.Committee?
    requires DeleteCandidate(cfg, s.(abolitions := s.abolitions - {key}), key.role, key.address).Some?
    requires Penalty(DeleteCandidate(cfg, s.(abolitions := s.abolitions - {key}), key.role, key.address).value, key).Some?
    ensures var s2 := DeleteCandidate(cfg, s.(abolitions := s.abolitions - {key}), key.role, key.address).value;
            StakesKept(cfg, s, Penalty(s2, key).value)
  {
    hide DeleteCandidate, Shape, StakesKept, Backing;
    var s1 := s.(abolitions := s.abolitions - {key});
    ShapeOfLists(cfg, s, s1);
    DeletedMembers(cfg, s1, key.role, key.address);
    var s2 := DeleteCandidate(cfg, s1, key.role, key.address).value;
    var s3 := Penalty(s2, key).value;
    assert s3.valCands == s2.valCands && s3.kolCands == s2.kolCands && s3.votes == s2.votes;
    assert Cands(s3, key.role) == Cands(s2, key.role);
    OtherKeys(cfg, s, s3, key);
    Departed(cfg, s, s3, key.role, key.address);
  }

  lemma ApproveAbolitionStakes(cfg: Config, s: State, m: Msg, role: Role, address: Address)
    requires s.balance >= s.allStake && ElectionOk(s) && DoApprove(cfg, s, m, ToAbolish, role, address).Some?
    ensures StakesKept(cfg, s, DoApprove(cfg, s, m, ToAbolish, role, address).value)
  {
    hide Shape, BothBacked, StakesKept, DeleteCandidate, Penalty, Carried, RemoveFirst;
    var key := Key(role, address);
    var b := s.abolitions[key];
    if Carried(cfg, s, |b.ballot| + 1) && m.time < b.expiration && !role.Committee? {
      PenaltyStakes(cfg, s, key);
    } else {
      Untouched(cfg, s, DoApprove(cfg, s, m, ToAbolish, role, address).value);
    }
  }

  lemma NodeChangeLists(cfg: Config, s: State, m: Msg, node: Address)
    requires DoSetNodeAddress(cfg, s, m, node).Some?
    ensures var s' := DoSetNodeAddress(cfg, s, m, node).value;
            var p := Position(s.valCands, m.sender);
            && s'.votes == s.votes && s'.kolCands == s.kolCands
            && (forall k :: PledgeAt(s'.applications, k) == PledgeAt(s.applications, k))
            && s'.valCands == (if p == |s.valCands| then s.valCands else s.valCands[p := s.valCands[p].(data := node)])
  {
    hide NodeTaken, Top, Data, Position;
  }

  /** A new node address changes no stake. */
  lemma NodeChangeStakes(cfg: Config, s: State, m: Msg, node: Address)
    requires DoSetNodeAddress(cfg, s, m, node).Some?
    ensures StakesKept(cfg, s, DoSetNodeAddress(cfg, s, m, node).value)
  {
    hide DoSetNodeAddress, DriftKept, Position, Backing, PledgeAt;
    var s' := DoSetNodeAddress(cfg, s, m, node).value;
    var p := Position(s.valCands, m.sender);
    NodeChangeLists(cfg, s, m, node);
    SamePledges(cfg, s, s');
    OtherList(cfg, s, s', Kol);
    if p == |s.valCands| {
      OtherList(cfg, s, s', Validator);
    } else {
      RenamedDrift(cfg, s, s', p);
    }
  }

  lemma SamePledges(cfg: Config, s: State, s': State)
    requires s'.votes == s.votes && forall k :: PledgeAt(s'.applications, k) == PledgeAt(s.applications, k)
    ensures forall key :: Backing(cfg, s', key) == Backing(cfg, s, key)
  {
    forall key
      ensures Backing(cfg, s', key) == Backing(cfg, s, key)
    {
      SameBacking(cfg, s, s', key);
    }
  }

  lemma RenamedDrift(cfg: Config, s: State, s': State, p: nat)
    requires p < |s.valCands| == |s'.valCands|
    requires s'.valCands[p].address == s.valCands[p].address && s'.valCands[p].stake == s.valCands[p].stake
    requires forall k :: 0 <= k < |s.valCands| && k != p ==> s'.valCands[k] == s.valCands[k]
    requires forall key :: Backing(cfg, s', key) == Backing(cfg, s, key)
    ensures DriftKept(cfg, s, s', Validator)
  {
    hide Backing;
    forall c' | c' in Cands(s', Validator)
      ensures exists c :: c in Cands(s, Validator) && c.address == c'.address &&
                          Drift(cfg, s', Validator, c') == Drift(cfg, s, Validator, c)
    {
      var k :| 0 <= k < |s'.valCands| && s'.valCands[k] == c';
      assert s.valCands[k] in Cands(s, Validator);
    }
  }

  lemma ExtractStakes(cfg: Config, s: State, m: Msg, list: seq<Address>)
    requires Solvent(s) && ElectionOk(s) && DoExtract(cfg, s, m, list).Some?
    ensures StakesKept(cfg, s, DoExtract(cfg, s, m, list).value)
  {
    CoversStake(s, 0);
    hide Covers, RewardDistribution, AwardAll, Shape, BothBacked, StakesKept;
    var (validators, kols) := Formal(cfg, s);
    SettledRecords(cfg, s, validators, kols);
    RewardDistributionCovers(cfg, s, validators, kols, 0);
    AwardsKeepRecords(RewardDistribution(cfg, s, validators, kols).value, list);
    Untouched(cfg, s, DoExtract(cfg, s, m, list).value);
  }

  lemma {:induction false} AwardsKeepRecords(s: State, list: seq<Address>)
    requires Solvent(s) && AwardAll(s, list).Some?
    ensures var s' := AwardAll(s, list).value;
            SameRecords(s, s') && s'.valCands == s.valCands && s'.kolCands == s.kolCands
  {
    hide Award, Covers;
    if list != [] {
      AwardsKeepRecords(s, list[..|list| - 1]);
      AwardAllSolvent(s, list[..|list| - 1]);
      var a := list[|list| - 1];
      var s1 := AwardAll(s, list[..|list| - 1]).value;
      if a in DistOf(s1, Validator) { AwardSolvent(s1, Validator, a); AwardKeepsRecords(s1, Validator, a); }
      var s2 := AwardIfAny(s1, Validator, a).value;
      if a in DistOf(s2, Kol) { AwardKeepsRecords(s2, Kol, a); }
    }
  }

  lemma AwardKeepsRecords(s: State, role: Role, a: Address)
    requires Solvent(s) && a in DistOf(s, role)
    ensures Award(s, role, a).Some?
    ensures var s' := Award(s, role, a).value;
            SameRecords(s, s') && s'.valCands == s.valCands && s'.kolCands == s.kolCands
  {
    RewardCovered(s, role, a);
    AwardIs(s, role, a);
    hide Award, Settled, Logged, Dividend, Covers;
  }

  lemma DoApplyStakes(cfg: Config, s: State, m: Msg, role: Role, pool: Address, ratio: int, node: Address)
    requires BothBacked(s) && DoApply(cfg, s, m, role, pool, ratio, node).Some?
    ensures StakesKept(cfg, s, DoApply(cfg, s, m, role, pool, ratio, node).value)
  {
    hide StakesKept, BothBacked, NodeTaken;
    Untouched(cfg, s, DoApply(cfg, s, m, role, pool, ratio, node).value);
  }

  lemma DoAbolishStakes(cfg: Config, s: State, m: Msg, role: Role, address: Address)
    requires BothBacked(s) && DoAbolish(cfg, s, m, role, address).Some?
    ensures StakesKept(cfg, s, DoAbolish(cfg, s, m, role, address).value)
  {
    hide StakesKept, BothBacked, MayReport;
    Untouched(cfg, s, DoAbolish(cfg, s, m, role, address).value);
  }

  lemma DividendChangeStakes(cfg: Config, s: State, m: Msg, role: Role, pool: Option<Address>, ratio: Option<int>)
    requires BothBacked(s) && DoSetVoteDividend(s, m, role, pool, ratio).Some?
    ensures StakesKept(cfg, s, DoSetVoteDividend(s, m, role, pool, ratio).value)
  {
    hide StakesKept, BothBacked;
    Untouched(cfg, s, DoSetVoteDividend(s, m, role, pool, ratio).value);
  }

  lemma DoCleanStakes(cfg: Config, s: State, m: Msg, motion: Motion, role: Role, address: Address)
    requires BothBacked(s) && DoClean(s, m, motion, role, address).Some?
    ensures StakesKept(cfg, s, DoClean(s, m, motion, role, address).value)
  {
    hide StakesKept, BothBacked, Transfer, Logged;
    Untouched(cfg, s, DoClean(s, m, motion, role, address).value);
  }

  /** What every call does to stakes: a candidate that stays keeps its drift, a newcomer weighs
      its magnified pledge and nothing else. */
  lemma DispatchStakes(cfg: Config, before: State, m: Msg, call: Call)
    requires Solvent(before) && ElectionOk(before) && Dispatch(cfg, before, m, call).Some?
    ensures StakesKept(cfg, before, Dispatch(cfg, before, m, call).value)
  {
    var s := Prepared(before, m.amount);
    KeepsOk(cfg, before, s);
    PreparedCovers(before, m.amount);
    LessIsCovered(s, m.amount);
    CoversStake(s, 0);
    var r := Dispatch(cfg, before, m, call).value;
    assert StakesKept(cfg, s, r) by { PreparedStakes(cfg, s, m, call, r); }
    hide Dispatch, ElectionOk, Solvent, StakesKept;
    SameStart(cfg, before, s, r);
  }

  /** The coins sent along change neither lists nor records. */
  lemma SameStart(cfg: Config, before: State, s: State, r: State)
    requires SameRecords(before, s) && s.valCands == before.valCands && s.kolCands == before.kolCands && StakesKept(cfg, s, r)
    ensures StakesKept(cfg, before, r)
  {
    SameRecordsBacking(cfg, before, s);
    hide Backing;
    forall role, c
      ensures Drift(cfg, before, role, c) == Drift(cfg, s, role, c)
    {
    }
    hide Drift;
  }

  lemma PreparedStakes(cfg: Config, s: State, m: Msg, call: Call, r: State)
    requires Solvent(s) && s.balance >= s.allStake && ElectionOk(s)
    requires match call
             case Apply(role, pool, ratio, node) => DoApply(cfg, s, m, role, pool, ratio, node) == Some(r)
             case Append(role) => DoAppend(cfg, s, m, role) == Some(r)
             case Approve(motion, role, address) => DoApprove(cfg, s, m, motion, role, address) == Some(r)
             case CastVote(role, address) => DoVote(cfg, s, m, role, address) == Some(r)
             case UnVote(role, address) => DoUnVote(cfg, s, m, role, address) == Some(r)
             case Abolish(role, address) => DoAbolish(cfg, s, m, role, address) == Some(r)
             case Withdraw(role) => DoWithdraw(cfg, s, m, role) == Some(r)
             case Extract(list) => DoExtract(cfg, s, m, list) == Some(r)
             case SetNodeAddress(node) => DoSetNodeAddress(cfg, s, m, node) == Some(r)
             case SetVoteDividend(role, pool, ratio) => DoSetVoteDividend(s, m, role, pool, ratio) == Some(r)
             case Clean(motion, role, address) => DoClean(s, m, motion, role, address) == Some(r)
    ensures StakesKept(cfg, s, r)
  {
    hide Covers, StakesKept, Shape, BothBacked, DoApply, DoAppend, DoApprove, DoVote, DoUnVote, DoAbolish, DoWithdraw, DoExtract,
         DoSetNodeAddress, DoSetVoteDividend, DoClean;
    match call
    case Apply(role, pool, ratio, node) => DoApplyStakes(cfg, s, m, role, pool, ratio, node);
    case Append(role) => DoAppendStakes(cfg, s, m, role);
    case Approve(motion, role, address) => ApproveStakes(cfg, s, m, motion, role, address);
    case CastVote(role, address) => DoVoteStakes(cfg, s, m, role, address);
    case UnVote(role, address) => DoUnVoteStakes(cfg, s, m, role, address);
    case Abolish(role, address) => DoAbolishStakes(cfg, s, m, role, address);
    case Withdraw(role) => DoWithdrawStakes(cfg, s, m, role);
    case Extract(list) => ExtractStakes(cfg, s, m, list);
    case SetNodeAddress(node) => NodeChangeStakes(cfg, s, m, node);
    case SetVoteDividend(role, pool, ratio) => DividendChangeStakes(cfg, s, m, role, pool, ratio);
    case Clean(motion, role, address) => DoCleanStakes(cfg, s, m, motion, role, address);
  }

  lemma ApproveStakes(cfg: Config, s: State, m: Msg, motion: Motion, role: Role, address: Address)
    requires s.balance >= s.allStake && ElectionOk(s) && DoApprove(cfg, s, m, motion, role, address).Some?
    ensures StakesKept(cfg, s, DoApprove(cfg, s, m, motion, role, address).value)
  {
    assert !motion.ToWithdraw?;
    hide DoApprove, StakesKept, ElectionOk;
    if motion.ToApply? {
      ApproveApplicationStakes(cfg, s, m, role, address);
    } else {
      ApproveAbolitionStakes(cfg, s, m, role, address);
    }
  }

  lemma StepStakes(cfg: Config, s: State, ev: Event)
    requires Solvent(s) && s.balance >= s.allStake && ElectionOk(s)
    ensures StakesKept(cfg, s, Step(cfg, s, ev))
  {
    hide Dispatch, Covers, Shape, BothBacked, StakesKept;
    match ev
    case Rewarded(amount) => Untouched(cfg, s, Step(cfg, s, ev));
    case Called(m, call) =>
      if Dispatch(cfg, s, m, call).Some? {
        DispatchStakes(cfg, s, m, call);
      } else {
        Untouched(cfg, s, s);
      }
  }

  /** The drift of the candidate with an address. */
  ghost function DriftAt(cfg: Config, s: State, role: Role, a: Address): int
    requires Contains(Cands(s, role), a)
  {
    Drift(cfg, s, role, Cands(s, role)[Position(Cands(s, role), a)])
  }

  lemma DriftStays(cfg: Config, s: State, s': State, role: Role, a: Address)
    requires DriftKept(cfg, s, s', role) && UniqueAddresses(Cands(s, role))
    requires Contains(Cands(s, role), a) && Contains(Cands(s', role), a)
    ensures DriftAt(cfg, s', role, a) == DriftAt(cfg, s, role, a)
  {
    hide Drift;
    var cs := Cands(s, role);
    var c' := Cands(s', role)[Position(Cands(s', role), a)];
    ContainsIsMembership(cs, a);
    assert c' in Cands(s', role) && c'.address == a;
    var c :| c in cs && c.address == c'.address && Drift(cfg, s', role, c') == Drift(cfg, s, role, c);
    var k :| 0 <= k < |cs| && cs[k] == c;
    PositionOfMember(cs, k);
  }

  /** A newcomer's stake is what the records give exactly when no votes on it are left from before. */
  lemma NewcomerExact(cfg: Config, s: State, s': State, role: Role, c: Candidate)
    requires DriftKept(cfg, s, s', role) && c in Cands(s', role) && c.address !in Addresses(Cands(s, role))
    ensures c.stake == Backing(cfg, s', Key(role, c.address)) <==> VoteTotal(s'.votes, Key(role, c.address)) == 0
  {
    hide Backing;
    forall d | d in Cands(s, role) { AddressOf(Cands(s, role), d); }
  }

  /** Nobody weighs more than pledge and votes give, apart from what `init` found. */
  ghost predicate Bounded(cfg: Config, s: State, role: Role, base: map<Address, int>)
  {
    forall c :: c in Cands(s, role) ==> Drift(cfg, s, role, c) <= (if c.address in base then base[c.address] else 0)
  }

  lemma VoteTotalNonNegative(s: State, key: Key)
    requires Solvent(s)
    ensures VoteTotal(s.votes, key) >= 0
  {
    SumNonNegative(VotesOn(s.votes, key), VoteAmount);
  }

  lemma BoundedStays(cfg: Config, s: State, s': State, role: Role, base: map<Address, int>)
    requires DriftKept(cfg, s, s', role) && Bounded(cfg, s, role, base) && Solvent(s')
    requires forall a :: a in base ==> base[a] >= 0
    ensures Bounded(cfg, s', role, base)
  {
    forall key { VoteTotalNonNegative(s', key); }
    hide Drift, Covers, VoteTotal;
  }
}
