/** Concrete runs of one replica: two show that the conditions on its surroundings, `MayPropose`
    and `MayClose`, cannot be dropped, one hands over a value whose proof convinces nobody. */
module PbftLimits {
  import opened Options
  import opened PbftInstance
  import opened PbftProof
  import opened PbftReplica
  import opened PbftInvariant

  /** Replica `self` of four; the hash is the identity. */
  function OneOfFour(self: int): Node
    requires 0 <= self < 4
  {
    RawNode(4, 2, self, (s: string) => s)
  }

  function Pledge(view: int, sequence: int, replica: int, value: string): Event
  {
    Recv(Prepare(Vote(view, sequence, replica, value)), Valid)
  }

  lemma TwoDigests(sent: set<Env>, x: Env, y: Env)
    requires x in sent && y in sent && IsVote(x) && IsVote(y)
    requires IndexOf(x) == IndexOf(y) && x.vote.digest != y.vote.digest
    ensures !SingleVote(sent)
  {
  }

  /** Two prepares make a proposed instance send its commit. */
  lemma TwoPrepares(c: Node, p: Proposal, a: int, b: int)
    requires c.quorum == 2 && a != b
    ensures var v, w := Vote(p.view, p.sequence, a, p.digest), Vote(p.view, p.sequence, b, p.digest);
            var first := Deliver(c, true, Requested(p), Prepare(v), Valid);
            var second := Deliver(c, true, first.inst, Prepare(w), Valid);
            && first.out == [] && first.inst.phase == PREPREPARED
            && second.out == [Commit(Vote(p.view, p.sequence, c.self, p.digest))] && second.inst.phase == PREPARED
  {
    var v, w := Vote(p.view, p.sequence, a, p.digest), Vote(p.view, p.sequence, b, p.digest);
    var ready := Buffered(Requested(p), Prepare(v));
    var one := ready.(prepares := map[a := v], item := 1);
    assert Handle(c, true, ready.(item := 1), Prepare(v), Valid) == Effect(one, []);
    assert Drain(c, true, one, Valid) == Effect(one, []);
    assert Deliver(c, true, Requested(p), Prepare(v), Valid) == Effect(one, []);
    var next := Buffered(one, Prepare(w)).(item := 2);
    assert next.buf[PREPREPARED] == [Prepare(v), Prepare(w)];
    var step := Handle(c, true, next, Prepare(w), Valid);
    assert Recorded(next.prepares, w) == map[a := v, b := w];
    assert |map[a := v, b := w]| == 2;
    assert step.out == [Commit(Vote(p.view, p.sequence, c.self, p.digest))] && step.inst.phase == PREPARED && step.inst.item == 0;
    assert Drain(c, true, step.inst, Valid) == Effect(step.inst, []);
  }

  function NextIndex(r: Replica): Index
  {
    Index(r.view, r.lastExe + 1)
  }

  /** A prepare for an instance of the current view that does not commit it. */
  lemma PrepareStep(c: Node, r: Replica, v: Vote)
    requires ShapedAll(r) && r.active && NextIndex(r) == Index(v.view, v.sequence)
    requires NextIndex(r) in r.instances && Leads(c, r.view)
    requires Deliver(c, true, r.instances[NextIndex(r)], Prepare(v), Valid).inst.phase < COMMITED
    ensures var eff := Deliver(c, true, r.instances[NextIndex(r)], Prepare(v), Valid);
            Step(c, r, Recv(Prepare(v), Valid)) ==
            r.(instances := r.instances[NextIndex(r) := eff.inst], sent := r.sent + Emitted(eff.out))
  {
    hide Deliver, TryExecute, Leads;
  }

  /** One permitted step. */
  ghost predicate Moves(c: Node, r: Replica, ev: Event, r': Replica)
  {
    ShapedAll(r) && Permitted(c, r, ev) && r' == Step(c, r, ev)
  }

  lemma ProposeStep(c: Node, r: Replica, value: string)
    requires ShapedAll(r) && Primary(c, r.view) && r.active
    ensures var r' := Step(c, r, Propose(value));
            var p := Proposal(r.view, r.lastExe + 1, c.self, value, c.hash(value));
            && ShapedAll(r') && r'.sent == r.sent + {PrePrepare(p)}
            && r'.view == r.view && r'.lastExe == r.lastExe && r'.active
            && NextIndex(r) in r'.instances && r'.instances[NextIndex(r)] == Requested(p)
  {
    hide Primary;
  }

  /** Two prepares for the primary's fresh proposal: a commit goes out, nothing else changes. */
  lemma VoteSteps(c: Node, r: Replica, p: Proposal, a: int, b: int)
    requires ShapedAll(r) && r.active && c.quorum == 2 && a != b && Leads(c, r.view)
    requires NextIndex(r) == Index(p.view, p.sequence) && NextIndex(r) in r.instances && r.instances[NextIndex(r)] == Requested(p)
    ensures var v, w := Vote(p.view, p.sequence, a, p.digest), Vote(p.view, p.sequence, b, p.digest);
            var r1 := Step(c, r, Recv(Prepare(v), Valid));
            && ShapedAll(r1) && r1.sent == r.sent
            && var r2 := Step(c, r1, Recv(Prepare(w), Valid));
            && ShapedAll(r2) && r2.sent == r.sent + {Commit(Vote(p.view, p.sequence, c.self, p.digest))}
            && r2.view == r.view && r2.active && r2.lastExe == r.lastExe
  {
    TwoPrepares(c, p, a, b);
    hide Deliver, Step, Requested, Leads;
    var v, w := Vote(p.view, p.sequence, a, p.digest), Vote(p.view, p.sequence, b, p.digest);
    PrepareStep(c, r, v);
    PrepareStep(c, Step(c, r, Recv(Prepare(v), Valid)), w);
  }

  lemma FirstVote(c: Node) returns (r1: Replica, r2: Replica, r3: Replica)
    requires c.quorum == 2 && c.self == 0 && c.n == 4 && Primary(c, 0) && Leads(c, 0) && c.hash("a") == "a"
    ensures Moves(c, INITIAL, Propose("a"), r1)
    ensures Moves(c, r1, Pledge(0, 2, 1, "a"), r2)
    ensures Moves(c, r2, Pledge(0, 2, 3, "a"), r3)
    ensures ShapedAll(r3) && r3.view == 0 && r3.active && r3.lastExe == 1 && Commit(Vote(0, 2, 0, "a")) in r3.sent
  {
    hide Step, Primary, Leads;
    ProposeStep(c, INITIAL, "a");
    r1 := Step(c, INITIAL, Propose("a"));
    VoteSteps(c, r1, Proposal(0, 2, 0, "a", "a"), 1, 3);
    r2 := Step(c, r1, Pledge(0, 2, 1, "a"));
    r3 := Step(c, r2, Pledge(0, 2, 3, "a"));
  }

  lemma SecondVote(c: Node, r3: Replica) returns (r4: Replica, r5: Replica, r6: Replica)
    requires c.quorum == 2 && c.self == 0 && c.n == 4 && Primary(c, 0) && Leads(c, 0) && c.hash("b") == "b"
    requires ShapedAll(r3) && r3.view == 0 && r3.active && r3.lastExe == 1
    ensures r4 == Step(c, r3, Propose("b"))
    ensures Moves(c, r4, Pledge(0, 2, 2, "b"), r5)
    ensures Moves(c, r5, Pledge(0, 2, 3, "b"), r6)
    ensures r3.sent <= r6.sent && Commit(Vote(0, 2, 0, "b")) in r6.sent
  {
    hide Step, Primary, Leads;
    ProposeStep(c, r3, "b");
    r4 := Step(c, r3, Propose("b"));
    VoteSteps(c, r4, Proposal(0, 2, 0, "b", "b"), 2, 3);
    r5 := Step(c, r4, Pledge(0, 2, 2, "b"));
    r6 := Step(c, r5, Pledge(0, 2, 3, "b"));
  }

  /** Four replicas: a primary that is asked again for a sequence it has voted on sends
      commits for two digests. Every step but the second proposal is permitted. */
  lemma SecondProposalBreaksSingleVote()
    returns (c: Node, r1: Replica, r2: Replica, r3: Replica, r4: Replica, r5: Replica, r6: Replica)
    ensures Moves(c, INITIAL, Propose("a"), r1)
    ensures Moves(c, r1, Pledge(0, 2, 1, "a"), r2)
    ensures Moves(c, r2, Pledge(0, 2, 3, "a"), r3)
    ensures ShapedAll(r3) && !MayPropose(c, r3, "b") && r4 == Step(c, r3, Propose("b"))
    ensures Moves(c, r4, Pledge(0, 2, 2, "b"), r5)
    ensures Moves(c, r5, Pledge(0, 2, 3, "b"), r6)
    ensures !SingleVote(r6.sent)
  {
    c := OneOfFour(0);
    assert Leads(c, 0) && Primary(c, 0);
    hide Step, SingleVote, Primary, Leads, Moves;
    r1, r2, r3 := FirstVote(c);
    r4, r5, r6 := SecondVote(c, r3);
    var x := Commit(Vote(0, 2, 0, "a"));
    TwoDigests(r6.sent, x, Commit(Vote(0, 2, 0, "b")));
    assert IsVote(x) && IndexOf(x) == Index(0, 2) && x.vote.digest != "b";
  }

  // ---- A ledger that closes ahead of the window in an older view ----

  function Suggest(view: int, sequence: int, replica: int, value: string): Event
  {
    Recv(PrePrepare(Proposal(view, sequence, replica, value, value)), Valid)
  }

  /** A backup answers the first proposal it sees at an index with its prepare. */
  lemma SuggestStep(c: Node, r: Replica, p: Proposal)
    requires ShapedAll(r) && r.active && !Leads(c, r.view) && p.digest == c.hash(p.value)
    requires p.view == r.view && r.lastExe < p.sequence <= r.lastExe + CKP_INTERVAL
    requires Index(p.view, p.sequence) !in r.instances
    ensures var r' := Step(c, r, Recv(PrePrepare(p), Valid));
            var i := Index(p.view, p.sequence);
            && ShapedAll(r') && r'.sent == r.sent + {Prepare(Vote(p.view, p.sequence, c.self, p.digest))}
            && r'.view == r.view && r'.active && r'.lastExe == r.lastExe
            && i in r'.instances && r'.instances[i].phase == PREPREPARED
  {
    var ready := Buffered(FRESH, PrePrepare(p));
    var next := ready.(phase := PREPREPARED, value := p.value, digest := p.digest);
    assert Handle(c, false, ready.(item := 1), PrePrepare(p), Valid)
        == Effect(next, [Prepare(Vote(p.view, p.sequence, c.self, p.digest))]);
    assert Drain(c, false, next, Valid) == Effect(next, []);
    assert Deliver(c, false, FRESH, PrePrepare(p), Valid).inst == next;
    assert Deliver(c, false, FRESH, PrePrepare(p), Valid).out == [Prepare(Vote(p.view, p.sequence, c.self, p.digest))];
    hide Deliver, Leads, TryExecute;
  }

  const CLAIMS := [ViewClaim(1, 0), ViewClaim(1, 1), ViewClaim(1, 3)]

  lemma NewViewStep(c: Node)
    requires c.quorum == 2 && !Primary(c, 1)
    ensures Step(c, INITIAL, Recv(NewView(1, 1, CLAIMS), Valid)) == INITIAL.(view := 1)
  {
    hide Primary;
    ThreeClaims(CLAIMS);
    var r := EnterView(INITIAL, 1);
    assert r.instances == map[] && r.vcs == map[];
    assert OnNewView(c, INITIAL, 1, CLAIMS) == r;
  }

  lemma CloseStep(c: Node, r: Replica, i: Index)
    requires ShapedAll(r) && r.view == 1 && r.lastExe == 1 && r.active && i in r.instances && r.instances[i].phase < COMMITED
    ensures var r' := Step(c, r, LedgerClosed(0, 2));
            && ShapedAll(r') && r'.view == 1 && r'.lastExe == 2 && r'.active && i !in r'.instances && r'.sent == r.sent
  {
  }

  lemma CutsOff(r: Replica, e: Env)
    requires r.view == 1 && r.lastExe == 1 && e in r.sent && IsVote(e) && IndexOf(e) == Index(1, 5)
    requires Index(1, 5) in r.instances && r.instances[Index(1, 5)].phase < COMMITED
    ensures !MayClose(r, 0, 2)
  {
    assert IndexOf(e).view == r.view && IndexOf(e).sequence > 2;
  }

  lemma BeforeJump(c: Node) returns (r1: Replica, r2: Replica)
    requires c.quorum == 2 && c.n == 4 && c.self == 2 && !Primary(c, 1) && !Leads(c, 1) && c.hash("a") == "a"
    ensures Moves(c, INITIAL, Recv(NewView(1, 1, CLAIMS), Valid), r1)
    ensures Moves(c, r1, Suggest(1, 5, 1, "a"), r2)
    ensures ShapedAll(r2) && r2.view == 1 && r2.lastExe == 1 && r2.active && Prepare(Vote(1, 5, 2, "a")) in r2.sent
    ensures Index(1, 5) in r2.instances && r2.instances[Index(1, 5)].phase == PREPREPARED
  {
    hide Leads, Primary, Step;
    NewViewStep(c);
    r1 := Step(c, INITIAL, Recv(NewView(1, 1, CLAIMS), Valid));
    SuggestStep(c, r1, Proposal(1, 5, 1, "a", "a"));
    r2 := Step(c, r1, Suggest(1, 5, 1, "a"));
  }

  lemma AfterJump(c: Node, r2: Replica) returns (r3: Replica, r4: Replica)
    requires c.quorum == 2 && c.n == 4 && c.self == 2 && !Primary(c, 1) && !Leads(c, 1) && c.hash("b") == "b"
    requires ShapedAll(r2) && r2.view == 1 && r2.lastExe == 1 && r2.active
    requires Index(1, 5) in r2.instances && r2.instances[Index(1, 5)].phase == PREPREPARED
    ensures r3 == Step(c, r2, LedgerClosed(0, 2))
    ensures Moves(c, r3, Suggest(1, 5, 1, "b"), r4)
    ensures r2.sent <= r4.sent && Prepare(Vote(1, 5, 2, "b")) in r4.sent
  {
    hide Leads, Primary, Step;
    CloseStep(c, r2, Index(1, 5));
    r3 := Step(c, r2, LedgerClosed(0, 2));
    SuggestStep(c, r3, Proposal(1, 5, 1, "b", "b"));
    r4 := Step(c, r3, Suggest(1, 5, 1, "b"));
  }

  /** A backup in view 1 prepares one value at sequence 5; a proof of view 0 for sequence 2
      then moves its window, which erases that instance, and it prepares another value there. */
  lemma LedgerJumpBreaksSingleVote()
    returns (c: Node, r1: Replica, r2: Replica, r3: Replica, r4: Replica)
    ensures Moves(c, INITIAL, Recv(NewView(1, 1, CLAIMS), Valid), r1)
    ensures Moves(c, r1, Suggest(1, 5, 1, "a"), r2)
    ensures ShapedAll(r2) && !MayClose(r2, 0, 2) && r3 == Step(c, r2, LedgerClosed(0, 2))
    ensures Moves(c, r3, Suggest(1, 5, 1, "b"), r4)
    ensures !SingleVote(r4.sent)
  {
    c := OneOfFour(2);
    assert !Leads(c, 1) && !Primary(c, 1);
    hide Leads, Primary, Step, SingleVote, MayClose, Moves;
    r1, r2 := BeforeJump(c);
    r3, r4 := AfterJump(c, r2);
    var x := Prepare(Vote(1, 5, 2, "a"));
    CutsOff(r2, x);
    TwoDigests(r4.sent, x, Prepare(Vote(1, 5, 2, "b")));
  }

  lemma ThreeClaims(claims: seq<ViewClaim>)
    requires claims == [ViewClaim(1, 0), ViewClaim(1, 1), ViewClaim(1, 3)]
    ensures |set k | 0 <= k < |claims| :: claims[k].replica| == 3
  {
    var ids := set k | 0 <= k < |claims| :: claims[k].replica;
    assert claims[0].replica in ids && claims[1].replica in ids && claims[2].replica in ids;
    assert ids == {0, 1, 3};
  }

  // ---- Commits that arrive after the view has changed ----

  const I: Index := Index(0, 2)

  function Late(replica: int): Event
  {
    Recv(Commit(Vote(0, 2, replica, "a")), Valid)
  }

  /** The whole replica is the one instance at (0, 2). */
  predicate Holds(r: Replica, view: int, inst: Instance)
  {
    r.view == view && r.active && r.lastExe == 1 && r.instances == map[I := inst] && r.log == [] && Shaped(inst)
  }

  /** A backup's instance after the proposal of "a", and after prepares from replicas 0 and 1. */
  const SUGGESTED: Instance := Requested(Proposal(0, 2, 0, "a", "a")).(own := None)

  const PLEDGED: Instance := SUGGESTED.(
    item := 1, prepares := map[0 := Vote(0, 2, 0, "a")],
    buf := [[PrePrepare(Proposal(0, 2, 0, "a", "a"))], [Prepare(Vote(0, 2, 0, "a"))], [], []])

  const READY: Instance := SUGGESTED.(
    phase := PREPARED, prepares := map[0 := Vote(0, 2, 0, "a"), 1 := Vote(0, 2, 1, "a")], commitSent := true,
    buf := [[PrePrepare(Proposal(0, 2, 0, "a", "a"))], [Prepare(Vote(0, 2, 0, "a")), Prepare(Vote(0, 2, 1, "a"))], [], []])

  lemma SuggestedHolds(c: Node)
    requires !Leads(c, 0) && c.hash("a") == "a"
    ensures Holds(Step(c, INITIAL, Suggest(0, 2, 0, "a")), 0, SUGGESTED)
  {
    var p := Proposal(0, 2, 0, "a", "a");
    var ready := Buffered(FRESH, PrePrepare(p));
    assert FRESH.buf[NONE] + [PrePrepare(p)] == SUGGESTED.buf[NONE];
    assert ready.buf == SUGGESTED.buf;
    assert Handle(c, false, ready.(item := 1), PrePrepare(p), Valid).inst == SUGGESTED;
    assert Drain(c, false, SUGGESTED, Valid) == Effect(SUGGESTED, []);
    assert Deliver(c, false, FRESH, PrePrepare(p), Valid).inst == SUGGESTED;
    hide Deliver, Leads, TryExecute;
  }

  lemma FirstPledge(c: Node)
    requires c.quorum == 2
    ensures Deliver(c, false, SUGGESTED, Prepare(Vote(0, 2, 0, "a")), Valid) == Effect(PLEDGED, [])
  {
    var e := Prepare(Vote(0, 2, 0, "a"));
    var ready := Buffered(SUGGESTED, e);
    assert Recorded(ready.prepares, e.vote) == map[0 := e.vote];
    assert |map[0 := e.vote]| == 1;
    assert SUGGESTED.buf[PREPREPARED] + [e] == PLEDGED.buf[PREPREPARED];
    assert ready.buf == PLEDGED.buf;
    assert Handle(c, false, ready.(item := 1), e, Valid) == Effect(PLEDGED, []);
    assert Drain(c, false, PLEDGED, Valid) == Effect(PLEDGED, []);
  }

  lemma SecondPledge(c: Node)
    requires c.quorum == 2
    ensures Deliver(c, false, PLEDGED, Prepare(Vote(0, 2, 1, "a")), Valid).inst == READY
  {
    var e := Prepare(Vote(0, 2, 1, "a"));
    var ready := Buffered(PLEDGED, e);
    assert Recorded(ready.prepares, e.vote) == READY.prepares;
    assert |READY.prepares| == 2 by { assert READY.prepares.Keys == {0, 1}; }
    assert PLEDGED.buf[PREPREPARED] + [e] == READY.buf[PREPREPARED];
    assert ready.buf == READY.buf;
    assert Handle(c, false, ready.(item := 2), e, Valid).inst == READY;
    assert Drain(c, false, READY, Valid) == Effect(READY, []);
  }

  /** A prepare of the current view that does not commit the instance. */
  lemma PledgeHolds(c: Node, r: Replica, replica: int, before: Instance, after: Instance)
    requires Holds(r, 0, before) && !Leads(c, 0) && after.phase < COMMITED && Shaped(after)
    requires Deliver(c, false, before, Prepare(Vote(0, 2, replica, "a")), Valid).inst == after
    ensures ShapedAll(r) && Holds(Step(c, r, Pledge(0, 2, replica, "a")), 0, after)
  {
    hide Deliver, Leads, TryExecute;
    assert r.instances[I := after] == map[I := after];
  }

  lemma ReadySurvives(c: Node, r: Replica)
    requires Holds(r, 0, READY) && c.quorum == 2 && !Primary(c, 1)
    ensures ShapedAll(r) && Holds(Step(c, r, Recv(NewView(1, 1, CLAIMS), Valid)), 1, READY)
  {
    hide Primary;
    ThreeClaims(CLAIMS);
    assert Survivors(r) == r.instances;
    assert OnNewView(c, r, 1, CLAIMS) == EnterView(r, 1);
  }

  /** A late commit below the quorum is recorded and not buffered. */
  lemma LateHolds(c: Node, r: Replica, replica: int, before: Instance)
    requires Holds(r, 1, before) && c.quorum == 2 && before.phase == PREPARED && before.digest == "a"
    requires replica !in before.commits && |before.commits| < 2
    ensures var commits := before.commits[replica := Vote(0, 2, replica, "a")];
            ShapedAll(r) && Holds(Step(c, r, Late(replica)), 1, before.(commits := commits))
  {
    hide TryExecute;
    var v := Vote(0, 2, replica, "a");
    assert |before.commits[replica := v]| == |before.commits| + 1 by {
      assert before.commits[replica := v].Keys == before.commits.Keys + {replica};
    }
    var after := before.(commits := before.commits[replica := v]);
    assert r.instances[I := after] == map[I := after];
  }

  /** The last one commits and executes the instance; its buffer of commits is empty. */
  lemma LastLate(c: Node, r: Replica, replica: int, before: Instance)
    requires Holds(r, 1, before) && c.quorum == 2 && before.phase == PREPARED && before.digest == "a" && before.buf[PREPARED] == []
    requires replica !in before.commits && |before.commits| == 2
    ensures ShapedAll(r)
    ensures var r' := Step(c, r, Late(replica));
            |r'.log| == 1 && r'.log[0].index == I && r'.log[0].inst.phase == COMMITED && r'.log[0].proof == []
  {
    var inst := OnCommit(c, before, Vote(0, 2, replica, "a"));
    LateCommits(c, before, Vote(0, 2, replica, "a"));
    LateStep(c, r, replica, before, inst);
    hide TryExecute, OnCommit, Step, Holds;
    ExecutesAlone(r.(instances := map[I := inst]), inst);
  }

  lemma LateCommits(c: Node, before: Instance, v: Vote)
    requires Shaped(before) && c.quorum == 2 && before.phase == PREPARED && before.digest == v.digest
    requires v.replica !in before.commits && |before.commits| == 2
    ensures var inst := OnCommit(c, before, v);
            inst.phase == COMMITED && inst.buf == before.buf && Shaped(inst)
  {
    assert |before.commits[v.replica := v]| == 3 by {
      assert before.commits[v.replica := v].Keys == before.commits.Keys + {v.replica};
    }
  }

  lemma LateStep(c: Node, r: Replica, replica: int, before: Instance, inst: Instance)
    requires Holds(r, 1, before) && before.phase < COMMITED
    requires inst == OnCommit(c, before, Vote(0, 2, replica, "a")) && inst.phase == COMMITED && Shaped(inst)
    ensures var next := r.(instances := map[I := inst]);
            && ShapedAll(r) && ShapedAll(next) && next.lastExe == 1 && next.log == []
            && Step(c, r, Late(replica)) == TryExecute(next, next.instances.Keys)
  {
    hide TryExecute, OnCommit;
    assert r.instances[I := inst] == map[I := inst];
  }

  lemma ExecutesAlone(r: Replica, inst: Instance)
    requires Shaped(inst) && inst.phase == COMMITED && r.lastExe == 1 && r.instances == map[I := inst] && r.log == []
    ensures ShapedAll(r) && r.instances.Keys == {I}
    ensures var r' := TryExecute(r, r.instances.Keys);
            |r'.log| == 1 && r'.log[0] == Delivery(I, inst, FirstPerSigner(inst.buf[PREPARED]))
  {
    assert r.instances.Keys == {I};
    assert Least({I}) == I;
    assert {I} - {I} == {};
    var next := Execute(r, I);
    assert ({I} - {I}) * next.instances.Keys == {};
    assert TryExecute(next, {}) == next;
  }

  lemma Permit(c: Node, r: Replica, e: Env)
    requires c.n == 4 && c.self == 2 && 0 <= Sender(e) < 4 && Sender(e) != 2
    ensures Permitted(c, r, Recv(e, Valid))
  {
  }

  lemma PledgeFacts(c: Node)
    requires c.quorum == 2
    ensures Shaped(SUGGESTED) && Shaped(PLEDGED) && PLEDGED.phase < COMMITED && Shaped(READY) && READY.phase < COMMITED
    ensures Deliver(c, false, SUGGESTED, Prepare(Vote(0, 2, 0, "a")), Valid).inst == PLEDGED
    ensures Deliver(c, false, PLEDGED, Prepare(Vote(0, 2, 1, "a")), Valid).inst == READY
  {
    FirstPledge(c);
    SecondPledge(c);
    hide Deliver;
  }

  lemma UpToReady(c: Node) returns (r1: Replica, r2: Replica, r3: Replica, r4: Replica)
    requires c.n == 4 && c.self == 2 && c.quorum == 2 && c.hash("a") == "a" && !Leads(c, 0) && !Primary(c, 1)
    ensures Moves(c, INITIAL, Suggest(0, 2, 0, "a"), r1)
    ensures Moves(c, r1, Pledge(0, 2, 0, "a"), r2)
    ensures Moves(c, r2, Pledge(0, 2, 1, "a"), r3)
    ensures Moves(c, r3, Recv(NewView(1, 1, CLAIMS), Valid), r4)
    ensures Holds(r4, 1, READY)
  {
    hide Step, Leads, Primary, Deliver, Holds, Permitted, SUGGESTED, PLEDGED, READY, CLAIMS;
    PledgeFacts(c);
    SuggestedHolds(c);
    r1 := Step(c, INITIAL, Suggest(0, 2, 0, "a"));
    Permit(c, INITIAL, PrePrepare(Proposal(0, 2, 0, "a", "a")));
    PledgeHolds(c, r1, 0, SUGGESTED, PLEDGED);
    Permit(c, r1, Prepare(Vote(0, 2, 0, "a")));
    r2 := Step(c, r1, Pledge(0, 2, 0, "a"));
    PledgeHolds(c, r2, 1, PLEDGED, READY);
    Permit(c, r2, Prepare(Vote(0, 2, 1, "a")));
    r3 := Step(c, r2, Pledge(0, 2, 1, "a"));
    ReadySurvives(c, r3);
    Permit(c, r3, NewView(1, 1, CLAIMS));
    r4 := Step(c, r3, Recv(NewView(1, 1, CLAIMS), Valid));
  }

  lemma ReadyFacts()
    ensures READY.phase == PREPARED && READY.digest == "a" && Shaped(READY) && READY.buf[PREPARED] == [] && READY.commits == map[]
  {
  }

  lemma LateRun(c: Node, r4: Replica) returns (r5: Replica, r6: Replica, r7: Replica)
    requires c.n == 4 && c.self == 2 && c.quorum == 2 && Holds(r4, 1, READY)
    ensures Moves(c, r4, Late(0), r5) && Moves(c, r5, Late(1), r6) && Moves(c, r6, Late(3), r7)
    ensures |r7.log| == 1 && r7.log[0].inst.phase == COMMITED && r7.log[0].proof == []
  {
    ReadyFacts();
    hide Step, Holds, READY, Permitted;
    var v, w := Vote(0, 2, 0, "a"), Vote(0, 2, 1, "a");
    var one := READY.(commits := READY.commits[0 := v]);
    var two := one.(commits := one.commits[1 := w]);
    assert |one.commits| == 1 && |two.commits| == 2 by {
      assert one.commits.Keys == {0} && two.commits.Keys == {0, 1};
    }
    LateHolds(c, r4, 0, READY);
    Permit(c, r4, Commit(v));
    r5 := Step(c, r4, Late(0));
    LateHolds(c, r5, 1, one);
    Permit(c, r5, Commit(w));
    r6 := Step(c, r5, Late(1));
    LastLate(c, r6, 3, two);
    Permit(c, r6, Commit(Vote(0, 2, 3, "a")));
    r7 := Step(c, r6, Late(3));
  }

  /** A backup prepares in view 0, enters view 1, and only then receives the commits of view 0:
      they commit and execute the instance, and the proof handed over with it is empty. */
  lemma LateCommitsLeaveNoProof()
    returns (c: Node, r1: Replica, r2: Replica, r3: Replica, r4: Replica, r5: Replica, r6: Replica, r7: Replica)
    ensures c.n == 4 && Moves(c, INITIAL, Suggest(0, 2, 0, "a"), r1)
    ensures Moves(c, r1, Pledge(0, 2, 0, "a"), r2)
    ensures Moves(c, r2, Pledge(0, 2, 1, "a"), r3)
    ensures Moves(c, r3, Recv(NewView(1, 1, CLAIMS), Valid), r4)
    ensures Moves(c, r4, Late(0), r5) && Moves(c, r5, Late(1), r6) && Moves(c, r6, Late(3), r7)
    ensures |r7.log| == 1 && r7.log[0].inst.phase == COMMITED && !Convincing(c.n, r7.log[0].inst.digest, r7.log[0].proof)
  {
    c := OneOfFour(2);
    assert !Leads(c, 0) && !Primary(c, 1);
    hide Moves, Holds, Leads, Primary, READY;
    r1, r2, r3, r4 := UpToReady(c);
    r5, r6, r7 := LateRun(c, r4);
  }
}
