/** The two guards are exact: a replica that proposes or closes against them can be led, by
    genuine messages alone, to vote for two digests at one index. */
module PbftGuards {
  import opened PbftInstance
  import opened PbftReplica
  import opened PbftInvariant

  /** From r the replica gets to r' by receiving genuine messages and nothing else. */
  ghost predicate Reaches(c: Node, r: Replica, evs: seq<Event>, r': Replica)
    decreases |evs|
  {
    if evs == [] then r' == r
    else
      && ShapedAll(r) && evs[0].Recv? && Genuine(c, r, evs[0].e)
      && Reaches(c, Step(c, r, evs[0]), evs[1..], r')
  }

  /** Whatever arrives, no index ever gets votes for two digests. */
  ghost predicate NeverVotesTwice(c: Node, r: Replica)
  {
    forall evs, r' :: Reaches(c, r, evs, r') ==> SingleVote(r'.sent)
  }

  lemma {:induction false} ReachesOk(c: Node, r: Replica, evs: seq<Event>, r': Replica)
    requires ReplicaOk(c, r) && Reaches(c, r, evs, r')
    ensures SingleVote(r'.sent)
    decreases |evs|
  {
    if evs != [] {
      hide Step, ReplicaOk;
      StepOk(c, r, evs[0]);
      ReachesOk(c, Step(c, r, evs[0]), evs[1..], r');
    }
  }

  lemma OkNeverVotesTwice(c: Node, r: Replica)
    requires ReplicaOk(c, r)
    ensures NeverVotesTwice(c, r)
  {
    hide ReplicaOk, Reaches;
    forall evs, r' | Reaches(c, r, evs, r')
      ensures SingleVote(r'.sent)
    {
      ReachesOk(c, r, evs, r');
    }
  }

  lemma ReachesMore(c: Node, r: Replica, ev: Event, evs: seq<Event>, r': Replica)
    requires ShapedAll(r) && ev.Recv? && Genuine(c, r, ev.e) && Reaches(c, Step(c, r, ev), evs, r')
    ensures Reaches(c, r, [ev] + evs, r')
  {
    hide Step;
    assert ([ev] + evs)[1..] == evs;
  }

  lemma TwoVotes(c: Node, r: Replica, evs: seq<Event>, r': Replica, a: Env, b: Env)
    requires Reaches(c, r, evs, r') && a in r'.sent && b in r'.sent
    requires IsVote(a) && IsVote(b) && IndexOf(a) == IndexOf(b) && a.vote.digest != b.vote.digest
    ensures !NeverVotesTwice(c, r)
  {
    hide Reaches;
    assert !SingleVote(r'.sent);
  }

  // ---- A second proposal ----

  /** The k-th of the other replicas. */
  function Other(c: Node, k: nat): int
  {
    if k < c.self then k else k + 1
  }

  function Pledge(c: Node, i: Index, d: string, k: nat): Vote
  {
    Vote(i.view, i.sequence, Other(c, k), d)
  }

  /** The primary works on digest d at its next sequence, with prepares from the first k others. */
  predicate Waits(c: Node, r: Replica, i: Index, d: string, k: nat)
  {
    && ShapedAll(r) && r.active && r.view == i.view && i.sequence == r.lastExe + 1 && i in r.instances
    && var inst := r.instances[i];
       && inst.phase == PREPREPARED && inst.digest == d && inst.check.Valid?
       && inst.item == |inst.buf[PREPREPARED]| && inst.buf[PREPARED] == []
       && |inst.prepares| == k && forall j :: j in inst.prepares ==> exists m :: 0 <= m < k && j == Other(c, m)
  }

  /** One prepare: it is counted, and the last one needed is answered by a commit. */
  lemma PrepareArrives(c: Node, leads: bool, inst: Instance, v: Vote)
    requires Shaped(inst) && inst.phase == PREPREPARED && inst.digest == v.digest && inst.check.Valid?
    requires inst.item == |inst.buf[PREPREPARED]| && inst.buf[PREPARED] == [] && v.replica !in inst.prepares
    ensures var eff := Deliver(c, leads, inst, Prepare(v), Valid);
            var counted := inst.prepares[v.replica := v];
            if |inst.prepares| + 1 < c.quorum
            then eff.out == [] && eff.inst == Buffered(inst, Prepare(v)).(item := inst.item + 1, prepares := counted)
            else eff.inst.phase == PREPARED && Commit(Vote(v.view, v.sequence, c.self, v.digest)) in eff.out
  {
    var ready := Buffered(inst, Prepare(v));
    var counted := Recorded(inst.prepares, v);
    assert counted == inst.prepares[v.replica := v] && |counted| == |inst.prepares| + 1;
    var step := OnPrepare(c, ready.(item := inst.item + 1), v);
    assert ready.buf[PREPREPARED][inst.item] == Prepare(v);
    assert Drain(c, leads, step.inst, Valid) == Effect(step.inst, []);
    assert Drain(c, leads, ready, Valid) == Effect(step.inst, step.out + []);
    assert step.out + [] == step.out;
  }

  lemma PrepareReceived(c: Node, r: Replica, i: Index, d: string, k: nat)
    requires Waits(c, r, i, d, k) && k + 1 < c.n
    ensures var e := Prepare(Pledge(c, i, d, k));
            var r' := Step(c, r, Recv(e, Valid));
            && Genuine(c, r, e) && r.sent <= r'.sent && ShapedAll(r')
            && if k + 1 < c.quorum then Waits(c, r', i, d, k + 1) else Commit(OwnVote(c, i, d)) in r'.sent
  {
    var v := Pledge(c, i, d, k);
    var inst := r.instances[i];
    PrepareArrives(c, Leads(c, r.view), inst, v);
    hide Deliver, Leads, TryExecute;
    var eff := Deliver(c, Leads(c, r.view), inst, Prepare(v), Valid);
    assert Opened(r.instances, i) == r.instances;
    assert Step(c, r, Recv(Prepare(v), Valid))
           == r.(instances := r.instances[i := eff.inst], sent := r.sent + Emitted(eff.out));
  }

  /** Prepares from the others, one after the other, end in a commit. */
  lemma {:induction false} PreparesEndInCommit(c: Node, r: Replica, i: Index, d: string, k: nat)
    returns (evs: seq<Event>, r': Replica)
    requires Waits(c, r, i, d, k) && k + 1 < c.n && c.quorum < c.n
    ensures Reaches(c, r, evs, r') && r.sent <= r'.sent && Commit(OwnVote(c, i, d)) in r'.sent
    decreases c.n - k
  {
    hide Step, Waits, Reaches;
    var ev := Recv(Prepare(Pledge(c, i, d, k)), Valid);
    WaitsShaped(c, r, i, d, k);
    PrepareReceived(c, r, i, d, k);
    var next := Step(c, r, ev);
    if k + 1 < c.quorum {
      evs, r' := PreparesEndInCommit(c, next, i, d, k + 1);
    } else {
      evs, r' := [], next;
      NothingArrives(c, next);
    }
    ReachesMore(c, r, ev, evs, r');
    evs := [ev] + evs;
  }

  lemma WaitsShaped(c: Node, r: Replica, i: Index, d: string, k: nat)
    requires Waits(c, r, i, d, k)
    ensures ShapedAll(r)
  {
  }

  lemma NothingArrives(c: Node, r: Replica)
    ensures Reaches(c, r, [], r)
  {
  }

  /** With company, the others' prepares lead to a commit; alone, its own proposal to a prepare. */
  lemma ProposalVoted(c: Node, r: Replica, value: string) returns (evs: seq<Event>, r': Replica, e: Env)
    requires ShapedAll(r) && Primary(c, r.view) && r.active && c.quorum < c.n
    ensures Reaches(c, Request(c, r, value), evs, r') && r.sent <= r'.sent && e in r'.sent
    ensures IsVote(e) && IndexOf(e) == Index(r.view, r.lastExe + 1) && e.vote.digest == c.hash(value)
  {
    var i := Index(r.view, r.lastExe + 1);
    var p := Proposal(i.view, i.sequence, c.self, value, c.hash(value));
    var r1 := Request(c, r, value);
    assert r1.instances[i] == Requested(p) && PrePrepare(p) in r1.sent;
    if c.n == 1 {
      var ev := Recv(PrePrepare(p), Valid);
      AloneAnswers(c, r1, i, p);
      NothingArrives(c, Step(c, r1, ev));
      ReachesMore(c, r1, ev, [], Step(c, r1, ev));
      evs, r', e := [ev] + [], Step(c, r1, ev), Prepare(OwnVote(c, i, p.digest));
    } else {
      assert Waits(c, r1, i, p.digest, 0);
      hide Reaches, Waits, Request;
      evs, r' := PreparesEndInCommit(c, r1, i, p.digest, 0);
      e := Commit(OwnVote(c, i, p.digest));
    }
  }

  lemma AloneAnswers(c: Node, r: Replica, i: Index, p: Proposal)
    requires c.n == 1 && ShapedAll(r) && r.active && r.view == i.view && i.sequence == r.lastExe + 1 && i in r.instances
    requires r.instances[i] == Requested(p) && p.digest == c.hash(p.value) && PrePrepare(p) in r.sent
    requires p.replica == c.self && Index(p.view, p.sequence) == i
    ensures var r' := Step(c, r, Recv(PrePrepare(p), Valid));
            Genuine(c, r, PrePrepare(p)) && r.sent <= r'.sent && Prepare(OwnVote(c, i, p.digest)) in r'.sent
  {
    hide TryExecute;
    var eff := Deliver(c, Leads(c, r.view), r.instances[i], PrePrepare(p), Valid);
    assert eff.out == [Prepare(OwnVote(c, i, p.digest))];
  }

  /** A proposal keeps the replica from ever voting twice exactly when `MayPropose` holds. */
  lemma ProposalGuardExact(c: Node, r: Replica, value: string)
    requires ReplicaOk(c, r) && ShapedAll(r) && c.quorum < c.n
    ensures NeverVotesTwice(c, Request(c, r, value)) <==> MayPropose(c, r, value)
  {
    hide ReplicaOk, NeverVotesTwice, Reaches, Request, Primary, OwnVote;
    RequestOk(c, r, value);
    if MayPropose(c, r, value) {
      OkNeverVotesTwice(c, Request(c, r, value));
    } else {
      var e :| e in r.sent && IsVote(e) && IndexOf(e) == Index(r.view, r.lastExe + 1) && e.vote.digest != c.hash(value);
      var evs, r', e' := ProposalVoted(c, r, value);
      TwoVotes(c, Request(c, r, value), evs, r', e, e');
    }
  }

  // ---- A ledger close ----

  lemma FreshAnswers(c: Node, p: Proposal)
    requires p.digest == c.hash(p.value)
    ensures var eff := Deliver(c, false, FRESH, PrePrepare(p), Valid);
            eff.out == [Prepare(OwnVote(c, Index(p.view, p.sequence), p.digest))] && eff.inst.phase == PREPREPARED
  {
    var ready := Buffered(FRESH, PrePrepare(p));
    assert ready.buf[NONE] == [PrePrepare(p)] && ready.buf[PREPREPARED] == [];
    var step := OnPrePrepare(c, false, ready.(item := 1), p, Valid);
    assert Drain(c, false, step.inst, Valid) == Effect(step.inst, []);
    assert Drain(c, false, ready, Valid) == Effect(step.inst, step.out + []);
    assert step.out + [] == step.out;
  }

  /** A backup without an instance at an index of its window prepares whatever the primary proposes. */
  lemma ForgottenIndex(c: Node, r: Replica, p: Proposal)
    requires ShapedAll(r) && r.active && !Primary(c, r.view) && p.view == r.view && p.replica == r.view % c.n
    requires r.lastExe < p.sequence <= r.lastExe + CKP_INTERVAL && p.digest == c.hash(p.value)
    requires Index(p.view, p.sequence) !in r.instances
    ensures var r' := Step(c, r, Recv(PrePrepare(p), Valid));
            && Genuine(c, r, PrePrepare(p)) && r.sent <= r'.sent
            && Prepare(OwnVote(c, Index(p.view, p.sequence), p.digest)) in r'.sent
  {
    hide TryExecute;
    var i := Index(p.view, p.sequence);
    FreshAnswers(c, p);
    hide Deliver;
    var eff := Deliver(c, false, FRESH, PrePrepare(p), Valid);
    var all := Opened(r.instances, i);
    assert all[i] == FRESH;
    assert Step(c, r, Recv(PrePrepare(p), Valid))
           == r.(instances := all[i := eff.inst], sent := r.sent + Emitted(eff.out));
  }

  /** What a close that cuts off a live vote leaves behind. */
  lemma CutOff(c: Node, r: Replica, view: int, sequence: int) returns (e: Env)
    requires ReplicaOk(c, r) && !MayClose(r, view, sequence)
    ensures e in r.sent && IsVote(e)
    ensures var r1 := UpdateValidators(r, view, sequence);
            var i := IndexOf(e);
            && ShapedAll(r1) && r1.active && r1.sent == r.sent && r1.view == r.view == i.view && !Primary(c, r.view)
            && r1.lastExe < i.sequence <= r1.lastExe + CKP_INTERVAL && i !in r1.instances
  {
    OkIsShaped(c, r);
    e :| e in r.sent && IsVote(e) && IndexOf(e).view == r.view && IndexOf(e).sequence > sequence && sequence > 0
         && !(IndexOf(e) in r.instances && r.instances[IndexOf(e)].phase == COMMITED);
    if Primary(c, r.view) { LiveVotesOfPrimary(c, r, e); }
    hide InstOk, LogOk, Primary;
  }

  /** A ledger close keeps the replica from ever voting twice exactly when `MayClose` holds. */
  lemma CloseGuardExact(c: Node, r: Replica, view: int, sequence: int, x: string, y: string)
    requires ReplicaOk(c, r) && c.hash(x) != c.hash(y)
    ensures NeverVotesTwice(c, UpdateValidators(r, view, sequence)) <==> MayClose(r, view, sequence)
  {
    hide ReplicaOk, NeverVotesTwice, Reaches, UpdateValidators, MayClose, OwnVote;
    UpdateValidatorsOk(c, r, view, sequence);
    var r1 := UpdateValidators(r, view, sequence);
    if MayClose(r, view, sequence) {
      OkNeverVotesTwice(c, r1);
    } else {
      var e := CutOff(c, r, view, sequence);
      var i := IndexOf(e);
      var value := if c.hash(x) == e.vote.digest then y else x;
      var p := Proposal(i.view, i.sequence, r.view % c.n, value, c.hash(value));
      var ev := Recv(PrePrepare(p), Valid);
      ForgottenIndex(c, r1, p);
      NothingArrives(c, Step(c, r1, ev));
      ReachesMore(c, r1, ev, [], Step(c, r1, ev));
      VoteOf(c, i, p.digest);
      TwoVotes(c, r1, [ev] + [], Step(c, r1, ev), e, Prepare(OwnVote(c, i, p.digest)));
    }
  }

  lemma VoteOf(c: Node, i: Index, d: string)
    ensures IndexOf(Prepare(OwnVote(c, i, d))) == i && OwnVote(c, i, d).digest == d
  {
  }
}
