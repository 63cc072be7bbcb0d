/** Delivery-order independence: the buffered, phase-driven instance, of a backup or of the
    primary that proposed, ends in the phase that plain counting over the delivered messages
    predicts, whatever the order and however often messages are repeated. */
module PbftDelivery {
  import opened Options
  import opened Quorum
  import opened PbftInstance

  /** A message that reaches the instance, with the verdict `CheckValue` gave. */
  datatype Arrival = Arrival(e: Env, check: Check)

  predicate AllPhased(ms: seq<Arrival>)
  {
    forall a :: a in ms ==> Phased(a.e)
  }

  /** A backup's instance starts empty; the primary's starts with its own proposal. */
  function Start(own: Option<Proposal>): (inst: Instance)
    ensures Shaped(inst)
  {
    if own.Some? then Requested(own.value) else FRESH
  }

  /** The instance after a whole sequence of arrivals, at a backup or, if it has a proposal of
      its own, at the primary. */
  function Run(c: Node, own: Option<Proposal>, ms: seq<Arrival>): (inst: Instance)
    requires AllPhased(ms)
    ensures Shaped(inst)
  {
    if ms == [] then Start(own)
    else
      var a := ms[|ms| - 1];
      Deliver(c, own.Some?, Run(c, own, ms[..|ms| - 1]), a.e, a.check).inst
  }

  // ---- The reference: counting, with no phases and no buffers ----

  predicate Acceptable(c: Node, a: Arrival)
  {
    a.e.PrePrepare? && a.e.proposal.digest == c.hash(a.e.proposal.value) && !a.check.Invalid?
  }

  /** The primary works on its own proposal, a backup on the first acceptable one. */
  function Accepted(c: Node, own: Option<Proposal>, ms: seq<Arrival>): Option<Proposal>
  {
    if own.Some? || ms == [] then own
    else
      var last := ms[|ms| - 1];
      match Accepted(c, own, ms[..|ms| - 1])
      case Some(p) => Some(p)
      case None => if Acceptable(c, last) then Some(last.e.proposal) else None
  }

  function PrepareVoters(ms: seq<Arrival>, d: string): set<int>
  {
    set a | a in ms && a.e.Prepare? && a.e.vote.digest == d :: a.e.vote.replica
  }

  function CommitVoters(ms: seq<Arrival>, d: string): set<int>
  {
    set a | a in ms && a.e.Commit? && a.e.vote.digest == d :: a.e.vote.replica
  }

  /** With a single validator the quorum is 0, but a prepare must still arrive. */
  function PrepareQuorum(c: Node): nat
  {
    if c.quorum == 0 then 1 else c.quorum
  }

  function CountedPhase(c: Node, prepares: nat, commits: nat): nat
  {
    if prepares < PrepareQuorum(c) then PREPREPARED
    else if commits < c.quorum + 1 then PREPARED
    else COMMITED
  }

  function PhaseByCounting(c: Node, own: Option<Proposal>, ms: seq<Arrival>): nat
  {
    match Accepted(c, own, ms)
    case None => NONE
    case Some(p) => CountedPhase(c, |PrepareVoters(ms, p.digest)|, |CommitVoters(ms, p.digest)|)
  }

  // ---- What a buffer holds ----

  predicate Homogeneous(b: seq<Env>, t: nat)
  {
    forall k :: 0 <= k < |b| ==> Phased(b[k]) && TypeOf(b[k]) == t
  }

  predicate IsVoteFor(e: Env, d: string)
  {
    IsVote(e) && e.vote.digest == d
  }

  function Voters(b: seq<Env>, d: string): set<int>
  {
    if b == [] then {}
    else
      var e := b[|b| - 1];
      Voters(b[..|b| - 1], d) + if IsVoteFor(e, d) then {e.vote.replica} else {}
  }

  lemma VotersStep(b: seq<Env>, k: nat, d: string)
    requires k < |b|
    ensures Voters(b[..k + 1], d) == Voters(b[..k], d) + if IsVoteFor(b[k], d) then {b[k].vote.replica} else {}
  {
    assert b[..k + 1][..k] == b[..k];
  }

  lemma {:induction false} VotersGrow(b: seq<Env>, k: nat, d: string)
    requires k <= |b|
    ensures Voters(b[..k], d) <= Voters(b, d)
    ensures |Voters(b[..k], d)| <= |Voters(b, d)|
    decreases |b| - k
  {
    if k == |b| {
      assert b[..k] == b;
    } else {
      VotersStep(b, k, d);
      VotersGrow(b, k + 1, d);
      SubsetSize(Voters(b[..k], d), Voters(b, d));
    }
  }

  lemma {:induction false} VotersMember(b: seq<Env>, d: string, r: int)
    ensures r in Voters(b, d) <==> exists e :: e in b && IsVoteFor(e, d) && e.vote.replica == r
  {
    if b != [] {
      VotersMember(b[..|b| - 1], d, r);
      assert b == b[..|b| - 1] + [b[|b| - 1]];
    }
  }

  /** What one commit does to the record and the phase. */
  lemma CommitCounts(c: Node, inst: Instance, v: Vote)
    requires Shaped(inst) && inst.phase == PREPARED && |inst.commits| < c.quorum + 1
    ensures var next := OnCommit(c, inst, v);
            && next.commits.Keys == inst.commits.Keys + (if v.digest == inst.digest then {v.replica} else {})
            && next.digest == inst.digest
            && next.phase == if |next.commits| >= c.quorum + 1 then COMMITED else PREPARED
  {
    if inst.digest == v.digest && v.replica !in inst.commits {
      var commits := Recorded(inst.commits, v);
      assert OnCommit(c, inst, v).commits == commits;
    }
    hide Recorded;
  }

  lemma PrepareCounts(c: Node, inst: Instance, v: Vote)
    requires Shaped(inst) && inst.phase == PREPREPARED && |inst.prepares| < PrepareQuorum(c)
    ensures var next := OnPrepare(c, inst, v).inst;
            && next.prepares.Keys == inst.prepares.Keys + (if v.digest == inst.digest then {v.replica} else {})
            && next.digest == inst.digest && next.commits == inst.commits
            && next.phase == (if |next.prepares| >= PrepareQuorum(c) then PREPARED else PREPREPARED)
            && (next.phase == PREPARED ==> next.item == 0)
  {
    if v.digest == inst.digest {
      var prepares := Recorded(inst.prepares, v);
      if |prepares| < c.quorum {
        assert OnPrepare(c, inst, v).inst == inst.(prepares := prepares);
      } else {
        assert v.replica in prepares;
        assert |prepares| >= PrepareQuorum(c);
      }
    }
  }

  lemma KeysSize(m: map<int, Vote>)
    ensures |m| == |m.Keys|
  {
  }

  // ---- The drain loop, phase by phase ----

  lemma Unrolled(c: Node, leads: bool, inst: Instance, check: Check)
    requires Shaped(inst)
    ensures Drain(c, leads, inst, check).inst ==
            if |inst.buf[inst.phase]| <= inst.item then inst
            else Drain(c, leads, Handle(c, leads, inst.(item := inst.item + 1),
                                        inst.buf[inst.phase][inst.item], check).inst, check).inst
  {
    hide Handle;
  }

  predicate AtPrepared(c: Node, inst: Instance)
  {
    && Shaped(inst) && inst.phase == PREPARED && inst.buf[COMMITED] == []
    && inst.item <= |inst.buf[PREPARED]| && Homogeneous(inst.buf[PREPARED], PREPARED)
    && inst.commits.Keys == Voters(inst.buf[PREPARED][..inst.item], inst.digest)
    && |inst.commits| < c.quorum + 1
  }

  /** One turn of the loop over the commit buffer. */
  lemma CommitTurn(c: Node, leads: bool, inst: Instance, check: Check)
    requires AtPrepared(c, inst) && inst.item < |inst.buf[PREPARED]|
    ensures var next := Handle(c, leads, inst.(item := inst.item + 1), inst.buf[PREPARED][inst.item], check).inst;
            && next.digest == inst.digest && next.buf == inst.buf
            && if next.phase == PREPARED
               then AtPrepared(c, next) && next.item == inst.item + 1
               else next.phase == COMMITED && |Voters(inst.buf[PREPARED], inst.digest)| >= c.quorum + 1
  {
    var b := inst.buf[PREPARED];
    VotersStep(b, inst.item, inst.digest);
    VotersGrow(b, inst.item + 1, inst.digest);
    assert Homogeneous(b, PREPARED) && b[inst.item].Commit?;
    CommitCounts(c, inst.(item := inst.item + 1), b[inst.item].vote);
    KeysSize(OnCommit(c, inst.(item := inst.item + 1), b[inst.item].vote).commits);
  }

  lemma {:induction false} DrainCommits(c: Node, leads: bool, inst: Instance, check: Check)
    requires AtPrepared(c, inst)
    ensures var r := Drain(c, leads, inst, check).inst;
            && r.digest == inst.digest
            && if |Voters(inst.buf[PREPARED], inst.digest)| < c.quorum + 1
               then AtPrepared(c, r)
               else r.phase == COMMITED
    decreases |inst.buf[PREPARED]| - inst.item
  {
    hide Drain, Handle, Voters;
    Unrolled(c, leads, inst, check);
    var b := inst.buf[PREPARED];
    if inst.item == |b| {
      assert b[..inst.item] == b;
    } else {
      CommitTurn(c, leads, inst, check);
      var next := Handle(c, leads, inst.(item := inst.item + 1), b[inst.item], check).inst;
      if next.phase == PREPARED {
        DrainCommits(c, leads, next, check);
      } else {
        Unrolled(c, leads, next, check);
      }
    }
  }

  predicate AtPrePrepared(c: Node, inst: Instance)
  {
    && Shaped(inst) && inst.phase == PREPREPARED && inst.buf[COMMITED] == [] && inst.commits == map[]
    && inst.item <= |inst.buf[PREPREPARED]|
    && Homogeneous(inst.buf[PREPREPARED], PREPREPARED) && Homogeneous(inst.buf[PREPARED], PREPARED)
    && inst.prepares.Keys == Voters(inst.buf[PREPREPARED][..inst.item], inst.digest)
    && |inst.prepares| < PrepareQuorum(c)
  }

  /** One turn of the loop over the prepare buffer. */
  lemma PrepareTurn(c: Node, leads: bool, inst: Instance, check: Check)
    requires AtPrePrepared(c, inst) && inst.item < |inst.buf[PREPREPARED]|
    ensures var next := Handle(c, leads, inst.(item := inst.item + 1), inst.buf[PREPREPARED][inst.item], check).inst;
            && next.digest == inst.digest && next.buf == inst.buf
            && if next.phase == PREPREPARED
               then AtPrePrepared(c, next) && next.item == inst.item + 1
               else AtPrepared(c, next) && |Voters(inst.buf[PREPREPARED], inst.digest)| >= PrepareQuorum(c)
  {
    var b := inst.buf[PREPREPARED];
    VotersStep(b, inst.item, inst.digest);
    VotersGrow(b, inst.item + 1, inst.digest);
    assert Homogeneous(b, PREPREPARED) && b[inst.item].Prepare?;
    PrepareCounts(c, inst.(item := inst.item + 1), b[inst.item].vote);
    var next := OnPrepare(c, inst.(item := inst.item + 1), b[inst.item].vote).inst;
    KeysSize(next.prepares);
    assert next.buf[PREPARED][..0] == [];
  }

  lemma {:induction false} DrainPrepares(c: Node, leads: bool, inst: Instance, check: Check)
    requires AtPrePrepared(c, inst)
    ensures var r := Drain(c, leads, inst, check).inst;
            && r.digest == inst.digest
            && r.phase == CountedPhase(c, |Voters(inst.buf[PREPREPARED], inst.digest)|,
                                          |Voters(inst.buf[PREPARED], inst.digest)|)
            && (r.phase == PREPREPARED ==> AtPrePrepared(c, r))
            && (r.phase == PREPARED ==> AtPrepared(c, r))
    decreases |inst.buf[PREPREPARED]| - inst.item
  {
    hide Drain, Handle, Voters;
    Unrolled(c, leads, inst, check);
    var b := inst.buf[PREPREPARED];
    if inst.item == |b| {
      assert b[..inst.item] == b;
    } else {
      PrepareTurn(c, leads, inst, check);
      var next := Handle(c, leads, inst.(item := inst.item + 1), b[inst.item], check).inst;
      if next.phase == PREPREPARED {
        DrainPrepares(c, leads, next, check);
      } else {
        DrainCommits(c, leads, next, check);
      }
    }
  }

  // ---- The instance tracks the count ----

  function OfType(ms: seq<Arrival>, t: nat): (b: seq<Env>)
    requires AllPhased(ms)
    ensures Homogeneous(b, t)
  {
    if ms == [] then []
    else
      var rest := OfType(ms[..|ms| - 1], t);
      var e := ms[|ms| - 1].e;
      if TypeOf(e) == t then rest + [e] else rest
  }

  lemma {:induction false} OfTypeMember(ms: seq<Arrival>, t: nat, e: Env)
    requires AllPhased(ms)
    ensures e in OfType(ms, t) <==> Phased(e) && TypeOf(e) == t && exists a :: a in ms && a.e == e
  {
    if ms != [] {
      OfTypeMember(ms[..|ms| - 1], t, e);
      assert ms == ms[..|ms| - 1] + [ms[|ms| - 1]];
    }
  }

  lemma CountsAgree(ms: seq<Arrival>, d: string)
    requires AllPhased(ms)
    ensures Voters(OfType(ms, PREPREPARED), d) == PrepareVoters(ms, d)
    ensures Voters(OfType(ms, PREPARED), d) == CommitVoters(ms, d)
  {
    hide Voters, OfType;
    forall r: int
      ensures r in Voters(OfType(ms, PREPREPARED), d) <==> r in PrepareVoters(ms, d)
      ensures r in Voters(OfType(ms, PREPARED), d) <==> r in CommitVoters(ms, d)
    {
      VotersMember(OfType(ms, PREPREPARED), d, r);
      VotersMember(OfType(ms, PREPARED), d, r);
      forall e: Env
        ensures e in OfType(ms, PREPREPARED) <==> Phased(e) && TypeOf(e) == PREPREPARED && exists a :: a in ms && a.e == e
        ensures e in OfType(ms, PREPARED) <==> Phased(e) && TypeOf(e) == PREPARED && exists a :: a in ms && a.e == e
      {
        OfTypeMember(ms, PREPREPARED, e);
        OfTypeMember(ms, PREPARED, e);
      }
    }
  }

  predicate Drained(inst: Instance)
  {
    Shaped(inst) && inst.item == |inst.buf[inst.phase]|
  }

  /** Shape of the instance once its buffers have been counted. */
  predicate Counted(c: Node, inst: Instance, accepted: Option<Proposal>)
  {
    && Shaped(inst) && inst.buf[COMMITED] == []
    && Homogeneous(inst.buf[PREPREPARED], PREPREPARED) && Homogeneous(inst.buf[PREPARED], PREPARED)
    && match accepted
       case None =>
         inst.phase == NONE && inst.prepares == map[] && inst.commits == map[] && inst.item == |inst.buf[NONE]|
       case Some(p) =>
         && inst.digest == p.digest
         && inst.phase == CountedPhase(c, |Voters(inst.buf[PREPREPARED], p.digest)|, |Voters(inst.buf[PREPARED], p.digest)|)
         && (inst.phase == PREPREPARED ==> AtPrePrepared(c, inst) && Drained(inst))
         && (inst.phase == PREPARED ==> AtPrepared(c, inst) && Drained(inst))
  }

  /** The buffers hold what arrived, each type in its own. */
  predicate BufferTracks(own: Option<Proposal>, ms: seq<Arrival>, buf: seq<seq<Env>>)
    requires AllPhased(ms)
  {
    buf == [Start(own).buf[NONE] + OfType(ms, NONE), OfType(ms, PREPREPARED), OfType(ms, PREPARED), []]
  }

  lemma BufferGrows(own: Option<Proposal>, ms: seq<Arrival>, buf: seq<seq<Env>>)
    requires ms != [] && AllPhased(ms) && BufferTracks(own, ms[..|ms| - 1], buf)
    ensures var e := ms[|ms| - 1].e;
            Phased(e) && |buf| == 4 && BufferTracks(own, ms, buf[TypeOf(e) := buf[TypeOf(e)] + [e]])
  {
    hide Start;
    var e := ms[|ms| - 1].e;
    var head := Start(own).buf[NONE];
    var before := OfType(ms[..|ms| - 1], NONE);
    assert head + (before + [e]) == head + before + [e];
  }

  predicate Tracks(c: Node, own: Option<Proposal>, ms: seq<Arrival>, inst: Instance)
    requires AllPhased(ms)
  {
    Counted(c, inst, Accepted(c, own, ms)) && BufferTracks(own, ms, inst.buf)
  }

  /** One more entry at the end of a buffer. */
  lemma VotersAppend(b: seq<Env>, e: Env, d: string)
    ensures Voters(b + [e], d) == Voters(b, d) + if IsVoteFor(e, d) then {e.vote.replica} else {}
    ensures |Voters(b + [e], d)| >= |Voters(b, d)|
    ensures (b + [e])[..|b|] == b
  {
    assert (b + [e])[..|b|] == b;
    SubsetSize(Voters(b, d), Voters(b + [e], d));
  }

  /** A delivered pre-prepare. */
  lemma DeliverProposal(c: Node, leads: bool, inst: Instance, a: Arrival, accepted: Option<Proposal>)
    requires Counted(c, inst, accepted) && a.e.PrePrepare? && (leads ==> accepted.Some?)
    ensures Counted(c, Deliver(c, leads, inst, a.e, a.check).inst,
                    if accepted.None? && Acceptable(c, a) then Some(a.e.proposal) else accepted)
  {
    hide Voters, Drain;
    var ready := Buffered(inst, a.e);
    if inst.phase == NONE {
      Unrolled(c, leads, ready, a.check);
      var next := OnPrePrepare(c, leads, ready.(item := ready.item + 1), a.e.proposal, a.check).inst;
      if Acceptable(c, a) {
        NoVoters(a.e.proposal.digest);
        assert next.buf[PREPREPARED][..0] == [];
        assert AtPrePrepared(c, next);
        DrainPrepares(c, leads, next, a.check);
      } else {
        Unrolled(c, leads, next, a.check);
      }
    }
  }

  lemma NoVoters(d: string)
    ensures Voters([], d) == {}
  {
  }

  lemma DeliverPrepare(c: Node, leads: bool, inst: Instance, a: Arrival, accepted: Option<Proposal>)
    requires Counted(c, inst, accepted) && a.e.Prepare?
    ensures Counted(c, Deliver(c, leads, inst, a.e, a.check).inst, accepted)
  {
    hide Voters, Drain, OnPrepare;
    var ready := Buffered(inst, a.e);
    VotersAppend(inst.buf[PREPREPARED], a.e, inst.digest);
    if inst.phase == NONE {
      Unrolled(c, leads, ready, a.check);
    } else if inst.phase == PREPREPARED {
      assert ready.buf[PREPREPARED][..ready.item] == inst.buf[PREPREPARED][..inst.item];
      assert AtPrePrepared(c, ready);
      DrainPrepares(c, leads, ready, a.check);
    }
  }

  lemma DeliverCommit(c: Node, leads: bool, inst: Instance, a: Arrival, accepted: Option<Proposal>)
    requires Counted(c, inst, accepted) && a.e.Commit?
    ensures Counted(c, Deliver(c, leads, inst, a.e, a.check).inst, accepted)
  {
    hide Voters, Drain;
    var ready := Buffered(inst, a.e);
    VotersAppend(inst.buf[PREPARED], a.e, inst.digest);
    if inst.phase == NONE {
      Unrolled(c, leads, ready, a.check);
    } else if inst.phase == PREPREPARED {
      assert AtPrePrepared(c, ready);
      DrainPrepares(c, leads, ready, a.check);
    } else if inst.phase == PREPARED {
      assert ready.buf[PREPARED][..ready.item] == inst.buf[PREPARED][..inst.item];
      assert AtPrepared(c, ready);
      DrainCommits(c, leads, ready, a.check);
    }
  }

  lemma {:induction false} RunTracks(c: Node, own: Option<Proposal>, ms: seq<Arrival>)
    requires AllPhased(ms)
    ensures Tracks(c, own, ms, Run(c, own, ms))
  {
    if ms == [] {
      StartCounted(c, own);
    } else {
      hide Counted, Deliver, Start, BufferTracks;
      var before, a := ms[..|ms| - 1], ms[|ms| - 1];
      RunTracks(c, own, before);
      var inst := Run(c, own, before);
      BufferGrows(own, ms, inst.buf);
      DeliverBuffer(c, own.Some?, inst, a);
      match a.e
      case PrePrepare(_) => DeliverProposal(c, own.Some?, inst, a, Accepted(c, own, before));
      case Prepare(_) => DeliverPrepare(c, own.Some?, inst, a, Accepted(c, own, before));
      case Commit(_) => DeliverCommit(c, own.Some?, inst, a, Accepted(c, own, before));
    }
  }

  lemma StartCounted(c: Node, own: Option<Proposal>)
    ensures Counted(c, Start(own), own) && BufferTracks(own, [], Start(own).buf)
  {
    if own.Some? { NoVoters(own.value.digest); }
    assert Start(own).buf[NONE] + [] == Start(own).buf[NONE];
  }

  lemma DeliverBuffer(c: Node, leads: bool, inst: Instance, a: Arrival)
    requires Shaped(inst) && Phased(a.e)
    ensures Deliver(c, leads, inst, a.e, a.check).inst.buf
         == inst.buf[TypeOf(a.e) := inst.buf[TypeOf(a.e)] + [a.e]]
  {
  }

  // ---- Main results ----

  /** An instance is in exactly the phase that counting distinct votes for the proposal it works
      on gives, after any sequence of messages; and its current buffer has been consumed to the end. */
  lemma PhaseIsCounted(c: Node, own: Option<Proposal>, ms: seq<Arrival>)
    requires AllPhased(ms)
    ensures Run(c, own, ms).phase == PhaseByCounting(c, own, ms)
    ensures Run(c, own, ms).phase < COMMITED ==> Drained(Run(c, own, ms))
    ensures forall p :: Accepted(c, own, ms) == Some(p) ==> Run(c, own, ms).digest == p.digest
  {
    RunTracks(c, own, ms);
    match Accepted(c, own, ms)
    case None =>
    case Some(p) => CountsAgree(ms, p.digest);
  }

  /** Order and duplication do not matter: two deliveries of the same messages that work on the
      same proposal end in the same phase. */
  lemma DeliveryOrderIrrelevant(c: Node, own: Option<Proposal>, xs: seq<Arrival>, ys: seq<Arrival>)
    requires AllPhased(xs) && AllPhased(ys)
    requires forall a :: a in xs <==> a in ys
    requires Accepted(c, own, xs) == Accepted(c, own, ys)
    ensures Run(c, own, xs).phase == Run(c, own, ys).phase
  {
    PhaseIsCounted(c, own, xs);
    PhaseIsCounted(c, own, ys);
    match Accepted(c, own, xs)
    case None =>
    case Some(p) =>
      assert PrepareVoters(xs, p.digest) == PrepareVoters(ys, p.digest);
      assert CommitVoters(xs, p.digest) == CommitVoters(ys, p.digest);
  }

  /** Enough votes commit the instance, however they were interleaved. */
  lemma QuorumCommits(c: Node, own: Option<Proposal>, ms: seq<Arrival>, p: Proposal, prepares: set<int>, commits: set<int>)
    requires AllPhased(ms) && c.quorum >= 1 && Accepted(c, own, ms) == Some(p)
    requires |prepares| >= c.quorum && |commits| >= c.quorum + 1
    requires prepares <= PrepareVoters(ms, p.digest) && commits <= CommitVoters(ms, p.digest)
    ensures Run(c, own, ms).phase == COMMITED && Run(c, own, ms).digest == p.digest
  {
    PhaseIsCounted(c, own, ms);
    SubsetSize(prepares, PrepareVoters(ms, p.digest));
    SubsetSize(commits, CommitVoters(ms, p.digest));
  }
}
