/** What every step of a correct replica keeps, and the single-vote property that
    follows: it never votes for two digests at one (view, sequence). */
module PbftInvariant {
  import opened Quorum
  import opened PbftInstance
  import opened PbftProof
  import opened PbftReplica

  // ---- One instance ----

  predicate VotesFor(i: Index, d: string, votes: map<int, Vote>)
  {
    forall k :: k in votes ==> votes[k] == Vote(i.view, i.sequence, k, d)
  }

  /** A buffered message belongs here, and is genuine if it names this replica. */
  predicate Belongs(c: Node, i: Index, t: nat, e: Env, sent: set<Env>)
  {
    Phased(e) && TypeOf(e) == t && IndexOf(e) == i && 0 <= Sender(e) < c.n && (Sender(e) == c.self ==> e in sent)
  }

  predicate BuffersOk(c: Node, i: Index, buf: seq<seq<Env>>, sent: set<Env>)
  {
    forall t, k :: 0 <= t < |buf| && 0 <= k < |buf[t]| ==> Belongs(c, i, t, buf[t][k], sent)
  }

  function Proposed(c: Node, sent: set<Env>): set<Index>
  {
    set e | e in sent && e.PrePrepare? && e.proposal.replica == c.self :: IndexOf(e)
  }

  function OwnVote(c: Node, i: Index, d: string): Vote
  {
    Vote(i.view, i.sequence, c.self, d)
  }

  /** The invariant of an instance at index i; `live` says that i is of the current view. */
  predicate InstOk(c: Node, i: Index, inst: Instance, sent: set<Env>, live: bool)
  {
    && Shaped(inst)
    && BuffersOk(c, i, inst.buf, sent)
    && VotesFor(i, inst.digest, inst.prepares)
    && VotesFor(i, inst.digest, inst.commits)
    && (inst.phase == NONE ==>
          inst.digest == "" && inst.value == "" && inst.prepares == map[] && !inst.commitSent && (live ==> inst.commits == map[]))
    && (inst.phase != NONE ==> inst.digest == c.hash(inst.value) || (!live && inst.digest == "" && inst.value == ""))
    && (inst.phase == COMMITED ==> |inst.commits| >= c.quorum + 1)
    && (inst.commitSent ==> Commit(OwnVote(c, i, inst.digest)) in sent)
    && (inst.own.Some? ==> PrePrepare(inst.own.value) in sent)
    && (inst.phase != NONE && live && Primary(c, i.view) ==> i in Proposed(c, sent))
  }

  lemma InstOkMono(c: Node, i: Index, inst: Instance, sent: set<Env>, sent': set<Env>, live: bool, live': bool)
    requires InstOk(c, i, inst, sent, live) && sent <= sent' && (live' ==> live)
    ensures InstOk(c, i, inst, sent', live')
  {
    hide Primary;
    forall t, k | 0 <= t < |inst.buf| && 0 <= k < |inst.buf[t]|
      ensures Belongs(c, i, t, inst.buf[t][k], sent')
    {
      assert Belongs(c, i, t, inst.buf[t][k], sent);
    }
  }

  lemma FreshOk(c: Node, i: Index, sent: set<Env>, live: bool)
    ensures InstOk(c, i, FRESH, sent, live)
  {
  }

  /** The messages an instance sends are this replica's votes for the instance's digest. */
  predicate OwnVotes(c: Node, i: Index, inst: Instance, out: seq<Env>)
  {
    forall e :: e in out ==>
      inst.phase != NONE && (e == Prepare(OwnVote(c, i, inst.digest)) || e == Commit(OwnVote(c, i, inst.digest)))
  }

  predicate KeepsDigest(before: Instance, after: Instance)
  {
    before.phase != NONE ==> after.phase != NONE && after.digest == before.digest
  }

  predicate GoodEffect(c: Node, i: Index, before: Instance, eff: Effect, sent: set<Env>)
  {
    && InstOk(c, i, eff.inst, sent + Emitted(eff.out), true)
    && OwnVotes(c, i, eff.inst, eff.out)
    && KeepsDigest(before, eff.inst)
  }

  lemma PrePrepareOk(c: Node, i: Index, inst: Instance, p: Proposal, check: Check, sent: set<Env>)
    requires InstOk(c, i, inst, sent, true) && Belongs(c, i, NONE, PrePrepare(p), sent)
    ensures GoodEffect(c, i, inst, OnPrePrepare(c, Leads(c, i.view), inst, p, check), sent)
  {
    var eff := OnPrePrepare(c, Leads(c, i.view), inst, p, check);
    InstOkMono(c, i, inst, sent, sent + Emitted(eff.out), true, true);
    if Primary(c, i.view) && !Leads(c, i.view) {
      // A single validator hears only itself.
      assert IndexOf(PrePrepare(p)) in Proposed(c, sent);
    }
  }

  lemma PrepareOk(c: Node, i: Index, inst: Instance, v: Vote, sent: set<Env>)
    requires InstOk(c, i, inst, sent, true) && inst.phase != NONE && Belongs(c, i, PREPREPARED, Prepare(v), sent)
    ensures GoodEffect(c, i, inst, OnPrepare(c, inst, v), sent)
  {
    hide Primary;
    var eff := OnPrepare(c, inst, v);
    InstOkMono(c, i, inst, sent, sent + Emitted(eff.out), true, true);
    if v.digest == inst.digest {
      assert VotesFor(i, inst.digest, Recorded(inst.prepares, v));
    }
  }

  lemma CommitOk(c: Node, i: Index, inst: Instance, v: Vote, sent: set<Env>, live: bool)
    requires InstOk(c, i, inst, sent, live) && (live ==> inst.phase != NONE)
    requires Index(v.view, v.sequence) == i
    ensures InstOk(c, i, OnCommit(c, inst, v), sent, live)
    ensures KeepsDigest(inst, OnCommit(c, inst, v))
  {
    hide Primary;
    if v.digest == inst.digest {
      assert VotesFor(i, inst.digest, Recorded(inst.commits, v));
    }
  }

  lemma HandleOk(c: Node, i: Index, inst: Instance, e: Env, check: Check, sent: set<Env>)
    requires InstOk(c, i, inst, sent, true) && Phased(e) && TypeOf(e) <= inst.phase
    requires Belongs(c, i, TypeOf(e), e, sent)
    ensures GoodEffect(c, i, inst, Handle(c, Leads(c, i.view), inst, e, check), sent)
  {
    hide InstOk, OnPrePrepare, OnPrepare, OnCommit, Leads;
    match e
    case PrePrepare(p) => PrePrepareOk(c, i, inst, p, check, sent);
    case Prepare(v) => PrepareOk(c, i, inst, v, sent);
    case Commit(v) =>
      CommitOk(c, i, inst, v, sent, true);
      InstOkMono(c, i, OnCommit(c, inst, v), sent, sent + Emitted([]), true, true);
  }

  lemma ItemIrrelevant(c: Node, i: Index, inst: Instance, item: nat, sent: set<Env>)
    requires InstOk(c, i, inst, sent, true)
    ensures InstOk(c, i, inst.(item := item), sent, true)
  {
  }

  lemma EffectsCompose(c: Node, i: Index, a: Instance, first: Effect, second: Effect, sent: set<Env>)
    requires GoodEffect(c, i, a, first, sent) && GoodEffect(c, i, first.inst, second, sent + Emitted(first.out))
    ensures GoodEffect(c, i, a, Effect(second.inst, first.out + second.out), sent)
  {
    hide InstOk;
    assert sent + Emitted(first.out) + Emitted(second.out) == sent + Emitted(first.out + second.out);
  }

  lemma {:induction false} DrainOk(c: Node, i: Index, inst: Instance, check: Check, sent: set<Env>)
    requires InstOk(c, i, inst, sent, true)
    ensures GoodEffect(c, i, inst, Drain(c, Leads(c, i.view), inst, check), sent)
    decreases COMMITED - inst.phase, |inst.buf[inst.phase]| - inst.item
  {
    hide Handle, Leads, GoodEffect, InstOk, Belongs;
    var leads := Leads(c, i.view);
    OkShape(c, i, inst, sent);
    if |inst.buf[inst.phase]| <= inst.item {
      NothingHappens(c, i, inst, sent);
    } else {
      var e := inst.buf[inst.phase][inst.item];
      var ready := inst.(item := inst.item + 1);
      ItemIrrelevant(c, i, inst, inst.item + 1, sent);
      NextBelongs(c, i, inst, sent);
      HandleOk(c, i, ready, e, check, sent);
      var step := Handle(c, leads, ready, e, check);
      EffectParts(c, i, ready, step, sent);
      DrainOk(c, i, step.inst, check, sent + Emitted(step.out));
      EffectsCompose(c, i, ready, step, Drain(c, leads, step.inst, check), sent);
      ItemForgotten(c, i, inst, inst.item + 1, Drain(c, leads, inst, check), sent);
    }
  }

  lemma OkShape(c: Node, i: Index, inst: Instance, sent: set<Env>)
    requires InstOk(c, i, inst, sent, true)
    ensures Shaped(inst)
  {
  }

  lemma NextBelongs(c: Node, i: Index, inst: Instance, sent: set<Env>)
    requires InstOk(c, i, inst, sent, true) && |inst.buf[inst.phase]| > inst.item
    ensures Belongs(c, i, inst.phase, inst.buf[inst.phase][inst.item], sent)
  {
  }

  lemma NothingHappens(c: Node, i: Index, inst: Instance, sent: set<Env>)
    requires InstOk(c, i, inst, sent, true)
    ensures GoodEffect(c, i, inst, Effect(inst, []), sent)
  {
    InstOkMono(c, i, inst, sent, sent + Emitted([]), true, true);
  }

  lemma EffectParts(c: Node, i: Index, inst: Instance, eff: Effect, sent: set<Env>)
    requires GoodEffect(c, i, inst, eff, sent)
    ensures InstOk(c, i, eff.inst, sent + Emitted(eff.out), true)
    ensures OwnVotes(c, i, eff.inst, eff.out) && KeepsDigest(inst, eff.inst)
  {
  }

  lemma ItemForgotten(c: Node, i: Index, inst: Instance, item: nat, eff: Effect, sent: set<Env>)
    requires GoodEffect(c, i, inst.(item := item), eff, sent)
    ensures GoodEffect(c, i, inst, eff, sent)
  {
    hide InstOk, OwnVotes;
  }

  /** Delivering any message to a live instance keeps its invariant; what it sends are
      votes for its digest, and a digest once accepted stays. */
  lemma DeliverOk(c: Node, i: Index, inst: Instance, e: Env, check: Check, sent: set<Env>)
    requires InstOk(c, i, inst, sent, true) && Phased(e) && Belongs(c, i, TypeOf(e), e, sent)
    ensures GoodEffect(c, i, inst, Deliver(c, Leads(c, i.view), inst, e, check), sent)
  {
    var ready := Buffered(inst, e);
    assert InstOk(c, i, ready, sent, true) by {
      hide Primary, Leads;
      forall t, k | 0 <= t < |ready.buf| && 0 <= k < |ready.buf[t]|
        ensures Belongs(c, i, t, ready.buf[t][k], sent)
      {
        if k < |inst.buf[t]| {
          assert Belongs(c, i, t, inst.buf[t][k], sent);
        }
      }
    }
    hide InstOk, Handle, Drain, Leads;
    if TypeOf(e) < ready.phase {
      HandleOk(c, i, ready, e, check, sent);
    } else {
      DrainOk(c, i, ready, check, sent);
    }
  }

  // ---- The whole replica ----

  /** Never two digests at one (view, sequence), prepares and commits taken together. */
  predicate SingleVote(sent: set<Env>)
  {
    forall a, b :: a in sent && b in sent && IsVote(a) && IsVote(b) && IndexOf(a) == IndexOf(b) ==>
      a.vote.digest == b.vote.digest
  }

  predicate InstancesOk(c: Node, r: Replica)
  {
    forall i :: i in r.instances ==>
      && i.view <= r.view && i.sequence <= r.lastExe + CKP_INTERVAL
      && InstOk(c, i, r.instances[i], r.sent, i.view == r.view)
  }

  /** A vote can no longer be repeated differently: its sequence is executed, its view is
      past, or the instance that cast it is still there with the same digest. */
  predicate Settled(r: Replica, i: Index, d: string)
  {
    || i.sequence <= r.lastExe
    || i.view < r.view
    || (i.view == r.view && i in r.instances && r.instances[i].phase != NONE && r.instances[i].digest == d)
  }

  predicate SentOk(c: Node, r: Replica)
  {
    && (forall e :: e in r.sent ==> Sender(e) == c.self)
    && (forall e :: e in r.sent && IsVote(e) ==>
          IndexOf(e).sequence <= r.lastExe + CKP_INTERVAL && Settled(r, IndexOf(e), e.vote.digest))
    && (forall i :: i in Proposed(c, r.sent) ==> i.sequence <= r.lastExe + 1)
    && SingleVote(r.sent)
  }

  predicate DeliveryOk(c: Node, d: Delivery, sent: set<Env>)
  {
    && InstOk(c, d.index, d.inst, sent, false) && d.inst.phase == COMMITED
    && d.proof == FirstPerSigner(d.inst.buf[PREPARED])
  }

  /** Values are handed over in strictly increasing sequence order. */
  predicate LogOk(c: Node, r: Replica)
  {
    && (forall k :: 0 <= k < |r.log| ==> r.log[k].index.sequence <= r.lastExe && DeliveryOk(c, r.log[k], r.sent))
    && (forall j, k :: 0 <= j < k < |r.log| ==> r.log[j].index.sequence < r.log[k].index.sequence)
  }

  predicate ReplicaOk(c: Node, r: Replica)
  {
    InstancesOk(c, r) && SentOk(c, r) && LogOk(c, r)
  }

  lemma InitialOk(c: Node)
    ensures ReplicaOk(c, INITIAL)
  {
  }

  lemma OkIsShaped(c: Node, r: Replica)
    requires InstancesOk(c, r)
    ensures ShapedAll(r)
  {
  }

  // ---- Execution ----

  lemma ExecuteOk(c: Node, r: Replica, i: Index)
    requires ReplicaOk(c, r) && i in r.instances && r.instances[i].phase == COMMITED && i.sequence == r.lastExe + 1
    ensures ReplicaOk(c, Execute(r, i))
  {
    hide InstOk, FirstPerSigner;
    OkIsShaped(c, r);
    assert Shaped(r.instances[i]) by { InstShaped(c, i, r.instances[i], r.sent, i.view == r.view); }
    var next := Execute(r, i);
    InstOkMono(c, i, r.instances[i], r.sent, r.sent, i.view == r.view, false);
  }

  lemma InstShaped(c: Node, i: Index, inst: Instance, sent: set<Env>, live: bool)
    requires InstOk(c, i, inst, sent, live)
    ensures Shaped(inst)
  {
  }

  /** `TryExecuteValue` keeps the invariant and moves nothing but the window and the log. */
  lemma {:induction false} TryExecuteOk(c: Node, r: Replica, rest: set<Index>)
    requires ReplicaOk(c, r) && rest <= r.instances.Keys && ShapedAll(r)
    ensures var r' := TryExecute(r, rest);
            && ReplicaOk(c, r')
            && r'.view == r.view && r'.active == r.active && r'.sent == r.sent && r'.outs == r.outs && r'.vcs == r.vcs
    decreases |rest|
  {
    hide ReplicaOk, Execute;
    if rest != {} {
      var i := Least(rest);
      assert rest == {i} + (rest - {i});
      if i.sequence <= r.lastExe {
        TryExecuteOk(c, r, rest - {i});
      } else if i.sequence == r.lastExe + 1 && r.instances[i].phase >= COMMITED {
        ExecuteOk(c, r, i);
        ExecuteFrame(r, i);
        var next := Execute(r, i);
        SubsetSize((rest - {i}) * next.instances.Keys, rest - {i});
        TryExecuteOk(c, next, (rest - {i}) * next.instances.Keys);
      }
    }
  }

  lemma ExecuteFrame(r: Replica, i: Index)
    requires i in r.instances && ShapedAll(r)
    ensures var r' := Execute(r, i);
            && ShapedAll(r')
            && r'.view == r.view && r'.active == r.active && r'.sent == r.sent && r'.outs == r.outs && r'.vcs == r.vcs
  {
  }

  // ---- Receiving a message of the current view ----

  lemma OpenedOk(c: Node, r: Replica, i: Index)
    requires ReplicaOk(c, r) && i.view == r.view && r.lastExe < i.sequence <= r.lastExe + CKP_INTERVAL
    ensures ReplicaOk(c, r.(instances := Opened(r.instances, i)))
  {
    hide InstOk, Proposed;
    FreshOk(c, i, r.sent, true);
  }

  /** Replacing a live instance by what a delivery made of it, and sending its votes. */
  lemma DeliveredOk(c: Node, r: Replica, i: Index, eff: Effect)
    requires ReplicaOk(c, r) && i in r.instances && i.view == r.view && i.sequence > r.lastExe
    requires GoodEffect(c, i, r.instances[i], eff, r.sent)
    ensures ReplicaOk(c, r.(instances := r.instances[i := eff.inst], sent := r.sent + Emitted(eff.out)))
  {
    hide InstOk, Proposed;
    var r' := r.(instances := r.instances[i := eff.inst], sent := r.sent + Emitted(eff.out));
    forall j | j in r'.instances
      ensures InstOk(c, j, r'.instances[j], r'.sent, j.view == r'.view)
    {
      if j != i {
        InstOkMono(c, j, r.instances[j], r.sent, r'.sent, j.view == r.view, j.view == r.view);
      }
    }
    NoNewProposals(c, i, eff, r.sent);
    VotesStaySingle(c, r, i, eff);
    forall k | 0 <= k < |r.log|
      ensures DeliveryOk(c, r'.log[k], r'.sent)
    {
      InstOkMono(c, r.log[k].index, r.log[k].inst, r.sent, r'.sent, false, false);
    }
  }

  lemma NoNewProposals(c: Node, i: Index, eff: Effect, sent: set<Env>)
    requires OwnVotes(c, i, eff.inst, eff.out)
    ensures Proposed(c, sent + Emitted(eff.out)) == Proposed(c, sent)
  {
  }

  lemma VotesStaySingle(c: Node, r: Replica, i: Index, eff: Effect)
    requires SentOk(c, r) && i in r.instances && i.view == r.view && i.sequence > r.lastExe
    requires OwnVotes(c, i, eff.inst, eff.out) && KeepsDigest(r.instances[i], eff.inst)
    ensures SingleVote(r.sent + Emitted(eff.out))
  {
    hide Proposed;
    forall a, b | a in r.sent + Emitted(eff.out) && b in r.sent + Emitted(eff.out)
                  && IsVote(a) && IsVote(b) && IndexOf(a) == IndexOf(b)
      ensures a.vote.digest == b.vote.digest
    {
      if IndexOf(a) == i {
        assert a.vote.digest == eff.inst.digest;
        assert b.vote.digest == eff.inst.digest;
      }
    }
  }

  /** A message may reach this replica: it is from a validator, and genuine if it names this replica. */
  predicate Genuine(c: Node, r: Replica, e: Env)
  {
    0 <= Sender(e) < c.n && (Sender(e) == c.self ==> e in r.sent)
  }

  // ---- Catching up ----

  lemma LateCommitOk(c: Node, r: Replica, v: Vote)
    requires ReplicaOk(c, r) && Index(v.view, v.sequence) in r.instances && v.view != r.view
    ensures var i := Index(v.view, v.sequence);
            ReplicaOk(c, r.(instances := r.instances[i := OnCommit(c, r.instances[i], v)]))
  {
    hide InstOk, OnCommit, Proposed;
    var i := Index(v.view, v.sequence);
    CommitOk(c, i, r.instances[i], v, r.sent, false);
  }

  /** The jump is safe even when it lowers the view: nothing voted on lies beyond its target. */
  lemma TraceOutOk(c: Node, r: Replica, i: Index, out: OutInstance)
    requires ReplicaOk(c, r)
    ensures ReplicaOk(c, TryTraceOut(c, r, i, out))
  {
    hide InstOk;
    var r' := TryTraceOut(c, r, i, out);
    if r' != r {
      assert r'.instances == map[];
    }
  }

  lemma TraceOutCommitOk(c: Node, r: Replica, v: Vote)
    requires ReplicaOk(c, r) && ShapedAll(r)
    requires Index(v.view, v.sequence) in r.instances ==> v.view != r.view
    ensures ReplicaOk(c, TraceOutCommit(c, r, v))
  {
    var i := Index(v.view, v.sequence);
    if i in r.instances {
      LateCommitOk(c, r, v);
      var next := r.(instances := r.instances[i := OnCommit(c, r.instances[i], v)]);
      hide ReplicaOk, OnCommit, TryExecute;
      TryExecuteOk(c, next, next.instances.Keys);
    } else {
      var out := if i in r.outs then r.outs[i] else OutInstance(v.digest, map[]);
      var out' := out.(commits := Recorded(out.commits, v));
      OutsIrrelevant(c, r, r.outs[i := out']);
      hide ReplicaOk, TryTraceOut;
      TraceOutOk(c, r.(outs := r.outs[i := out']), i, out');
    }
  }

  lemma OutsIrrelevant(c: Node, r: Replica, outs: map<Index, OutInstance>)
    requires ReplicaOk(c, r)
    ensures ReplicaOk(c, r.(outs := outs))
  {
    hide InstOk, Proposed;
  }

  lemma ReceiveOk(c: Node, r: Replica, e: Env, check: Check)
    requires ReplicaOk(c, r) && ShapedAll(r) && Phased(e) && Genuine(c, r, e)
    ensures ReplicaOk(c, Receive(c, r, e, check))
  {
    var i := IndexOf(e);
    if !InWaterMark(r, i.sequence) || r.view != i.view {
      if i.sequence > r.lastExe && e.Commit? {
        hide InstOk, TraceOutCommit;
        TraceOutCommitOk(c, r, e.vote);
      }
    } else if r.active && i.sequence > r.lastExe {
      OpenedOk(c, r, i);
      var ready := r.(instances := Opened(r.instances, i));
      OkIsShaped(c, ready);
      assert InstOk(c, i, ready.instances[i], ready.sent, true);
      DeliverOk(c, i, ready.instances[i], e, check, r.sent);
      var eff := Deliver(c, Leads(c, r.view), ready.instances[i], e, check);
      DeliveredOk(c, ready, i, eff);
      var next := r.(instances := ready.instances[i := eff.inst], sent := r.sent + Emitted(eff.out));
      assert next == ready.(instances := ready.instances[i := eff.inst], sent := ready.sent + Emitted(eff.out));
      OkIsShaped(c, next);
      hide ReplicaOk, TryExecute, Deliver, Opened, Leads;
      TryExecuteOk(c, next, next.instances.Keys);
    }
  }

  // ---- The other steps ----

  /** The primary may propose a value if every vote it has already cast for that sequence
      in this view is for that value. */
  predicate MayPropose(c: Node, r: Replica, value: string)
  {
    Primary(c, r.view) && r.active ==>
      forall e :: e in r.sent && IsVote(e) && IndexOf(e) == Index(r.view, r.lastExe + 1) ==> e.vote.digest == c.hash(value)
  }

  /** A guard the replica can check on its own fields: nothing accepted yet at the next sequence,
      or the same value. */
  lemma ProposalGuard(c: Node, r: Replica, value: string)
    requires ReplicaOk(c, r)
    requires var i := Index(r.view, r.lastExe + 1);
             i in r.instances && r.instances[i].phase != NONE ==> r.instances[i].digest == c.hash(value)
    ensures MayPropose(c, r, value)
  {
    hide InstancesOk, LogOk, SingleVote;
    forall e | e in r.sent && IsVote(e) && IndexOf(e) == Index(r.view, r.lastExe + 1)
      ensures e.vote.digest == c.hash(value)
    {
      assert Settled(r, IndexOf(e), e.vote.digest);
    }
  }

  /** The only live votes of a primary are at the next sequence: it votes on its own proposals. */
  lemma LiveVotesOfPrimary(c: Node, r: Replica, e: Env)
    requires ReplicaOk(c, r) && Primary(c, r.view) && e in r.sent && IsVote(e)
    ensures IndexOf(e).sequence <= r.lastExe || IndexOf(e).view < r.view || IndexOf(e) == Index(r.view, r.lastExe + 1)
  {
    var i := IndexOf(e);
    if i.view == r.view && i.sequence > r.lastExe {
      assert InstOk(c, i, r.instances[i], r.sent, true);
    }
  }

  lemma RequestedOk(c: Node, p: Proposal, sent: set<Env>)
    requires p.replica == c.self && p.digest == c.hash(p.value) && PrePrepare(p) in sent
    ensures InstOk(c, Index(p.view, p.sequence), Requested(p), sent, true)
  {
    hide Primary;
    assert IndexOf(PrePrepare(p)) in Proposed(c, sent);
  }

  /** Proposing keeps the invariant exactly when `MayPropose` holds. */
  lemma RequestOk(c: Node, r: Replica, value: string)
    requires ReplicaOk(c, r) && ShapedAll(r)
    ensures ReplicaOk(c, Request(c, r, value)) <==> MayPropose(c, r, value)
  {
    hide Primary;
    if Primary(c, r.view) && r.active {
      if MayPropose(c, r, value) {
        ProposeOk(c, r, value);
      } else {
        hide InstOk, Proposed;
        var e :| e in r.sent && IsVote(e) && IndexOf(e) == Index(r.view, r.lastExe + 1) && e.vote.digest != c.hash(value);
        assert e in Request(c, r, value).sent;
        assert !Settled(Request(c, r, value), IndexOf(e), e.vote.digest);
      }
    }
  }

  lemma ProposeOk(c: Node, r: Replica, value: string)
    requires ReplicaOk(c, r) && ShapedAll(r) && Primary(c, r.view) && r.active && MayPropose(c, r, value)
    ensures ReplicaOk(c, Request(c, r, value))
  {
    hide InstOk, Primary;
    var r' := Request(c, r, value);
    var i := Index(r.view, r.lastExe + 1);
    var p := Proposal(i.view, i.sequence, c.self, value, c.hash(value));
    RequestedOk(c, p, r'.sent);
    assert Proposed(c, r'.sent) == Proposed(c, r.sent) + {i} by {
      assert IndexOf(PrePrepare(p)) == i;
    }
    forall j | j in r'.instances && j != i
      ensures InstOk(c, j, r'.instances[j], r'.sent, j.view == r.view)
    {
      InstOkMono(c, j, r.instances[j], r.sent, r'.sent, j.view == r.view, j.view == r.view);
    }
    forall e | e in r'.sent && IsVote(e)
      ensures Settled(r', IndexOf(e), e.vote.digest)
    {
      LiveVotesOfPrimary(c, r, e);
    }
    forall k | 0 <= k < |r.log|
      ensures DeliveryOk(c, r.log[k], r'.sent)
    {
      InstOkMono(c, r.log[k].index, r.log[k].inst, r.sent, r'.sent, false, false);
    }
  }

  lemma EnterViewOk(c: Node, r: Replica, view: int)
    requires ReplicaOk(c, r) && view > r.view
    ensures ReplicaOk(c, EnterView(r, view))
  {
    hide InstOk, Proposed;
    forall i | i in EnterView(r, view).instances
      ensures InstOk(c, i, r.instances[i], r.sent, false)
    {
      InstOkMono(c, i, r.instances[i], r.sent, r.sent, i.view == r.view, false);
    }
  }

  /** Sending anything but a vote or a proposal changes nothing. */
  lemma NoticeOk(c: Node, r: Replica, e: Env)
    requires ReplicaOk(c, r) && !Phased(e) && Sender(e) == c.self
    ensures ReplicaOk(c, r.(sent := r.sent + {e}))
  {
    hide InstOk;
    var r' := r.(sent := r.sent + {e});
    assert Proposed(c, r'.sent) == Proposed(c, r.sent);
    forall i | i in r.instances
      ensures InstOk(c, i, r.instances[i], r'.sent, i.view == r.view)
    {
      InstOkMono(c, i, r.instances[i], r.sent, r'.sent, i.view == r.view, i.view == r.view);
    }
    forall k | 0 <= k < |r.log|
      ensures DeliveryOk(c, r.log[k], r'.sent)
    {
      InstOkMono(c, r.log[k].index, r.log[k].inst, r.sent, r'.sent, false, false);
    }
  }

  lemma VcsIrrelevant(c: Node, r: Replica, vcs: map<VcKey, VcInstance>)
    requires ReplicaOk(c, r)
    ensures ReplicaOk(c, r.(vcs := vcs))
  {
    hide InstOk, Proposed;
  }

  lemma OnViewChangeOk(c: Node, r: Replica, claim: ViewClaim)
    requires ReplicaOk(c, r)
    ensures ReplicaOk(c, OnViewChange(c, r, claim))
  {
    hide ReplicaOk, EnterView, Primary;
    if claim.view > r.view {
      var key := VcKey(claim.view);
      var vc := if key in r.vcs then r.vcs[key] else VcInstance([], false, false);
      var voters := if claim.replica in vc.voters then vc.voters else vc.voters + [claim.replica];
      var vc' := vc.(voters := voters, own := vc.own || claim.replica == c.self);
      VcsIrrelevant(c, r, r.vcs[key := vc']);
      var next := r.(vcs := r.vcs[key := vc']);
      var changes := seq(|voters|, k requires 0 <= k < |voters| => ViewClaim(claim.view, voters[k]));
      NoticeOk(c, next, NewView(claim.view, c.self, changes));
      EnterViewOk(c, next.(sent := next.sent + {NewView(claim.view, c.self, changes)}), claim.view);
    }
  }

  /** A closed ledger that moves the window without raising the view must not cut off a live
      vote: beyond the new window, everything voted on in this view has to be committed. */
  predicate MayClose(r: Replica, view: int, sequence: int)
  {
    sequence > r.lastExe && (view < r.view || view < 0) ==>
      forall e :: e in r.sent && IsVote(e) && IndexOf(e).view == r.view && IndexOf(e).sequence > sequence && sequence > 0 ==>
        IndexOf(e) in r.instances && r.instances[IndexOf(e)].phase == COMMITED
  }

  /** The same for a closed ledger: whatever this view has accepted beyond the new window is committed. */
  lemma CloseGuard(c: Node, r: Replica, view: int, sequence: int)
    requires ReplicaOk(c, r)
    requires forall j :: j in r.instances && j.view == r.view && j.sequence > sequence && r.instances[j].phase != NONE ==>
               r.instances[j].phase == COMMITED
    ensures MayClose(r, view, sequence)
  {
    hide InstancesOk, LogOk, SingleVote;
    forall e | e in r.sent && IsVote(e) && IndexOf(e).view == r.view && IndexOf(e).sequence > sequence && sequence > r.lastExe
      ensures IndexOf(e) in r.instances && r.instances[IndexOf(e)].phase == COMMITED
    {
      assert Settled(r, IndexOf(e), e.vote.digest);
    }
  }

  /** `UpdateValidators` keeps the invariant exactly when `MayClose` holds. */
  lemma UpdateValidatorsOk(c: Node, r: Replica, view: int, sequence: int)
    requires ReplicaOk(c, r)
    ensures ReplicaOk(c, UpdateValidators(r, view, sequence)) <==> MayClose(r, view, sequence)
  {
    hide InstOk, Proposed;
    var r' := UpdateValidators(r, view, sequence);
    forall i | i in r.instances
      ensures InstOk(c, i, r.instances[i], r.sent, false) && Shaped(r.instances[i])
    {
      InstShaped(c, i, r.instances[i], r.sent, i.view == r.view);
      InstOkMono(c, i, r.instances[i], r.sent, r.sent, i.view == r.view, false);
    }
  }

  lemma ResendCommitOk(c: Node, r: Replica, i: Index, k: int)
    requires ReplicaOk(c, r) && i in r.instances && r.instances[i].commitSent && k in r.instances[i].prepares
    ensures var v := r.instances[i].prepares[k];
            Commit(Vote(v.view, v.sequence, c.self, v.digest)) in r.sent
  {
    assert InstOk(c, i, r.instances[i], r.sent, i.view == r.view);
  }

  // ---- Every step ----

  /** What the surroundings of a correct replica guarantee about an event: received messages
      are genuine, a proposal does not contradict the primary's own votes, and a closed ledger
      does not cut off live votes. */
  predicate Permitted(c: Node, r: Replica, ev: Event)
  {
    match ev
    case Recv(e, _) => Genuine(c, r, e)
    case Propose(value) => MayPropose(c, r, value)
    case LedgerClosed(view, sequence) => MayClose(r, view, sequence)
    case _ => true
  }

  lemma RecvOk(c: Node, r: Replica, e: Env, check: Check)
    requires ReplicaOk(c, r) && ShapedAll(r) && Genuine(c, r, e)
    ensures ReplicaOk(c, Step(c, r, Recv(e, check)))
  {
    hide ReplicaOk, Receive, OnViewChange, EnterView, ShapedAll, Genuine, Primary;
    match e
    case ViewChange(claim) => OnViewChangeOk(c, r, claim);
    case NewView(view, _, changes) => if view > r.view { EnterViewOk(c, r, view); }
    case _ => ReceiveOk(c, r, e, check);
  }

  lemma TimeoutOk(c: Node, r: Replica, ev: Event)
    requires ReplicaOk(c, r) && ShapedAll(r) && (ev.TxTimeout? || ev.NewViewTimeout?)
    ensures ReplicaOk(c, Step(c, r, ev))
  {
    hide ReplicaOk, ShapedAll;
    if ev.TxTimeout? {
      InactiveOk(c, r);
      NoticeOk(c, r.(active := false), ViewChange(ViewClaim(r.view + 1, c.self)));
    } else {
      NoticeOk(c, r, ViewChange(ViewClaim(ev.view + 1, c.self)));
    }
  }

  /** Single vote, watermarks, execution order and the rest of the invariant are kept by
      every step: messages, proposals, view changes, retransmissions, trace-out and validator updates. */
  lemma StepOk(c: Node, r: Replica, ev: Event)
    requires ReplicaOk(c, r) && ShapedAll(r) && Permitted(c, r, ev)
    ensures ReplicaOk(c, Step(c, r, ev)) && ShapedAll(Step(c, r, ev))
  {
    assert ReplicaOk(c, Step(c, r, ev)) by {
      match ev
      case Propose(value) =>
        hide ReplicaOk, ShapedAll, Request, MayPropose;
        RequestOk(c, r, value);
      case LedgerClosed(view, sequence) =>
        hide ReplicaOk, ShapedAll, UpdateValidators, MayClose;
        UpdateValidatorsOk(c, r, view, sequence);
      case Recv(e, check) =>
        hide ReplicaOk, ShapedAll, Step, Genuine;
        RecvOk(c, r, e, check);
      case TxTimeout => hide ReplicaOk, ShapedAll, Step; TimeoutOk(c, r, ev);
      case NewViewTimeout(view) => hide ReplicaOk, ShapedAll, Step; TimeoutOk(c, r, ev);
      case ResendProposal(i) => hide ReplicaOk, ShapedAll, Step; ResendsChangeNothing(c, r, ev);
      case ResendCommit(i, k) => hide ReplicaOk, ShapedAll, Step; ResendsChangeNothing(c, r, ev);
    }
    hide Step;
    OkIsShaped(c, Step(c, r, ev));
  }

  lemma InactiveOk(c: Node, r: Replica)
    requires ReplicaOk(c, r)
    ensures ReplicaOk(c, r.(active := false))
  {
    hide InstOk, Proposed;
  }

  /** Retransmissions repeat messages that were sent before. */
  lemma ResendsChangeNothing(c: Node, r: Replica, ev: Event)
    requires ReplicaOk(c, r) && ShapedAll(r) && (ev.ResendProposal? || ev.ResendCommit?)
    ensures Step(c, r, ev) == r
  {
    hide Primary, Proposed;
    assert ev.index in r.instances ==> InstOk(c, ev.index, r.instances[ev.index], r.sent, ev.index.view == r.view);
    match ev
    case ResendProposal(i) =>
      if i in r.instances && r.instances[i].own.Some? {
        assert r.sent + {PrePrepare(r.instances[i].own.value)} == r.sent;
      }
    case ResendCommit(i, k) =>
      if i in r.instances && r.instances[i].commitSent && k in r.instances[i].prepares {
        ResendCommitOk(c, r, i, k);
        var v := r.instances[i].prepares[k];
        assert r.sent + {Commit(Vote(v.view, v.sequence, c.self, v.digest))} == r.sent;
      }
  }

  // ---- Execution order ----

  /** From r to r' the window only moves up, and the values handed over are those of
      committed instances at consecutive sequences right after the window of r. */
  predicate ExecutesInOrder(r: Replica, r': Replica)
  {
    && r.lastExe <= r'.lastExe && r.log <= r'.log
    && forall k :: |r.log| <= k < |r'.log| ==>
         r'.log[k].index.sequence == r.lastExe + 1 + k - |r.log| && r'.log[k].inst.phase == COMMITED
  }

  /** The same, with as many values as the window has moved. */
  predicate Advances(r: Replica, r': Replica)
  {
    ExecutesInOrder(r, r') && r'.lastExe - r.lastExe == |r'.log| - |r.log| && r'.sent == r.sent
  }

  lemma ExecuteAdvances(r: Replica, i: Index)
    requires i in r.instances && Shaped(r.instances[i]) && r.instances[i].phase == COMMITED && i.sequence == r.lastExe + 1
    ensures Advances(r, Execute(r, i))
  {
    hide FirstPerSigner;
  }

  lemma AdvancesCompose(a: Replica, b: Replica, d: Replica)
    requires Advances(a, b) && Advances(b, d)
    ensures Advances(a, d)
  {
  }

  lemma {:induction false} TryExecuteAdvances(r: Replica, rest: set<Index>)
    requires rest <= r.instances.Keys && ShapedAll(r)
    ensures Advances(r, TryExecute(r, rest))
    decreases |rest|
  {
    if rest != {} {
      hide Execute, Advances;
      var i := Least(rest);
      assert rest == {i} + (rest - {i});
      if i.sequence <= r.lastExe {
        TryExecuteAdvances(r, rest - {i});
      } else if i.sequence == r.lastExe + 1 && r.instances[i].phase >= COMMITED {
        var next := Execute(r, i);
        ExecuteAdvances(r, i);
        ExecuteFrame(r, i);
        SubsetSize((rest - {i}) * next.instances.Keys, rest - {i});
        TryExecuteAdvances(next, (rest - {i}) * next.instances.Keys);
        AdvancesCompose(r, next, TryExecute(next, (rest - {i}) * next.instances.Keys));
      } else {
        NoAdvance(r);
      }
    }
  }

  lemma NoAdvance(r: Replica)
    ensures Advances(r, r)
  {
  }

  /** Any step whatever, permitted or not: the window never goes back, no value is handed
      over out of order, and nothing sent is forgotten. */
  lemma StepInOrder(c: Node, r: Replica, ev: Event)
    requires ShapedAll(r)
    ensures ExecutesInOrder(r, Step(c, r, ev))
    ensures r.sent <= Step(c, r, ev).sent
  {
    match ev
    case Recv(PrePrepare(_), check) => ReceiveInOrder(c, r, ev.e, check);
    case Recv(Prepare(_), check) => ReceiveInOrder(c, r, ev.e, check);
    case Recv(Commit(_), check) => ReceiveInOrder(c, r, ev.e, check);
    case _ =>
      hide Proposed, Primary, Survivors, RecentViewChanges;
  }

  lemma SameLog(r: Replica, r': Replica)
    requires r'.log == r.log && r'.lastExe >= r.lastExe
    ensures ExecutesInOrder(r, r')
  {
  }

  lemma AdvancesFrom(r: Replica, next: Replica, r': Replica)
    requires Advances(next, r') && next.log == r.log && next.lastExe == r.lastExe
    ensures ExecutesInOrder(r, r') && r'.sent == next.sent
  {
  }

  lemma ReceiveInOrder(c: Node, r: Replica, e: Env, check: Check)
    requires ShapedAll(r) && Phased(e)
    ensures ExecutesInOrder(r, Receive(c, r, e, check)) && r.sent <= Receive(c, r, e, check).sent
  {
    hide TryExecute, Deliver, Leads, TraceOutCommit, ExecutesInOrder, Advances;
    SameLog(r, r);
    var i := IndexOf(e);
    if !InWaterMark(r, i.sequence) || r.view != i.view {
      if i.sequence > r.lastExe && e.Commit? {
        TraceOutInOrder(c, r, e.vote);
      }
    } else if r.active && i.sequence > r.lastExe {
      var instances := Opened(r.instances, i);
      var eff := Deliver(c, Leads(c, r.view), instances[i], e, check);
      var next := r.(instances := instances[i := eff.inst], sent := r.sent + Emitted(eff.out));
      hide Opened;
      SameLog(r, next);
      TryExecuteAdvances(next, next.instances.Keys);
      AdvancesFrom(r, next, TryExecute(next, next.instances.Keys));
    }
  }

  lemma TraceOutInOrder(c: Node, r: Replica, v: Vote)
    requires ShapedAll(r)
    ensures ExecutesInOrder(r, TraceOutCommit(c, r, v)) && r.sent <= TraceOutCommit(c, r, v).sent
  {
    hide TryExecute, OnCommit, Recorded, ExecutesInOrder, Advances;
    var i := Index(v.view, v.sequence);
    if i in r.instances {
      hide TryTraceOut;
      var next := r.(instances := r.instances[i := OnCommit(c, r.instances[i], v)]);
      SameLog(r, next);
      TryExecuteAdvances(next, next.instances.Keys);
      AdvancesFrom(r, next, TryExecute(next, next.instances.Keys));
    } else {
      SameLog(r, TraceOutCommit(c, r, v));
    }
  }

  // ---- Where stored messages come from ----

  ghost predicate InstHeard(inst: Instance, known: iset<Env>)
  {
    && (forall k :: k in inst.commits ==> Commit(inst.commits[k]) in known)
    && (forall t, k :: 0 <= t < |inst.buf| && 0 <= k < |inst.buf[t]| ==> inst.buf[t][k] in known)
  }

  /** Every commit a replica holds, in an instance or in its log, is a known message. */
  ghost predicate Heard(r: Replica, known: iset<Env>)
  {
    && (forall i :: i in r.instances ==> InstHeard(r.instances[i], known))
    && (forall k :: 0 <= k < |r.log| ==> InstHeard(r.log[k].inst, known))
  }

  lemma CommitHeard(c: Node, inst: Instance, v: Vote, known: iset<Env>)
    requires Shaped(inst) && InstHeard(inst, known) && Commit(v) in known
    ensures InstHeard(OnCommit(c, inst, v), known)
  {
    if inst.digest == v.digest && v.replica !in inst.commits {
      var commits := Recorded(inst.commits, v);
      assert forall k :: k in commits ==> Commit(commits[k]) in known;
      assert OnCommit(c, inst, v).commits == commits;
    }
  }

  lemma HandleHeard(c: Node, leads: bool, inst: Instance, e: Env, check: Check, known: iset<Env>)
    requires Shaped(inst) && InstHeard(inst, known) && e in known
    ensures InstHeard(Handle(c, leads, inst, e, check).inst, known)
  {
    hide OnPrepare, OnCommit;
    match e
    case Commit(v) => CommitHeard(c, inst, v, known);
    case _ =>
  }

  lemma {:induction false} DrainHeard(c: Node, leads: bool, inst: Instance, check: Check, known: iset<Env>)
    requires Shaped(inst) && InstHeard(inst, known)
    ensures InstHeard(Drain(c, leads, inst, check).inst, known)
    decreases COMMITED - inst.phase, |inst.buf[inst.phase]| - inst.item
  {
    hide Handle;
    if |inst.buf[inst.phase]| > inst.item {
      var e := inst.buf[inst.phase][inst.item];
      var ready := inst.(item := inst.item + 1);
      assert InstHeard(ready, known);
      HandleHeard(c, leads, ready, e, check, known);
      DrainHeard(c, leads, Handle(c, leads, ready, e, check).inst, check, known);
    }
  }

  lemma DeliverHeard(c: Node, leads: bool, inst: Instance, e: Env, check: Check, known: iset<Env>)
    requires Shaped(inst) && InstHeard(inst, known) && Phased(e) && e in known
    ensures InstHeard(Deliver(c, leads, inst, e, check).inst, known)
  {
    hide Handle, Drain;
    var ready := Buffered(inst, e);
    assert InstHeard(ready, known);
    if TypeOf(e) < ready.phase {
      HandleHeard(c, leads, ready, e, check, known);
    } else {
      DrainHeard(c, leads, ready, check, known);
    }
  }

  lemma {:induction false} TryExecuteHeard(r: Replica, rest: set<Index>, known: iset<Env>)
    requires rest <= r.instances.Keys && ShapedAll(r) && Heard(r, known)
    ensures Heard(TryExecute(r, rest), known)
    decreases |rest|
  {
    if rest != {} {
      hide InstHeard;
      var i := Least(rest);
      assert rest == {i} + (rest - {i});
      if i.sequence <= r.lastExe {
        TryExecuteHeard(r, rest - {i}, known);
      } else if i.sequence == r.lastExe + 1 && r.instances[i].phase >= COMMITED {
        hide FirstPerSigner;
        var next := Execute(r, i);
        SubsetSize((rest - {i}) * next.instances.Keys, rest - {i});
        TryExecuteHeard(next, (rest - {i}) * next.instances.Keys, known);
      }
    }
  }

  /** The replica after a message was delivered to its instance. */
  ghost function AfterDelivery(r: Replica, instances: map<Index, Instance>, i: Index, eff: Effect): Replica
  {
    r.(instances := instances[i := eff.inst], sent := r.sent + Emitted(eff.out))
  }

  lemma DeliveredHeard(r: Replica, instances: map<Index, Instance>, i: Index, eff: Effect, known: iset<Env>)
    requires Heard(r, known) && Shaped(eff.inst) && InstHeard(eff.inst, known)
    requires forall j :: j in instances ==> InstHeard(instances[j], known) && Shaped(instances[j])
    ensures var next := AfterDelivery(r, instances, i, eff);
            ShapedAll(next) && Heard(next, known) && Heard(TryExecute(next, next.instances.Keys), known)
  {
    hide InstHeard, TryExecute, Emitted;
    var next := AfterDelivery(r, instances, i, eff);
    TryExecuteHeard(next, next.instances.Keys, known);
  }

  /** A message in the window of an active replica: delivered, and executed if that committed it. */
  lemma ReceiveInWindow(c: Node, r: Replica, e: Env, check: Check)
    requires ShapedAll(r) && Phased(e) && InWaterMark(r, IndexOf(e).sequence) && r.view == IndexOf(e).view
    requires r.active && IndexOf(e).sequence > r.lastExe
    ensures var i := IndexOf(e);
            var instances := Opened(r.instances, i);
            && i in instances && Shaped(instances[i])
            && var next := AfterDelivery(r, instances, i, Deliver(c, Leads(c, r.view), instances[i], e, check));
               && ShapedAll(next)
               && (Receive(c, r, e, check) == next || Receive(c, r, e, check) == TryExecute(next, next.instances.Keys))
  {
    hide TraceOutCommit, TryExecute, Deliver, Leads, Emitted;
  }

  lemma ReceiveHeard(c: Node, r: Replica, e: Env, check: Check, known: iset<Env>)
    requires ShapedAll(r) && Phased(e) && Heard(r, known) && e in known
    ensures Heard(Receive(c, r, e, check), known)
  {
    var i := IndexOf(e);
    if InWaterMark(r, i.sequence) && r.view == i.view && r.active && i.sequence > r.lastExe {
      hide Receive, InstHeard, TryExecute, Deliver, Leads, Opened, Heard, AfterDelivery, ShapedAll;
      ReceiveInWindow(c, r, e, check);
      OpenedHeard(r, i, known);
      var instances := Opened(r.instances, i);
      DeliverHeard(c, Leads(c, r.view), instances[i], e, check, known);
      DeliveredHeard(r, instances, i, Deliver(c, Leads(c, r.view), instances[i], e, check), known);
    } else {
      hide InstHeard, TraceOutCommit, TryExecute, Deliver, Opened, Heard, ShapedAll;
      if e.Commit? { TraceOutHeard(c, r, e.vote, known); }
    }
  }

  lemma OpenedHeard(r: Replica, i: Index, known: iset<Env>)
    requires Heard(r, known) && ShapedAll(r)
    ensures forall j :: j in Opened(r.instances, i) ==>
      InstHeard(Opened(r.instances, i)[j], known) && Shaped(Opened(r.instances, i)[j])
    ensures i in Opened(r.instances, i)
  {
    assert InstHeard(FRESH, known);
    hide InstHeard;
  }

  lemma TraceOutHeard(c: Node, r: Replica, v: Vote, known: iset<Env>)
    requires ShapedAll(r) && Heard(r, known) && Commit(v) in known
    ensures Heard(TraceOutCommit(c, r, v), known)
  {
    var i := Index(v.view, v.sequence);
    if i in r.instances {
      CommitHeard(c, r.instances[i], v, known);
      hide InstHeard, TryExecute, OnCommit;
      var next := r.(instances := r.instances[i := OnCommit(c, r.instances[i], v)]);
      TryExecuteHeard(next, next.instances.Keys, known);
    } else {
      hide InstHeard;
    }
  }

  lemma StepHeard(c: Node, r: Replica, ev: Event, known: iset<Env>)
    requires ShapedAll(r) && Heard(r, known)
    requires ev.Recv? ==> ev.e in known
    requires forall e :: e in Step(c, r, ev).sent ==> e in known
    ensures Heard(Step(c, r, ev), known)
  {
    match ev
    case Recv(PrePrepare(_), check) => ReceiveHeard(c, r, ev.e, check, known);
    case Recv(Prepare(_), check) => ReceiveHeard(c, r, ev.e, check, known);
    case Recv(Commit(_), check) => ReceiveHeard(c, r, ev.e, check, known);
    case Propose(value) =>
      var p := Proposal(r.view, r.lastExe + 1, c.self, value, c.hash(value));
      if Primary(c, r.view) && r.active {
        assert PrePrepare(p) in Step(c, r, ev).sent;
        assert InstHeard(Requested(p), known);
      }
      hide InstHeard;
    case _ =>
      hide InstHeard, Primary, RecentViewChanges;
  }
}
