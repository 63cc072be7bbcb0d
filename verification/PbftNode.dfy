/** The `Pbft` object: the handlers as they run, updating fields in place and erasing from
    maps in loops. Every handler is proved to do what the function of the same name in
    PbftReplica or PbftInstance says, so the results about runs apply to it. */
module PbftNode {
  import opened Quorum
  import opened PbftInstance
  import opened PbftProof
  import opened PbftReplica
  import opened PbftInvariant

  lemma LeastUnique(s: set<Index>, i: Index)
    requires i in s && forall j :: j in s && j != i ==> Before(i, j)
    ensures i == Least(s)
  {
  }

  /** The first key in map order. */
  method FindLeast(s: set<Index>) returns (i: Index)
    requires s != {}
    ensures i == Least(s)
  {
    i :| i in s;
    var todo := s - {i};
    while todo != {}
      invariant i in s && todo <= s
      invariant forall j :: j in s && j != i && j !in todo ==> Before(i, j)
      decreases todo
    {
      var j :| j in todo;
      if Before(j, i) {
        i := j;
      }
      todo := todo - {j};
    }
    LeastUnique(s, i);
  }

  /** The whole effect of a loop, split into what has been sent so far and the rest. */
  predicate Continues(whole: Effect, out: seq<Env>, rest: Effect)
  {
    whole == Effect(rest.inst, out + rest.out)
  }

  lemma DrainTurn(c: Node, leads: bool, inst: Instance, check: Check, whole: Effect, out: seq<Env>)
    requires Shaped(inst) && Continues(whole, out, Drain(c, leads, inst, check))
    ensures if |inst.buf[inst.phase]| <= inst.item then whole == Effect(inst, out)
            else var step := Handle(c, leads, inst.(item := inst.item + 1), inst.buf[inst.phase][inst.item], check);
                 Continues(whole, out + step.out, Drain(c, leads, step.inst, check))
  {
    hide Handle;
    if |inst.buf[inst.phase]| <= inst.item {
      assert out + [] == out;
    } else {
      var step := Handle(c, leads, inst.(item := inst.item + 1), inst.buf[inst.phase][inst.item], check);
      var rest := Drain(c, leads, step.inst, check);
      assert out + (step.out + rest.out) == out + step.out + rest.out;
    }
  }

  /** One turn of the execution loop. */
  lemma ExecuteTurn(r: Replica, rest: set<Index>)
    requires rest != {} && rest <= r.instances.Keys && ShapedAll(r)
    ensures var i := Least(rest);
            && i in rest && |rest - {i}| < |rest|
            && (i.sequence <= r.lastExe ==> TryExecute(r, rest) == TryExecute(r, rest - {i}))
            && (i.sequence > r.lastExe && !(i.sequence == r.lastExe + 1 && r.instances[i].phase >= COMMITED) ==>
                  TryExecute(r, rest) == r)
            && (i.sequence == r.lastExe + 1 && r.instances[i].phase >= COMMITED ==>
                  var next := Execute(r, i);
                  var rest' := (rest - {i}) * next.instances.Keys;
                  ShapedAll(next) && |rest'| < |rest| && TryExecute(r, rest) == TryExecute(next, rest'))
  {
    var i := Least(rest);
    assert rest == {i} + (rest - {i});
    ExecuteFrame(r, i);
    hide Execute;
    SubsetSize((rest - {i}) * Execute(r, i).instances.Keys, rest - {i});
  }

  lemma SameMap<K, V>(a: map<K, V>, b: map<K, V>)
    requires forall k :: k in a <==> k in b
    requires forall k :: k in a ==> a[k] == b[k]
    ensures a == b
  {
    assert a.Keys == b.Keys;
  }

  class Pbft {
    const c: Node
    var view: int
    var active: bool
    var lastExe: int
    var instances: map<Index, Instance>
    var outs: map<Index, OutInstance>
    var vcs: map<VcKey, VcInstance>
    ghost var sent: set<Env>
    ghost var log: seq<Delivery>

    ghost function State(): Replica
      reads this
    {
      Replica(view, active, lastExe, instances, outs, vcs, sent, log)
    }

    constructor (c: Node)
      ensures this.c == c && State() == INITIAL
    {
      this.c := c;
      view, active, lastExe := 0, true, 1;
      instances, outs, vcs := map[], map[], map[];
      sent, log := {}, [];
    }

    /** The erase loop that `Request`, `OnNewView`, `TryDoTraceOut` and others run over the
        instance map. */
    method Retain(keep: (Index, Instance) -> bool)
      modifies this`instances
      ensures instances == map j | j in old(instances) && keep(j, old(instances)[j]) :: old(instances)[j]
    {
      var todo := instances.Keys;
      while todo != {}
        invariant todo <= instances.Keys <= old(instances).Keys
        invariant forall j :: j in instances ==> instances[j] == old(instances)[j]
        invariant forall j :: j in old(instances) && j !in todo ==> (j in instances <==> keep(j, old(instances)[j]))
        decreases todo
      {
        var j :| j in todo;
        todo := todo - {j};
        if !keep(j, instances[j]) {
          instances := instances - {j};
        }
      }
    }

    /** `PbftInstance::Go`: process a repeated message directly, otherwise consume the buffer of
        the current phase, following the phase as it advances. */
    method Go(i: Index, e: Env, check: Check)
      requires i in instances && Shaped(instances[i]) && Phased(e)
      modifies this`instances, this`sent
      ensures var eff := PbftInstance.Go(c, Leads(c, view), old(instances[i]), e, check);
              instances == old(instances)[i := eff.inst] && sent == old(sent) + Emitted(eff.out)
    {
      hide Handle, Leads, Drain;
      var leads := Leads(c, view);
      var inst := instances[i];
      ghost var out: seq<Env> := [];
      if TypeOf(e) < inst.phase {
        var step := Handle(c, leads, inst, e, check);
        inst, out := step.inst, step.out;
      } else {
        ghost var whole := Drain(c, leads, inst, check);
        while |inst.buf[inst.phase]| > inst.item
          invariant Shaped(inst)
          invariant Continues(whole, out, Drain(c, leads, inst, check))
          invariant instances == old(instances) && sent == old(sent)
          decreases COMMITED - inst.phase, |inst.buf[inst.phase]| - inst.item
        {
          DrainTurn(c, leads, inst, check, whole, out);
          var m := inst.buf[inst.phase][inst.item];
          var step := Handle(c, leads, inst.(item := inst.item + 1), m, check);
          inst, out := step.inst, out + step.out;
        }
        DrainTurn(c, leads, inst, check, whole, out);
      }
      instances := instances[i := inst];
      sent := sent + Emitted(out);
    }

    /** Hand one committed value over with its proof, and drop what is old. */
    method HandOver(i: Index)
      requires i in instances && Shaped(instances[i])
      modifies this`lastExe, this`instances, this`log
      ensures State() == Execute(old(State()), i)
    {
      hide FirstPerSigner;
      var proof := BuildProof(instances[i].buf[PREPARED]);
      lastExe := lastExe + 1;
      log := log + [Delivery(i, instances[i], proof)];
      Retain((j: Index, _: Instance) => j.sequence > i.sequence - CKP_INTERVAL / 2);
      assert instances == Execute(old(State()), i).instances;
    }

    /** `TryExecuteValue`: walk the instances in map order and hand over the committed ones that
        continue the executed sequence. */
    method TryExecuteValue()
      requires ShapedAll(State())
      modifies this`lastExe, this`instances, this`log
      ensures State() == TryExecute(old(State()), old(instances.Keys))
    {
      hide TryExecute, FirstPerSigner, Least, Execute;
      var rest := instances.Keys;
      while rest != {}
        invariant rest <= instances.Keys && ShapedAll(State())
        invariant TryExecute(State(), rest) == TryExecute(old(State()), old(instances.Keys))
        decreases |rest|
      {
        var i := FindLeast(rest);
        ghost var before := State();
        ExecuteTurn(before, rest);
        if i.sequence > lastExe {
          if i.sequence != lastExe + 1 || instances[i].phase < COMMITED {
            return;
          }
          HandOver(i);
          rest := (rest - {i}) * instances.Keys;
        } else {
          rest := rest - {i};
        }
      }
      NothingLeft(State());
    }

    /** `TryDoTraceOut`. */
    method TryDoTraceOut(i: Index, out: OutInstance)
      modifies this
      ensures State() == TryTraceOut(c, old(State()), i, out)
    {
      if |out.commits| >= c.quorum + 1 && i.sequence - lastExe >= CKP_INTERVAL {
        active, view, lastExe := true, i.view, i.sequence;
        DropViewChanges((_: VcKey, vc: VcInstance) => !vc.own);
        var target := i.sequence;
        Retain((j: Index, _: Instance) => j.sequence > target);
        outs := map[];
        ghost var next := TryTraceOut(c, old(State()), i, out);
        SameMap(instances, next.instances);
        SameMap(vcs, next.vcs);
      }
    }

    /** The erase loop over the view-change map. */
    method DropViewChanges(keep: (VcKey, VcInstance) -> bool)
      modifies this`vcs
      ensures vcs == map v | v in old(vcs) && keep(v, old(vcs)[v]) :: old(vcs)[v]
    {
      var todo := vcs.Keys;
      while todo != {}
        invariant todo <= vcs.Keys <= old(vcs).Keys
        invariant forall v :: v in vcs ==> vcs[v] == old(vcs)[v]
        invariant forall v :: v in old(vcs) && v !in todo ==> (v in vcs <==> keep(v, old(vcs)[v]))
        decreases todo
      {
        var v :| v in todo;
        todo := todo - {v};
        if !keep(v, vcs[v]) {
          vcs := vcs - {v};
        }
      }
    }

    /** `TraceOutPbftCommit`. */
    method TraceOutPbftCommit(v: Vote)
      requires ShapedAll(State())
      modifies this
      ensures State() == TraceOutCommit(c, old(State()), v)
    {
      hide TryExecute, TryTraceOut, OnCommit, Recorded;
      var i := Index(v.view, v.sequence);
      if i in instances {
        var before := instances[i].phase;
        instances := instances[i := OnCommit(c, instances[i], v)];
        if before < COMMITED && instances[i].phase == COMMITED {
          TryExecuteValue();
        }
      } else {
        var out := if i in outs then outs[i] else OutInstance(v.digest, map[]);
        if out.digest == v.digest {
          out := out.(commits := Recorded(out.commits, v));
          outs := outs[i := out];
          TryDoTraceOut(i, out);
        }
      }
    }

    /** `CreateInstanceIfNotExist` for a message inside the window, up to and including the push
        into the message buffer. */
    method CreateInstance(i: Index, e: Env)
      requires ShapedAll(State()) && Phased(e)
      modifies this`instances
      ensures i in Opened(old(instances), i) && Shaped(Opened(old(instances), i)[i])
      ensures instances == Opened(old(instances), i)[i := Buffered(Opened(old(instances), i)[i], e)]
      ensures ShapedAll(State())
    {
      if i !in instances {
        Retain((j: Index, _: Instance) => !(j.view < i.view && j.sequence == i.sequence));
        instances := instances[i := FRESH];
      }
      assert instances == Opened(old(instances), i);
      instances := instances[i := Buffered(instances[i], e)];
    }

    /** `OnRecv` for pre-prepares, prepares and commits. */
    method OnPhaseMessage(e: Env, check: Check)
      requires ShapedAll(State()) && Phased(e)
      modifies this
      ensures State() == Receive(c, old(State()), e, check)
    {
      hide TryExecute, TraceOutCommit, Opened, Leads, PbftInstance.Go, Handle, Drain;
      var i := IndexOf(e);
      if !(lastExe <= i.sequence <= lastExe + CKP_INTERVAL) || view != i.view {
        if i.sequence > lastExe && e.Commit? {
          TraceOutPbftCommit(e.vote);
        }
        return;
      }
      if !active || i.sequence <= lastExe {
        return;
      }
      CreateInstance(i, e);
      var before := instances[i].phase;
      Go(i, e, check);
      ghost var eff := PbftInstance.Deliver(c, Leads(c, view), Opened(old(instances), i)[i], e, check);
      assert instances == Opened(old(instances), i)[i := eff.inst];
      if before < COMMITED && instances[i].phase == COMMITED {
        TryExecuteValue();
      }
    }

    /** `Request`. */
    method Request(value: string)
      requires ShapedAll(State())
      modifies this
      ensures State() == PbftReplica.Request(c, old(State()), value)
    {
      hide Primary;
      if Primary(c, view) && active {
        var last := lastExe;
        Retain((j: Index, inst: Instance) => !(j.sequence > last && inst.phase < COMMITED));
        var i := Index(view, lastExe + 1);
        var p := Proposal(i.view, i.sequence, c.self, value, c.hash(value));
        instances := instances[i := Requested(p)];
        sent := sent + {PrePrepare(p)};
        assert instances == PbftReplica.Request(c, old(State()), value).instances;
      }
    }

    /** Entering a new view, as `OnNewView` and `ProcessQuorumViewChange` do it. */
    method Enter(newView: int)
      modifies this
      ensures State() == EnterView(old(State()), newView)
    {
      var last := lastExe;
      Retain((j: Index, inst: Instance) => inst.phase == COMMITED || (inst.phase == PREPARED && j.sequence > last));
      view, active := newView, true;
      var key := VcKey(newView);
      if key in vcs {
        vcs := vcs[key := vcs[key].(done := true)];
      }
      DropViewChanges((v: VcKey, vc: VcInstance) => vc.done && v.view >= newView - 5);
      assert instances == EnterView(old(State()), newView).instances;
      assert vcs == EnterView(old(State()), newView).vcs;
    }

    /** `OnViewChangeWithRawValue`. */
    method OnViewChangeMessage(claim: ViewClaim)
      modifies this
      ensures State() == OnViewChange(c, old(State()), claim)
    {
      hide EnterView, Primary;
      if claim.view <= view {
        return;
      }
      var key := VcKey(claim.view);
      var vc := if key in vcs then vcs[key] else VcInstance([], false, false);
      var voters := if claim.replica in vc.voters then vc.voters else vc.voters + [claim.replica];
      vcs := vcs[key := vc.(voters := voters, own := vc.own || claim.replica == c.self)];
      if |voters| > c.quorum && !vc.done && Primary(c, claim.view) {
        ghost var changes := seq(|voters|, k requires 0 <= k < |voters| => ViewClaim(claim.view, voters[k]));
        sent := sent + {NewView(claim.view, c.self, changes)};
        Enter(claim.view);
      }
    }

    /** `OnNewView`: count the distinct replicas its view changes name. */
    method OnNewViewMessage(newView: int, changes: seq<ViewClaim>)
      modifies this
      ensures State() == OnNewView(c, old(State()), newView, changes)
    {
      hide EnterView, Primary;
      if newView <= view || Primary(c, newView) {
        return;
      }
      var ids: set<int> := {};
      for k := 0 to |changes|
        invariant ids == set j | 0 <= j < k :: changes[j].replica
        invariant forall j :: 0 <= j < k ==> changes[j].view == newView
        invariant State() == old(State())
      {
        if changes[k].view != newView {
          return;
        }
        ids := ids + {changes[k].replica};
      }
      if |ids| > c.quorum {
        Enter(newView);
      }
    }

    /** `UpdateValidators` when the membership is unchanged and the proof has a first commit. */
    method OnLedgerClosed(proofView: int, proofSequence: int)
      modifies this
      ensures State() == UpdateValidators(old(State()), proofView, proofSequence)
    {
      var newView := if proofView >= view then proofView + 1 else -1;
      var newSeq := if proofSequence > lastExe then proofSequence else -1;
      if newSeq > 0 {
        lastExe := newSeq;
      }
      if newView > 0 || newSeq > 0 {
        Retain((_: Index, inst: Instance) => inst.phase >= COMMITED);
        view := if newView > 0 then newView else view;
        active := true;
        var v := view;
        DropViewChanges((w: VcKey, vc: VcInstance) => vc.done && w.view >= v - 5);
        ghost var next := UpdateValidators(old(State()), proofView, proofSequence);
        SameMap(instances, next.instances);
        SameMap(vcs, next.vcs);
      }
    }

    /** `OnRecv`: a correct replica that receives a genuine message keeps its invariant, and in
        particular never votes twice. */
    method OnRecv(e: Env, check: Check)
      requires ReplicaOk(c, State()) && ShapedAll(State()) && Genuine(c, State(), e)
      modifies this
      ensures State() == Step(c, old(State()), Recv(e, check))
      ensures ReplicaOk(c, State()) && ShapedAll(State()) && SingleVote(sent)
      ensures ExecutesInOrder(old(State()), State())
    {
      StepOk(c, State(), Recv(e, check));
      StepInOrder(c, State(), Recv(e, check));
      hide ReplicaOk, Receive, OnViewChange, OnNewView, ExecutesInOrder, SingleVote, ShapedAll;
      match e
      case ViewChange(claim) => OnViewChangeMessage(claim);
      case NewView(newView, _, changes) => OnNewViewMessage(newView, changes);
      case _ => OnPhaseMessage(e, check);
      OkVotesOnce(c, State());
    }
  }

  lemma OkVotesOnce(c: Node, r: Replica)
    requires ReplicaOk(c, r)
    ensures SingleVote(r.sent)
  {
  }

  lemma NothingLeft(r: Replica)
    requires ShapedAll(r)
    ensures TryExecute(r, {}) == r
  {
  }
}
