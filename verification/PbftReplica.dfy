/** `Pbft`: the whole replica as a value, with one function per handler. The two
    history fields record every message ever sent and every call to `OnValueCommited`. */
module PbftReplica {
  import opened Quorum
  import opened PbftInstance
  import opened PbftProof

  const CKP_INTERVAL: int := 10

  /** A catch-up instance: commits seen for an index outside the window or view. */
  datatype OutInstance = OutInstance(digest: string, commits: map<int, Vote>)

  datatype VcKey = VcKey(view: int)

  datatype VcInstance = VcInstance(voters: seq<int>, own: bool, done: bool)

  datatype Delivery = Delivery(index: Index, inst: Instance, proof: seq<Env>)

  datatype Replica = Replica(
    view: int,
    active: bool,
    lastExe: int,
    instances: map<Index, Instance>,
    outs: map<Index, OutInstance>,
    vcs: map<VcKey, VcInstance>,
    sent: set<Env>,
    log: seq<Delivery>)

  const INITIAL := Replica(0, true, 1, map[], map[], map[], {}, [])

  predicate ShapedAll(r: Replica)
  {
    forall i :: i in r.instances ==> Shaped(r.instances[i])
  }

  predicate InWaterMark(r: Replica, sequence: int)
  {
    r.lastExe <= sequence <= r.lastExe + CKP_INTERVAL
  }

  function Emitted(out: seq<Env>): set<Env>
  {
    set e | e in out
  }

  // ---- Execution in instance-map order ----

  ghost function Least(s: set<Index>): (i: Index)
    requires s != {}
    ensures i in s && forall j :: j in s && j != i ==> Before(i, j)
  {
    var x :| x in s;
    if s == {x} then x
    else
      assert s == {x} + (s - {x});
      var y := Least(s - {x});
      if Before(x, y) then x else y
  }

  function Execute(r: Replica, i: Index): Replica
    requires i in r.instances && Shaped(r.instances[i])
  {
    var inst := r.instances[i];
    r.(lastExe := r.lastExe + 1,
       log := r.log + [Delivery(i, inst, FirstPerSigner(inst.buf[PREPARED]))],
       instances := map j | j in r.instances && j.sequence > i.sequence - CKP_INTERVAL / 2 :: r.instances[j])
  }

  /** `TryExecuteValue`, with `rest` the indices its iterator has not reached yet. */
  ghost function TryExecute(r: Replica, rest: set<Index>): Replica
    requires rest <= r.instances.Keys && ShapedAll(r)
    decreases |rest|
  {
    if rest == {} then r
    else
      var i := Least(rest);
      assert rest == {i} + (rest - {i});
      if i.sequence <= r.lastExe then TryExecute(r, rest - {i})
      else if i.sequence == r.lastExe + 1 && r.instances[i].phase >= COMMITED then
        var next := Execute(r, i);
        SubsetSize((rest - {i}) * next.instances.Keys, rest - {i});
        TryExecute(next, (rest - {i}) * next.instances.Keys)
      else r
  }

  // ---- Messages of one instance ----

  /** `CreateInstanceIfNotExist`: a new instance displaces the older views of its sequence. */
  function Opened(instances: map<Index, Instance>, i: Index): map<Index, Instance>
  {
    if i in instances then instances
    else (map j | j in instances && !(j.view < i.view && j.sequence == i.sequence) :: instances[j])[i := FRESH]
  }

  ghost function Receive(c: Node, r: Replica, e: Env, check: Check): Replica
    requires Phased(e) && ShapedAll(r)
  {
    var i := IndexOf(e);
    if !InWaterMark(r, i.sequence) || r.view != i.view then
      if i.sequence > r.lastExe && e.Commit? then TraceOutCommit(c, r, e.vote) else r
    else if !r.active || i.sequence <= r.lastExe then r
    else
      var instances := Opened(r.instances, i);
      var eff := Deliver(c, Leads(c, r.view), instances[i], e, check);
      var next := r.(instances := instances[i := eff.inst], sent := r.sent + Emitted(eff.out));
      if instances[i].phase < COMMITED && eff.inst.phase == COMMITED
      then TryExecute(next, next.instances.Keys)
      else next
  }

  /** `TraceOutPbftCommit`: a commit outside the window or of another view. */
  ghost function TraceOutCommit(c: Node, r: Replica, v: Vote): Replica
    requires ShapedAll(r)
  {
    var i := Index(v.view, v.sequence);
    if i in r.instances then
      var inst := OnCommit(c, r.instances[i], v);
      var next := r.(instances := r.instances[i := inst]);
      if r.instances[i].phase < COMMITED && inst.phase == COMMITED
      then TryExecute(next, next.instances.Keys)
      else next
    else
      var out := if i in r.outs then r.outs[i] else OutInstance(v.digest, map[]);
      if out.digest != v.digest then r
      else
        var out' := out.(commits := Recorded(out.commits, v));
        TryTraceOut(c, r.(outs := r.outs[i := out']), i, out')
  }

  /** `TryDoTraceOut`: a commit quorum a whole interval ahead moves the window, and the view, there. */
  function TryTraceOut(c: Node, r: Replica, i: Index, out: OutInstance): Replica
  {
    if |out.commits| >= c.quorum + 1 && i.sequence - r.lastExe >= CKP_INTERVAL then
      r.(active := true, view := i.view, lastExe := i.sequence,
         vcs := map v | v in r.vcs && !r.vcs[v].own :: r.vcs[v],
         instances := map j | j in r.instances && j.sequence > i.sequence :: r.instances[j],
         outs := map[])
    else r
  }

  /** The primary proposes a value for the next sequence. */
  function Request(c: Node, r: Replica, value: string): Replica
    requires ShapedAll(r)
  {
    if !Primary(c, r.view) || !r.active then r
    else
      var kept := map j | j in r.instances && !(j.sequence > r.lastExe && r.instances[j].phase < COMMITED) :: r.instances[j];
      var i := Index(r.view, r.lastExe + 1);
      var p := Proposal(i.view, i.sequence, c.self, value, c.hash(value));
      r.(instances := kept[i := Requested(p)], sent := r.sent + {PrePrepare(p)})
  }

  // ---- View changes ----

  /** What survives entering a new view. */
  function Survivors(r: Replica): map<Index, Instance>
  {
    map j | j in r.instances && (r.instances[j].phase == COMMITED
                                 || (r.instances[j].phase == PREPARED && j.sequence > r.lastExe)) :: r.instances[j]
  }

  /** `ClearViewChanges`, after the view number has been set. */
  function RecentViewChanges(vcs: map<VcKey, VcInstance>, view: int): map<VcKey, VcInstance>
  {
    map v | v in vcs && vcs[v].done && v.view >= view - 5 :: vcs[v]
  }

  function EnterView(r: Replica, view: int): Replica
  {
    var key := VcKey(view);
    var vcs := if key in r.vcs then r.vcs[key := r.vcs[key].(done := true)] else r.vcs;
    r.(view := view, active := true, instances := Survivors(r), vcs := RecentViewChanges(vcs, view))
  }

  function OnViewChange(c: Node, r: Replica, claim: ViewClaim): Replica
  {
    if claim.view <= r.view then r
    else
      var key := VcKey(claim.view);
      var vc := if key in r.vcs then r.vcs[key] else VcInstance([], false, false);
      var voters := if claim.replica in vc.voters then vc.voters else vc.voters + [claim.replica];
      var vc' := vc.(voters := voters, own := vc.own || claim.replica == c.self);
      var next := r.(vcs := r.vcs[key := vc']);
      if |voters| > c.quorum && !vc.done && Primary(c, claim.view) then
        var changes := seq(|voters|, k requires 0 <= k < |voters| => ViewClaim(claim.view, voters[k]));
        EnterView(next.(sent := next.sent + {NewView(claim.view, c.self, changes)}), claim.view)
      else next
  }

  /** `OnNewView`. The view changes inside the message are counted by the replica ids
      they name; only the outer message is ever checked. */
  function OnNewView(c: Node, r: Replica, view: int, changes: seq<ViewClaim>): Replica
  {
    if view <= r.view || Primary(c, view) then r
    else if exists k :: 0 <= k < |changes| && changes[k].view != view then r
    else if |set k | 0 <= k < |changes| :: changes[k].replica| <= c.quorum then r
    else EnterView(r, view)
  }

  // ---- Validator updates and timers ----

  /** `UpdateValidators` with unchanged membership and a proof whose first commit is
      at (view, sequence). */
  function UpdateValidators(r: Replica, view: int, sequence: int): Replica
  {
    var newView := if view >= r.view then view + 1 else -1;
    var newSeq := if sequence > r.lastExe then sequence else -1;
    var moved := if newSeq > 0 then r.(lastExe := newSeq) else r;
    if newView > 0 || newSeq > 0 then
      var v := if newView > 0 then newView else r.view;
      moved.(view := v, active := true,
             instances := map j | j in r.instances && r.instances[j].phase >= COMMITED :: r.instances[j],
             vcs := RecentViewChanges(r.vcs, v))
    else moved
  }

  /** Everything that can happen at one replica. */
  datatype Event =
    | Recv(e: Env, check: Check)
    | Propose(value: string)
    | TxTimeout
    | NewViewTimeout(view: int)
    | ResendProposal(index: Index)
    | ResendCommit(index: Index, from: int)
    | LedgerClosed(view: int, sequence: int)

  ghost function Step(c: Node, r: Replica, ev: Event): Replica
    requires ShapedAll(r)
  {
    match ev
    case Recv(ViewChange(claim), _) => OnViewChange(c, r, claim)
    case Recv(NewView(view, _, changes), _) => OnNewView(c, r, view, changes)
    case Recv(e, check) => Receive(c, r, e, check)
    case Propose(value) => Request(c, r, value)
    case TxTimeout => r.(active := false, sent := r.sent + {ViewChange(ViewClaim(r.view + 1, c.self))})
    case NewViewTimeout(view) =>
      if r.active then r else r.(sent := r.sent + {ViewChange(ViewClaim(view + 1, c.self))})
    case ResendProposal(i) =>
      if r.active && i in r.instances && r.instances[i].phase < COMMITED && r.instances[i].own.Some?
      then r.(sent := r.sent + {PrePrepare(r.instances[i].own.value)}) else r
    case ResendCommit(i, k) =>
      if i in r.instances && r.instances[i].phase >= PREPARED && r.instances[i].check.Valid?
         && r.instances[i].commitSent && k in r.instances[i].prepares
      then var v := r.instances[i].prepares[k];
           r.(sent := r.sent + {Commit(Vote(v.view, v.sequence, c.self, v.digest))})
      else r
    case LedgerClosed(view, sequence) => UpdateValidators(r, view, sequence)
  }
}
