/** What a replica forgets and what it says: for every event, which instances, set-aside commits
    and view changes are still there afterwards, and which messages have been sent. */
module PbftMemory {
  import opened Options
  import opened Quorum
  import opened PbftInstance
  import opened PbftProof
  import opened PbftReplica
  import opened PbftInvariant
  import opened PbftSystem
  import opened PbftEvidence

  // ---- Execution ----

  /** Execution takes instances five below the last executed sequence away, and nothing else. */
  predicate KeptByExecution(r: Replica, r': Replica, j: Index)
  {
    && (j in r'.instances <==>
          j in r.instances && (r'.lastExe == r.lastExe || j.sequence > r'.lastExe - CKP_INTERVAL / 2))
    && (j in r'.instances ==> r'.instances[j] == r.instances[j])
  }

  predicate SameRest(r: Replica, r': Replica)
  {
    r'.view == r.view && r'.active == r.active && r'.sent == r.sent && r'.outs == r.outs && r'.vcs == r.vcs
  }

  lemma ExecuteKeeps(r: Replica, i: Index, j: Index)
    requires i in r.instances && ShapedAll(r) && i.sequence == r.lastExe + 1
    ensures var r' := Execute(r, i);
            r'.lastExe == r.lastExe + 1 && ShapedAll(r') && SameRest(r, r') && KeptByExecution(r, r', j)
  {
    hide FirstPerSigner;
  }

  lemma {:induction false} TryExecuteKeeps(r: Replica, rest: set<Index>, j: Index)
    requires rest <= r.instances.Keys && ShapedAll(r)
    ensures var r' := TryExecute(r, rest);
            r'.lastExe >= r.lastExe && SameRest(r, r') && KeptByExecution(r, r', j)
    decreases |rest|
  {
    if rest != {} {
      hide Execute, ShapedAll;
      var i := Least(rest);
      assert rest == {i} + (rest - {i});
      if i.sequence <= r.lastExe {
        TryExecuteKeeps(r, rest - {i}, j);
      } else if i.sequence == r.lastExe + 1 && r.instances[i].phase >= COMMITED {
        ExecuteKeeps(r, i, j);
        var next := Execute(r, i);
        SubsetSize((rest - {i}) * next.instances.Keys, rest - {i});
        TryExecuteKeeps(next, (rest - {i}) * next.instances.Keys, j);
      }
    }
  }

  /** An older view's instance for a sequence not executed yet. */
  predicate Blocks(r: Replica, i: Index, j: Index)
  {
    i in r.instances && i.view < j.view && i.sequence > r.lastExe
  }

  /** Execution stops before a committed instance that is next only behind an older view. */
  ghost predicate StopsOnlyBehind(r: Replica, j: Index)
  {
    j in r.instances && j.sequence == r.lastExe + 1 && r.instances[j].phase >= COMMITED ==> exists i :: Blocks(r, i, j)
  }

  lemma {:induction false} TryExecuteReaches(r: Replica, rest: set<Index>, j: Index)
    requires rest <= r.instances.Keys && ShapedAll(r)
    requires forall i :: i in r.instances && i !in rest ==> i.sequence <= r.lastExe
    ensures StopsOnlyBehind(TryExecute(r, rest), j)
    decreases |rest|
  {
    if rest != {} {
      hide FirstPerSigner;
      var i := Least(rest);
      assert rest == {i} + (rest - {i});
      if i.sequence <= r.lastExe {
        TryExecuteReaches(r, rest - {i}, j);
      } else if i.sequence == r.lastExe + 1 && r.instances[i].phase >= COMMITED {
        var next := Execute(r, i);
        SubsetSize((rest - {i}) * next.instances.Keys, rest - {i});
        TryExecuteReaches(next, (rest - {i}) * next.instances.Keys, j);
      } else if j in rest && j.sequence == r.lastExe + 1 && i != j {
        assert Before(i, j);
        if i.view < j.view { assert Blocks(r, i, j); }
      }
    }
  }

  /** Every committed instance that is next is executed, unless an instance of an older view for
      a sequence still to come stands before it. */
  lemma ExecutesUnlessBlocked(r: Replica, j: Index)
    requires ShapedAll(r)
    ensures StopsOnlyBehind(TryExecute(r, r.instances.Keys), j)
  {
    TryExecuteReaches(r, r.instances.Keys, j);
  }

  // ---- Instances ----

  /** A message of an instance that is taken in. */
  predicate TakenIn(r: Replica, e: Env)
    requires Phased(e)
  {
    r.active && InWaterMark(r, IndexOf(e).sequence) && r.view == IndexOf(e).view && IndexOf(e).sequence > r.lastExe
  }

  /** A proposal that is made. */
  predicate Proposes(c: Node, r: Replica, ev: Event)
  {
    ev.Propose? && Primary(c, r.view) && r.active
  }

  /** A step that changed the view or skipped sequences. */
  predicate Moved(r: Replica, r': Replica)
  {
    r'.view != r.view || r'.lastExe != r.lastExe
  }

  /** What a replica forgets: after a jump all that lies before it; when a new instance opens, older
      views of its sequence; after execution what is five behind; in a new view all that is neither
      committed nor prepared and pending; for a proposal and at a ledger close what is uncommitted. */
  predicate Forgets(c: Node, r: Replica, ev: Event, r': Replica, j: Index)
    requires j in r.instances
  {
    var phase := r.instances[j].phase;
    match ev
    case Recv(e, _) =>
      if !Phased(e) then r'.view != r.view && phase != COMMITED && !(phase == PREPARED && j.sequence > r.lastExe)
      else if !Level(r, r') then j.sequence <= r'.lastExe
      else
        || (TakenIn(r, e) && IndexOf(e) !in r.instances && j.view < IndexOf(e).view && j.sequence == IndexOf(e).sequence)
        || (r'.lastExe > r.lastExe && j.sequence <= r'.lastExe - CKP_INTERVAL / 2)
    case Propose(_) =>
      Proposes(c, r, ev) && j.sequence > r.lastExe && phase < COMMITED && j != Index(r.view, r.lastExe + 1)
    case LedgerClosed(_, _) => Moved(r, r') && phase < COMMITED
    case TxTimeout => false
    case NewViewTimeout(_) => false
    case ResendProposal(_) => false
    case ResendCommit(_, _) => false
  }

  /** The index an event is about, if any. */
  predicate Concerns(c: Node, r: Replica, ev: Event, j: Index)
  {
    match ev
    case Recv(e, _) => Phased(e) && IndexOf(e) == j && (TakenIn(r, e) || (e.Commit? && j in r.instances))
    case Propose(_) => Proposes(c, r, ev) && j == Index(r.view, r.lastExe + 1)
    case _ => false
  }

  /** An instance that was there is there still, unless forgotten, and unchanged unless the event
      concerns it; a new one is one the event concerns. */
  predicate InstanceFollows(c: Node, r: Replica, ev: Event, r': Replica, j: Index)
  {
    && (j in r.instances ==> (j !in r'.instances <==> Forgets(c, r, ev, r', j)))
    && (j in r'.instances && !Concerns(c, r, ev, j) ==> j in r.instances && r'.instances[j] == r.instances[j])
  }

  lemma TakenInFollows(c: Node, r: Replica, e: Env, check: Check, j: Index)
    requires ShapedAll(r) && Phased(e) && TakenIn(r, e)
    ensures InstanceFollows(c, r, Recv(e, check), Receive(c, r, e, check), j)
  {
    InWindowCalm(c, r, e, check);
    hide Receive, TryExecute, Deliver, Leads;
    ReceiveInWindow(c, r, e, check);
    var i := IndexOf(e);
    var instances := Opened(r.instances, i);
    var next := AfterDelivery(r, instances, i, Deliver(c, Leads(c, r.view), instances[i], e, check));
    TryExecuteKeeps(next, next.instances.Keys, j);
  }

  lemma HeldFollows(c: Node, r: Replica, v: Vote, check: Check, j: Index)
    requires ShapedAll(r) && Index(v.view, v.sequence) in r.instances && !TakenIn(r, Commit(v))
    ensures InstanceFollows(c, r, Recv(Commit(v), check), TraceOutCommit(c, r, v), j)
  {
    HeldCalm(c, r, v);
    hide TryExecute, OnCommit;
    var i := Index(v.view, v.sequence);
    var next := r.(instances := r.instances[i := OnCommit(c, r.instances[i], v)]);
    TryExecuteKeeps(next, next.instances.Keys, j);
  }

  /** A commit set aside: nothing is forgotten, or all that lies before the place jumped to. */
  lemma AsideFollows(c: Node, r: Replica, v: Vote, check: Check, j: Index)
    requires ShapedAll(r) && Elsewhere(r, Index(v.view, v.sequence)) && !TakenIn(r, Commit(v))
    ensures InstanceFollows(c, r, Recv(Commit(v), check), TraceOutCommit(c, r, v), j)
  {
    hide TryExecute, OnCommit, Recorded;
  }

  lemma ReceiveFollows(c: Node, r: Replica, e: Env, check: Check, j: Index)
    requires ShapedAll(r) && Phased(e)
    ensures InstanceFollows(c, r, Recv(e, check), Receive(c, r, e, check), j)
  {
    hide TraceOutCommit, TryExecute, Deliver, InstanceFollows;
    var i := IndexOf(e);
    if TakenIn(r, e) {
      TakenInFollows(c, r, e, check, j);
    } else if (!InWaterMark(r, i.sequence) || r.view != i.view) && i.sequence > r.lastExe && e.Commit? {
      if i in r.instances { HeldFollows(c, r, e.vote, check, j); } else { AsideFollows(c, r, e.vote, check, j); }
    } else {
      NothingFollows(c, r, Recv(e, check), j);
    }
  }

  lemma NothingFollows(c: Node, r: Replica, ev: Event, j: Index)
    requires ev.Recv? && Phased(ev.e) && !TakenIn(r, ev.e)
    ensures InstanceFollows(c, r, ev, r, j)
  {
  }

  lemma OthersFollow(c: Node, r: Replica, ev: Event, j: Index)
    requires ShapedAll(r) && !(ev.Recv? && Phased(ev.e))
    ensures InstanceFollows(c, r, ev, Step(c, r, ev), j)
  {
    hide RecentViewChanges, Primary, Receive;
  }

  /** Forgetting, exactly: for every event and every index. */
  lemma InstancesChange(c: Node, r: Replica, ev: Event, j: Index)
    requires ShapedAll(r)
    ensures InstanceFollows(c, r, ev, Step(c, r, ev), j)
  {
    hide InstanceFollows, Receive;
    if ev.Recv? && Phased(ev.e) { ReceiveFollows(c, r, ev.e, ev.check, j); } else { OthersFollow(c, r, ev, j); }
  }

  // ---- Commits set aside, and view changes ----

  /** A jump clears what was set aside; else a commit for an index elsewhere is recorded if it is
      for the digest recorded there. */
  function OutAfter(r: Replica, ev: Event, r': Replica, i: Index): Option<OutInstance>
  {
    if ev.Recv? && Phased(ev.e) && !Level(r, r') then None
    else if ev.Recv? && ev.e.Commit? && IndexOf(ev.e) == i && Elsewhere(r, i)
            && (i in r.outs ==> r.outs[i].digest == ev.e.vote.digest) then Some(SetAside(r, i, ev.e.vote))
    else Lookup(r.outs, i)
  }

  /** A claim for a later view is recorded. The view a replica enters is marked done, and on entry,
      as at a ledger close, only view changes that are done and at most five views old stay. A jump
      drops those it took part in. */
  function ViewChangeAfter(c: Node, r: Replica, ev: Event, r': Replica, key: VcKey): Option<VcInstance>
  {
    match ev
    case Recv(e, _) =>
      if Phased(e) then
        if !Level(r, r') && key in r.vcs && r.vcs[key].own then None else Lookup(r.vcs, key)
      else
        var vc := if e.ViewChange? && e.claim.view > r.view && key.view == e.claim.view
                  then Some(Claimed(r, c, e.claim)) else Lookup(r.vcs, key);
        if vc.None? || r'.view == r.view then vc
        else if key.view == r'.view then Some(vc.value.(done := true))
        else if vc.value.done && key.view >= r'.view - 5 then vc
        else None
    case LedgerClosed(_, _) =>
      if Moved(r, r') && key in r.vcs && !(r.vcs[key].done && key.view >= r'.view - 5) then None else Lookup(r.vcs, key)
    case _ => Lookup(r.vcs, key)
  }

  function ActiveAfter(r: Replica, ev: Event, r': Replica): bool
  {
    if ev.TxTimeout? then false
    else r.active || !Level(r, r') || r'.view != r.view
  }

  predicate RecordsFollow(c: Node, r: Replica, ev: Event, r': Replica, i: Index, key: VcKey)
  {
    && Lookup(r'.outs, i) == OutAfter(r, ev, r', i)
    && Lookup(r'.vcs, key) == ViewChangeAfter(c, r, ev, r', key)
    && r'.active == ActiveAfter(r, ev, r')
  }

  lemma AsideRecords(c: Node, r: Replica, v: Vote, check: Check, i: Index, key: VcKey)
    requires ShapedAll(r) && Elsewhere(r, Index(v.view, v.sequence))
    ensures RecordsFollow(c, r, Recv(Commit(v), check), TraceOutCommit(c, r, v), i, key)
  {
    hide TraceOutCommit, SetAside, RecordsFollow;
    AsideIs(c, r, v);
    var j := Index(v.view, v.sequence);
    var out := SetAside(r, j, v);
    if j in r.outs && r.outs[j].digest != v.digest {
      UnrecordedFollows(c, r, v, check, i, key);
    } else if |out.commits| >= c.quorum + 1 && j.sequence - r.lastExe >= CKP_INTERVAL {
      JumpFollows(c, r, v, check, i, key);
    } else {
      RecordedFollows(c, r, v, check, i, key);
    }
  }

  lemma UnrecordedFollows(c: Node, r: Replica, v: Vote, check: Check, i: Index, key: VcKey)
    requires var j := Index(v.view, v.sequence); j in r.outs && r.outs[j].digest != v.digest
    ensures RecordsFollow(c, r, Recv(Commit(v), check), r, i, key)
  {
    hide Elsewhere, SetAside, Claimed;
  }

  lemma RecordedFollows(c: Node, r: Replica, v: Vote, check: Check, i: Index, key: VcKey)
    requires var j := Index(v.view, v.sequence); Elsewhere(r, j) && (j in r.outs ==> r.outs[j].digest == v.digest)
    ensures var j := Index(v.view, v.sequence);
            RecordsFollow(c, r, Recv(Commit(v), check), r.(outs := r.outs[j := SetAside(r, j, v)]), i, key)
  {
    hide Elsewhere, SetAside, Claimed;
  }

  lemma JumpFollows(c: Node, r: Replica, v: Vote, check: Check, i: Index, key: VcKey)
    requires v.sequence - r.lastExe >= CKP_INTERVAL
    requires |SetAside(r, Index(v.view, v.sequence), v).commits| >= c.quorum + 1
    ensures var j := Index(v.view, v.sequence);
            var out := SetAside(r, j, v);
            RecordsFollow(c, r, Recv(Commit(v), check), TryTraceOut(c, r.(outs := r.outs[j := out]), j, out), i, key)
  {
    hide Elsewhere, SetAside, Claimed;
  }

  lemma AsideIs(c: Node, r: Replica, v: Vote)
    requires ShapedAll(r) && Elsewhere(r, Index(v.view, v.sequence))
    ensures var i := Index(v.view, v.sequence);
            TraceOutCommit(c, r, v) == if i in r.outs && r.outs[i].digest != v.digest then r
                                       else TryTraceOut(c, r.(outs := r.outs[i := SetAside(r, i, v)]), i, SetAside(r, i, v))
  {
    hide TryExecute, OnCommit, TryTraceOut, Recorded;
  }

  /** A phase message that is not for an index elsewhere. */
  lemma CalmRecords(c: Node, r: Replica, e: Env, check: Check, i: Index, key: VcKey)
    requires ShapedAll(r) && Phased(e) && !(e.Commit? && Elsewhere(r, IndexOf(e)))
    ensures RecordsFollow(c, r, Recv(e, check), Receive(c, r, e, check), i, key)
  {
    ReceiveCalm(c, r, e, check);
    ReceiveActive(c, r, e, check);
    hide Receive, Elsewhere, Claimed;
  }

  lemma ReceiveActive(c: Node, r: Replica, e: Env, check: Check)
    requires ShapedAll(r) && Phased(e) && !(e.Commit? && Elsewhere(r, IndexOf(e)))
    ensures Receive(c, r, e, check).active == r.active
  {
    hide TryExecute, Deliver, OnCommit;
    var i := IndexOf(e);
    if TakenIn(r, e) {
      hide Receive;
      ReceiveInWindow(c, r, e, check);
      var instances := Opened(r.instances, i);
      var next := AfterDelivery(r, instances, i, Deliver(c, Leads(c, r.view), instances[i], e, check));
      TryExecuteKeeps(next, next.instances.Keys, i);
    } else if e.Commit? && i in r.instances {
      var next := r.(instances := r.instances[i := OnCommit(c, r.instances[i], e.vote)]);
      TryExecuteKeeps(next, next.instances.Keys, i);
    }
  }

  lemma ViewChangeRecords(c: Node, r: Replica, claim: ViewClaim, check: Check, i: Index, key: VcKey)
    ensures RecordsFollow(c, r, Recv(ViewChange(claim), check), OnViewChange(c, r, claim), i, key)
  {
    hide Primary, Survivors;
  }

  lemma NewViewRecords(c: Node, r: Replica, view: int, sender: int, changes: seq<ViewClaim>, check: Check, i: Index, key: VcKey)
    ensures RecordsFollow(c, r, Recv(NewView(view, sender, changes), check), OnNewView(c, r, view, changes), i, key)
  {
    hide Primary, Survivors, Claimed;
  }

  lemma OtherRecords(c: Node, r: Replica, ev: Event, i: Index, key: VcKey)
    requires ShapedAll(r) && !ev.Recv?
    ensures RecordsFollow(c, r, ev, Step(c, r, ev), i, key)
  {
    hide Primary, Claimed, Elsewhere, SetAside;
  }

  /** Commits set aside, view changes and whether the replica is active, after every event. */
  lemma RecordsChange(c: Node, r: Replica, ev: Event, i: Index, key: VcKey)
    requires ShapedAll(r)
    ensures RecordsFollow(c, r, ev, Step(c, r, ev), i, key)
  {
    hide RecordsFollow, TraceOutCommit, TryExecute, Deliver, OnViewChange, OnNewView;
    if !ev.Recv? {
      OtherRecords(c, r, ev, i, key);
    } else if ev.e.ViewChange? {
      ViewChangeRecords(c, r, ev.e.claim, ev.check, i, key);
    } else if ev.e.NewView? {
      NewViewRecords(c, r, ev.e.view, ev.e.replica, ev.e.changes, ev.check, i, key);
    } else if ev.e.Commit? && Elsewhere(r, IndexOf(ev.e)) {
      AsideRecords(c, r, ev.e.vote, ev.check, i, key);
    } else {
      CalmRecords(c, r, ev.e, ev.check, i, key);
    }
  }

  // ---- Messages ----

  /** Why a replica says what is not a vote. */
  predicate Says(c: Node, r: Replica, ev: Event, e: Env)
  {
    match e
    case PrePrepare(p) =>
      || (Proposes(c, r, ev) && p == Proposal(r.view, r.lastExe + 1, c.self, ev.value, c.hash(ev.value)))
      || (ev.ResendProposal? && r.active && ev.index in r.instances && r.instances[ev.index].phase < COMMITED
          && r.instances[ev.index].own == Some(p))
    case ViewChange(claim) =>
      || (ev.TxTimeout? && claim == ViewClaim(r.view + 1, c.self))
      || (ev.NewViewTimeout? && !r.active && claim == ViewClaim(ev.view + 1, c.self))
    case NewView(view, sender, changes) =>
      && ev.Recv? && ev.e.ViewChange? && view == ev.e.claim.view && view > r.view && Primary(c, view) && sender == c.self
      && (VcKey(view) in r.vcs ==> !r.vcs[VcKey(view)].done)
      && |Claimed(r, c, ev.e.claim).voters| > c.quorum && changes == Claims(view, Claimed(r, c, ev.e.claim).voters)
    case _ => false
  }

  /** A vote is sent on a message taken in, a prepare only for a value just found valid, a commit
      only if the value of the instance was; or a commit once more. */
  predicate MayVote(r: Replica, ev: Event, e: Env)
  {
    || (ev.Recv? && Phased(ev.e) && TakenIn(r, ev.e)
        && (ev.check.Valid? || (e.Commit? && FoundValid(r, IndexOf(ev.e)))))
    || (ev.ResendCommit? && e.Commit? && FoundValid(r, ev.index))
  }

  predicate FoundValid(r: Replica, i: Index)
  {
    i in r.instances && r.instances[i].phase >= PREPREPARED && r.instances[i].check.Valid?
  }

  /** A value is accepted with a verdict, and keeps it. */
  predicate Judged(inst: Instance, check: Check)
  {
    check.Valid? || (inst.phase >= PREPREPARED && inst.check.Valid?)
  }

  /** No vote without a verdict: no prepare unless the verdict is given now. */
  predicate VotesJudged(inst: Instance, check: Check, out: seq<Env>)
  {
    forall e :: e in out ==> check.Valid? || (e.Commit? && Judged(inst, check))
  }

  predicate Sorted(inst: Instance)
  {
    forall t, k :: 0 <= t < |inst.buf| && 0 <= k < |inst.buf[t]| ==> Phased(inst.buf[t][k]) && TypeOf(inst.buf[t][k]) == t
  }

  lemma HandleJudged(c: Node, leads: bool, inst: Instance, e: Env, check: Check)
    requires Shaped(inst) && Phased(e) && TypeOf(e) <= inst.phase
    ensures var r := Handle(c, leads, inst, e, check);
            VotesJudged(inst, check, r.out) && (Judged(r.inst, check) ==> Judged(inst, check))
  {
    match e
    case PrePrepare(p) =>
    case Prepare(v) => hide Recorded;
    case Commit(v) => hide Recorded;
  }

  lemma JudgedJoined(inst: Instance, next: Instance, check: Check, a: seq<Env>, b: seq<Env>)
    requires VotesJudged(inst, check, a) && VotesJudged(next, check, b) && (Judged(next, check) ==> Judged(inst, check))
    ensures VotesJudged(inst, check, a + b)
  {
    hide Judged;
  }

  lemma {:induction false} DrainJudged(c: Node, leads: bool, inst: Instance, check: Check)
    requires Shaped(inst) && Sorted(inst)
    ensures VotesJudged(inst, check, Drain(c, leads, inst, check).out)
    decreases COMMITED - inst.phase, |inst.buf[inst.phase]| - inst.item
  {
    hide Handle, VotesJudged, Sorted, Judged;
    if |inst.buf[inst.phase]| <= inst.item {
      NothingJudged(inst, check);
    } else {
      var ready, e := inst.(item := inst.item + 1), inst.buf[inst.phase][inst.item];
      NextSorted(inst);
      var step := Handle(c, leads, ready, e, check);
      HandleJudged(c, leads, ready, e, check);
      SortedAlike(inst, step.inst);
      DrainJudged(c, leads, step.inst, check);
      JudgedJoined(ready, step.inst, check, step.out, Drain(c, leads, step.inst, check).out);
      SameVerdict(inst, ready, check, Drain(c, leads, inst, check).out);
    }
  }

  lemma NothingJudged(inst: Instance, check: Check)
    ensures VotesJudged(inst, check, [])
  {
  }

  lemma NextSorted(inst: Instance)
    requires Shaped(inst) && Sorted(inst) && inst.item < |inst.buf[inst.phase]|
    ensures Phased(inst.buf[inst.phase][inst.item]) && TypeOf(inst.buf[inst.phase][inst.item]) == inst.phase
  {
  }

  lemma SortedAlike(inst: Instance, other: Instance)
    requires Sorted(inst) && other.buf == inst.buf
    ensures Sorted(other)
  {
  }

  lemma SameVerdict(inst: Instance, other: Instance, check: Check, out: seq<Env>)
    requires VotesJudged(other, check, out) && other.phase == inst.phase && other.check == inst.check
    ensures VotesJudged(inst, check, out)
  {
  }

  lemma DeliverJudged(c: Node, leads: bool, inst: Instance, e: Env, check: Check)
    requires Shaped(inst) && Sorted(inst) && Phased(e)
    ensures VotesJudged(inst, check, Deliver(c, leads, inst, e, check).out)
  {
    var ready := Buffered(inst, e);
    assert Sorted(ready);
    hide Handle, Drain, VotesJudged, Sorted;
    if TypeOf(e) < ready.phase {
      HandleJudged(c, leads, ready, e, check);
    } else {
      DrainJudged(c, leads, ready, check);
    }
    SameVerdict(inst, ready, check, Deliver(c, leads, inst, e, check).out);
  }

  lemma OkIsSorted(c: Node, i: Index, inst: Instance, sent: set<Env>, live: bool)
    requires InstOk(c, i, inst, sent, live)
    ensures Sorted(inst)
  {
    forall t, k | 0 <= t < |inst.buf| && 0 <= k < |inst.buf[t]|
      ensures Phased(inst.buf[t][k]) && TypeOf(inst.buf[t][k]) == t
    {
      assert Belongs(c, i, t, inst.buf[t][k], sent);
    }
  }

  predicate MessageFollows(c: Node, r: Replica, ev: Event, r': Replica, e: Env)
  {
    && (!IsVote(e) ==> (e in r'.sent <==> e in r.sent || Says(c, r, ev, e)))
    && (IsVote(e) && e in r.sent ==> e in r'.sent)
    && (IsVote(e) && e in r'.sent && e !in r.sent ==> MayVote(r, ev, e))
  }

  lemma TakenInSays(c: Node, r: Replica, m: Env, check: Check, e: Env)
    requires InstancesOk(c, r) && ShapedAll(r) && Phased(m) && TakenIn(r, m)
    ensures MessageFollows(c, r, Recv(m, check), Receive(c, r, m, check), e)
  {
    hide Receive, TryExecute, Deliver, Leads, Sorted, InstOk, Says, Shaped;
    ReceiveInWindow(c, r, m, check);
    var i := IndexOf(m);
    var instances := Opened(r.instances, i);
    if i in r.instances { OkIsSorted(c, i, r.instances[i], r.sent, i.view == r.view); } else { FreshSorted(); }
    var eff := Deliver(c, Leads(c, r.view), instances[i], m, check);
    DeliverJudged(c, Leads(c, r.view), instances[i], m, check);
    DeliverSendsVotes(c, Leads(c, r.view), instances[i], m, check);
    var next := AfterDelivery(r, instances, i, eff);
    TryExecuteKeeps(next, next.instances.Keys, i);
    PhasedSaysNothing(c, r, m, check, e);
  }

  lemma FreshSorted()
    ensures Sorted(FRESH)
  {
  }

  lemma PhasedSaysNothing(c: Node, r: Replica, m: Env, check: Check, e: Env)
    requires Phased(m)
    ensures !Says(c, r, Recv(m, check), e)
  {
  }

  lemma ElsewhereSays(c: Node, r: Replica, m: Env, check: Check, e: Env)
    requires ShapedAll(r) && Phased(m) && !TakenIn(r, m)
    ensures Receive(c, r, m, check).sent == r.sent
    ensures MessageFollows(c, r, Recv(m, check), Receive(c, r, m, check), e)
  {
    hide TryExecute, OnCommit, Deliver, Recorded, Says;
    var i := IndexOf(m);
    if m.Commit? && i in r.instances {
      var next := r.(instances := r.instances[i := OnCommit(c, r.instances[i], m.vote)]);
      TryExecuteKeeps(next, next.instances.Keys, i);
    }
    PhasedSaysNothing(c, r, m, check, e);
  }

  lemma ViewChangeSays(c: Node, r: Replica, claim: ViewClaim, check: Check, e: Env)
    ensures MessageFollows(c, r, Recv(ViewChange(claim), check), OnViewChange(c, r, claim), e)
  {
    hide Primary, Survivors, RecentViewChanges;
  }

  lemma OtherSays(c: Node, r: Replica, ev: Event, e: Env)
    requires ShapedAll(r) && InstancesOk(c, r) && (ev.Recv? ==> ev.e.NewView?)
    ensures MessageFollows(c, r, ev, Step(c, r, ev), e)
  {
    hide Primary, Survivors, RecentViewChanges, InstOk;
  }

  /** What is said, and why: proposals, view changes and new views exactly when there is the reason
      named above, votes only with the verdict they need. */
  lemma MessagesChange(c: Node, r: Replica, ev: Event, e: Env)
    requires ReplicaOk(c, r) && ShapedAll(r)
    ensures MessageFollows(c, r, ev, Step(c, r, ev), e)
  {
    hide MessageFollows, Receive, OnViewChange, InstancesOk, SentOk, LogOk;
    if ev.Recv? && Phased(ev.e) {
      if TakenIn(r, ev.e) { TakenInSays(c, r, ev.e, ev.check, e); } else { ElsewhereSays(c, r, ev.e, ev.check, e); }
    } else if ev.Recv? && ev.e.ViewChange? {
      ViewChangeSays(c, r, ev.e.claim, ev.check, e);
    } else {
      OtherSays(c, r, ev, e);
    }
  }

  /** In every run a correct replica says only what the theorem above allows, at every step. */
  lemma SaysOnlyWithReason(cl: Cluster, run: seq<System>, t: nat, k: int, ev: Event, e: Env)
    requires IsRun(cl, run) && t + 1 < |run| && Takes(cl, run[t], run[t + 1], k, ev)
    ensures MessageFollows(NodeOf(cl, k), run[t][k], ev, run[t + 1][k], e)
  {
    hide IsRun, MessageFollows, Step, ReplicaOk, Heard;
    RunOk(cl, run, t);
    assert CorrectOk(cl, run[t], k);
    MessagesChange(NodeOf(cl, k), run[t][k], ev, e);
  }
}
