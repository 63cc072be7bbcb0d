/** What moves a correct replica: behind every jump of its window stands a quorum of commits, and
    behind every change of its view a quorum of view changes. */
module PbftEvidence {
  import opened Quorum
  import opened PbftInstance
  import opened PbftProof
  import opened PbftReplica
  import opened PbftInvariant
  import opened PbftSystem

  // ---- What a replica has recorded was sent ----

  /** The commits set aside for an index, all for one digest, are known messages. */
  ghost predicate OutHeard(i: Index, out: OutInstance, known: iset<Env>)
  {
    VotesFor(i, out.digest, out.commits) && forall k :: k in out.commits ==> Commit(out.commits[k]) in known
  }

  predicate Distinct(ids: seq<int>)
  {
    forall j, k :: 0 <= j < k < |ids| ==> ids[j] != ids[k]
  }

  ghost predicate VcHeard(view: int, vc: VcInstance, known: iset<Env>)
  {
    Distinct(vc.voters) && forall k :: k in vc.voters ==> ViewChange(ViewClaim(view, k)) in known
  }

  /** A new view announced by this replica names distinct replicas, more than the quorum, each of
      which is known to have asked for that view. */
  ghost predicate Announced(c: Node, e: Env, known: iset<Env>)
  {
    e.NewView? ==>
      && |Named(e.changes)| > c.quorum
      && forall k :: k in Named(e.changes) ==> ViewChange(ViewClaim(e.view, k)) in known
  }

  /** The replicas a new-view message names. */
  function Named(changes: seq<ViewClaim>): set<int>
  {
    set k | 0 <= k < |changes| :: changes[k].replica
  }

  ghost predicate Evidence(c: Node, r: Replica, known: iset<Env>)
  {
    && (forall i :: i in r.outs ==> OutHeard(i, r.outs[i], known))
    && (forall v :: v in r.vcs ==> VcHeard(v.view, r.vcs[v], known))
    && (forall e :: e in r.sent ==> Announced(c, e, known))
  }

  lemma EvidenceMono(c: Node, r: Replica, known: iset<Env>, known': iset<Env>)
    requires Evidence(c, r, known) && known <= known'
    ensures Evidence(c, r, known')
  {
  }

  /** Nothing else is sent than votes, proposals and requests for a view. */
  predicate NoNewView(out: set<Env>)
  {
    forall e :: e in out ==> !e.NewView?
  }

  lemma EvidenceAlike(c: Node, r: Replica, r': Replica, known: iset<Env>)
    requires Evidence(c, r, known) && r'.outs == r.outs && r.sent <= r'.sent && NoNewView(r'.sent - r.sent)
    requires forall v :: v in r'.vcs ==> v in r.vcs && r'.vcs[v].voters == r.vcs[v].voters
    ensures Evidence(c, r', known)
  {
    forall e | e in r'.sent
      ensures Announced(c, e, known)
    {
      if e !in r.sent { assert e in r'.sent - r.sent; }
    }
    forall v | v in r'.vcs
      ensures VcHeard(v.view, r'.vcs[v], known)
    {
      assert VcHeard(v.view, r.vcs[v], known);
    }
  }

  // ---- What a step leaves alone ----

  /** The window moved exactly by what was executed. */
  predicate Level(r: Replica, r': Replica)
  {
    r'.lastExe - r.lastExe == |r'.log| - |r.log|
  }

  /** Neither the view nor what is set aside changed, and nothing was skipped. */
  predicate Calm(r: Replica, r': Replica)
  {
    && r'.view == r.view && r'.outs == r.outs && r'.vcs == r.vcs && Level(r, r')
    && r.sent <= r'.sent && NoNewView(r'.sent - r.sent)
  }

  lemma {:induction false} TryExecuteCalm(r: Replica, rest: set<Index>)
    requires rest <= r.instances.Keys && ShapedAll(r)
    ensures Calm(r, TryExecute(r, rest))
    decreases |rest|
  {
    if rest != {} {
      hide FirstPerSigner;
      var i := Least(rest);
      assert rest == {i} + (rest - {i});
      if i.sequence <= r.lastExe {
        TryExecuteCalm(r, rest - {i});
      } else if i.sequence == r.lastExe + 1 && r.instances[i].phase >= COMMITED {
        var next := Execute(r, i);
        SubsetSize((rest - {i}) * next.instances.Keys, rest - {i});
        TryExecuteCalm(next, (rest - {i}) * next.instances.Keys);
      }
    }
  }

  predicate AllVotes(out: seq<Env>)
  {
    forall e :: e in out ==> IsVote(e)
  }

  lemma VotesJoined(a: seq<Env>, b: seq<Env>)
    requires AllVotes(a) && AllVotes(b)
    ensures AllVotes(a + b)
  {
  }

  lemma HandleSendsVotes(c: Node, leads: bool, inst: Instance, e: Env, check: Check)
    requires Shaped(inst)
    ensures AllVotes(Handle(c, leads, inst, e, check).out)
  {
  }

  lemma {:induction false} DrainSendsVotes(c: Node, leads: bool, inst: Instance, check: Check)
    requires Shaped(inst)
    ensures AllVotes(Drain(c, leads, inst, check).out)
    decreases COMMITED - inst.phase, |inst.buf[inst.phase]| - inst.item
  {
    hide Handle, AllVotes;
    if |inst.buf[inst.phase]| <= inst.item {
      NoVotes();
    } else {
      var ready, e := inst.(item := inst.item + 1), inst.buf[inst.phase][inst.item];
      var step := Handle(c, leads, ready, e, check);
      HandleSendsVotes(c, leads, ready, e, check);
      DrainSendsVotes(c, leads, step.inst, check);
      VotesJoined(step.out, Drain(c, leads, step.inst, check).out);
    }
  }

  lemma NoVotes()
    ensures AllVotes([])
  {
  }

  lemma DeliverSendsVotes(c: Node, leads: bool, inst: Instance, e: Env, check: Check)
    requires Shaped(inst) && Phased(e)
    ensures AllVotes(Deliver(c, leads, inst, e, check).out)
  {
    hide Handle, Drain, AllVotes;
    var ready := Buffered(inst, e);
    if TypeOf(e) < ready.phase {
      HandleSendsVotes(c, leads, ready, e, check);
    } else {
      DrainSendsVotes(c, leads, ready, check);
    }
  }

  lemma CalmAfter(r: Replica, next: Replica, r': Replica)
    requires Calm(next, r') && next.view == r.view && next.outs == r.outs && next.vcs == r.vcs
    requires next.lastExe == r.lastExe && next.log == r.log && r.sent <= next.sent && NoNewView(next.sent - r.sent)
    ensures Calm(r, r')
  {
    forall e | e in r'.sent - r.sent
      ensures !e.NewView?
    {
      if e in next.sent { assert e in next.sent - r.sent; } else { assert e in r'.sent - next.sent; }
    }
  }

  lemma StillCalm(r: Replica)
    ensures Calm(r, r)
  {
  }

  lemma InWindowCalm(c: Node, r: Replica, e: Env, check: Check)
    requires ShapedAll(r) && Phased(e) && InWaterMark(r, IndexOf(e).sequence) && r.view == IndexOf(e).view
    ensures Calm(r, Receive(c, r, e, check))
  {
    if !r.active || IndexOf(e).sequence <= r.lastExe {
      hide Deliver, TryExecute;
    } else {
      hide Receive, TryExecute, Deliver, Leads, Opened, Calm;
      ReceiveInWindow(c, r, e, check);
      var i := IndexOf(e);
      var instances := Opened(r.instances, i);
      var eff := Deliver(c, Leads(c, r.view), instances[i], e, check);
      var next := AfterDelivery(r, instances, i, eff);
      DeliverSendsVotes(c, Leads(c, r.view), instances[i], e, check);
      StillCalm(next);
      TryExecuteCalm(next, next.instances.Keys);
      CalmAfter(r, next, Receive(c, r, e, check));
    }
  }

  lemma HeldCalm(c: Node, r: Replica, v: Vote)
    requires ShapedAll(r) && Index(v.view, v.sequence) in r.instances
    ensures Calm(r, TraceOutCommit(c, r, v))
  {
    hide TryExecute, OnCommit, Calm;
    var i := Index(v.view, v.sequence);
    var next := r.(instances := r.instances[i := OnCommit(c, r.instances[i], v)]);
    StillCalm(next);
    TryExecuteCalm(next, next.instances.Keys);
    CalmAfter(r, next, TraceOutCommit(c, r, v));
  }

  /** The index is beyond the window or in another view, and there is no instance for it. */
  predicate Elsewhere(r: Replica, i: Index)
  {
    i.sequence > r.lastExe && (!InWaterMark(r, i.sequence) || r.view != i.view) && i !in r.instances
  }

  /** The commits set aside for an index, with one more. */
  function SetAside(r: Replica, i: Index, v: Vote): OutInstance
  {
    var out := if i in r.outs then r.outs[i] else OutInstance(v.digest, map[]);
    out.(commits := Recorded(out.commits, v))
  }

  /** A phase message changes nothing set aside, except that a commit for an index elsewhere is
      recorded and may move the window. */
  lemma ReceiveCalm(c: Node, r: Replica, e: Env, check: Check)
    requires ShapedAll(r) && Phased(e) && !(e.Commit? && Elsewhere(r, IndexOf(e)))
    ensures Calm(r, Receive(c, r, e, check))
  {
    var i := IndexOf(e);
    if InWaterMark(r, i.sequence) && r.view == i.view {
      InWindowCalm(c, r, e, check);
    } else if i.sequence > r.lastExe && e.Commit? {
      hide TraceOutCommit, Calm;
      HeldCalm(c, r, e.vote);
    } else {
      hide TraceOutCommit, Deliver, TryExecute;
    }
  }

  lemma SetAsideHeard(c: Node, r: Replica, v: Vote, known: iset<Env>)
    requires Evidence(c, r, known) && Commit(v) in known
    requires Index(v.view, v.sequence) in r.outs ==> r.outs[Index(v.view, v.sequence)].digest == v.digest
    ensures var i := Index(v.view, v.sequence);
            OutHeard(i, SetAside(r, i, v), known) && SetAside(r, i, v).digest == v.digest
  {
    var i := Index(v.view, v.sequence);
    if i in r.outs { assert OutHeard(i, r.outs[i], known); }
  }

  // ---- Evidence is kept ----

  lemma AsideEvidence(c: Node, r: Replica, v: Vote, known: iset<Env>)
    requires ShapedAll(r) && Evidence(c, r, known) && Commit(v) in known && Elsewhere(r, Index(v.view, v.sequence))
    ensures Evidence(c, TraceOutCommit(c, r, v), known)
  {
    var i := Index(v.view, v.sequence);
    if i !in r.outs || r.outs[i].digest == v.digest {
      SetAsideHeard(c, r, v, known);
      hide OutHeard, VcHeard, Announced, TryExecute;
      var next := r.(outs := r.outs[i := SetAside(r, i, v)]);
      assert Evidence(c, next, known);
      assert TraceOutCommit(c, r, v) == TryTraceOut(c, next, i, SetAside(r, i, v));
    }
  }

  lemma ReceiveEvidence(c: Node, r: Replica, e: Env, check: Check, known: iset<Env>)
    requires ShapedAll(r) && Evidence(c, r, known) && Phased(e) && e in known
    ensures Evidence(c, Receive(c, r, e, check), known)
  {
    hide Evidence, TraceOutCommit, TryExecute, Deliver;
    if e.Commit? && Elsewhere(r, IndexOf(e)) {
      AsideEvidence(c, r, e.vote, known);
    } else {
      ReceiveCalm(c, r, e, check);
      hide Receive;
      EvidenceAlike(c, r, Receive(c, r, e, check), known);
    }
  }

  /** The view change instance for a view, with one more claim. */
  function Claimed(r: Replica, c: Node, claim: ViewClaim): VcInstance
  {
    var vc := if VcKey(claim.view) in r.vcs then r.vcs[VcKey(claim.view)] else VcInstance([], false, false);
    var voters := if claim.replica in vc.voters then vc.voters else vc.voters + [claim.replica];
    vc.(voters := voters, own := vc.own || claim.replica == c.self)
  }

  lemma ClaimedHeard(c: Node, r: Replica, claim: ViewClaim, known: iset<Env>)
    requires Evidence(c, r, known) && ViewChange(claim) in known
    ensures VcHeard(claim.view, Claimed(r, c, claim), known)
  {
    var key := VcKey(claim.view);
    if key in r.vcs { assert VcHeard(key.view, r.vcs[key], known); }
    assert claim == ViewClaim(claim.view, claim.replica);
  }

  /** The claims a new primary announces. */
  function Claims(view: int, voters: seq<int>): seq<ViewClaim>
  {
    seq(|voters|, k requires 0 <= k < |voters| => ViewClaim(view, voters[k]))
  }

  function Elements(ids: seq<int>): set<int>
  {
    set k | k in ids
  }

  lemma {:induction false} DistinctSize(ids: seq<int>)
    requires Distinct(ids)
    ensures |Elements(ids)| == |ids|
  {
    if ids != [] {
      var before := ids[..|ids| - 1];
      DistinctSize(before);
      assert Elements(ids) == Elements(before) + {ids[|ids| - 1]};
    }
  }

  lemma NamedAre(view: int, voters: seq<int>)
    ensures Named(Claims(view, voters)) == Elements(voters)
  {
    forall k
      ensures k in Named(Claims(view, voters)) <==> k in Elements(voters)
    {
      if k in Elements(voters) {
        var j :| 0 <= j < |voters| && voters[j] == k;
        assert Claims(view, voters)[j].replica == k;
      }
    }
  }

  lemma EnterEvidence(c: Node, r: Replica, view: int, known: iset<Env>)
    requires Evidence(c, r, known)
    ensures Evidence(c, EnterView(r, view), known)
  {
    EvidenceAlike(c, r, EnterView(r, view), known);
  }

  lemma ClaimEvidence(c: Node, r: Replica, claim: ViewClaim, known: iset<Env>)
    requires Evidence(c, r, known) && ViewChange(claim) in known
    ensures Evidence(c, OnViewChange(c, r, claim), known)
  {
    if claim.view > r.view {
      var vc := Claimed(r, c, claim);
      ClaimedHeard(c, r, claim, known);
      var next := r.(vcs := r.vcs[VcKey(claim.view) := vc]);
      assert Evidence(c, next, known) by { hide OutHeard, VcHeard, Announced; }
      if |vc.voters| > c.quorum {
        NamedAre(claim.view, vc.voters);
        DistinctSize(vc.voters);
        var e := NewView(claim.view, c.self, Claims(claim.view, vc.voters));
        assert Announced(c, e, known);
        var told := next.(sent := next.sent + {e});
        hide OutHeard, VcHeard, Announced, EnterView;
        assert Evidence(c, told, known);
        EnterEvidence(c, told, claim.view, known);
      }
    }
  }

  lemma StepEvidence(c: Node, r: Replica, ev: Event, known: iset<Env>)
    requires ShapedAll(r) && Evidence(c, r, known) && (ev.Recv? ==> ev.e in known)
    ensures Evidence(c, Step(c, r, ev), known)
  {
    hide Evidence, Receive, OnViewChange, EnterView, Primary;
    match ev
    case Recv(PrePrepare(_), check) => ReceiveEvidence(c, r, ev.e, check, known);
    case Recv(Prepare(_), check) => ReceiveEvidence(c, r, ev.e, check, known);
    case Recv(Commit(_), check) => ReceiveEvidence(c, r, ev.e, check, known);
    case Recv(ViewChange(claim), _) => ClaimEvidence(c, r, claim, known);
    case Recv(NewView(view, _, _), _) => EnterEvidence(c, r, view, known);
    case Propose(_) => EvidenceAlike(c, r, Step(c, r, ev), known);
    case TxTimeout => EvidenceAlike(c, r, Step(c, r, ev), known);
    case NewViewTimeout(_) => EvidenceAlike(c, r, Step(c, r, ev), known);
    case ResendProposal(_) => EvidenceAlike(c, r, Step(c, r, ev), known);
    case ResendCommit(_, _) => EvidenceAlike(c, r, Step(c, r, ev), known);
    case LedgerClosed(_, _) => EvidenceAlike(c, r, Step(c, r, ev), known);
  }

  // ---- Quorums behind the moves of one replica ----

  ghost function Committers(known: iset<Env>, n: nat, i: Index, d: string): set<int>
  {
    set k | 0 <= k < n && Commit(Vote(i.view, i.sequence, k, d)) in known
  }

  ghost function Claimants(known: iset<Env>, n: nat, view: int): set<int>
  {
    set k | 0 <= k < n && ViewChange(ViewClaim(view, k)) in known
  }

  ghost predicate FromReplicas(known: iset<Env>, n: nat)
  {
    forall e :: e in known ==> 0 <= Sender(e) < n
  }

  /** A message that moves the window further than the log grew is a commit, and with it a quorum
      has committed to one digest where the window now stands. */
  lemma JumpHasQuorum(c: Node, r: Replica, e: Env, check: Check, known: iset<Env>)
    requires ShapedAll(r) && Evidence(c, r, known) && e in known && FromReplicas(known, c.n)
    requires !Level(r, Step(c, r, Recv(e, check)))
    ensures var r' := Step(c, r, Recv(e, check));
            && e.Commit? && r'.log == r.log && r'.lastExe >= r.lastExe + CKP_INTERVAL
            && |Committers(known, c.n, Index(r'.view, r'.lastExe), e.vote.digest)| >= c.quorum + 1
  {
    hide Evidence, Primary, Survivors, RecentViewChanges, Deliver, TryExecute, TraceOutCommit;
    if Phased(e) {
      if e.Commit? && Elsewhere(r, IndexOf(e)) {
        AsideJump(c, r, e.vote, known);
      } else {
        ReceiveCalm(c, r, e, check);
      }
    }
  }

  lemma AsideJump(c: Node, r: Replica, v: Vote, known: iset<Env>)
    requires ShapedAll(r) && Evidence(c, r, known) && Commit(v) in known && FromReplicas(known, c.n)
    requires Elsewhere(r, Index(v.view, v.sequence)) && !Level(r, TraceOutCommit(c, r, v))
    ensures var r' := TraceOutCommit(c, r, v);
            && r'.log == r.log && r'.lastExe >= r.lastExe + CKP_INTERVAL
            && |Committers(known, c.n, Index(r'.view, r'.lastExe), v.digest)| >= c.quorum + 1
  {
    var i := Index(v.view, v.sequence);
    SetAsideHeard(c, r, v, known);
    hide Evidence, TryExecute, Recorded;
    var out := SetAside(r, i, v);
    forall k | k in out.commits
      ensures k in Committers(known, c.n, i, v.digest)
    {
      assert Commit(out.commits[k]) in known && out.commits[k] == Vote(i.view, i.sequence, k, v.digest);
    }
    assert |out.commits| == |out.commits.Keys|;
    SubsetSize(out.commits.Keys, Committers(known, c.n, i, v.digest));
  }

  /** A message that changes the view is one of three: a view change that completes a quorum at
      the new primary, a new view that names more replicas than the quorum, all for that view, at
      a backup, or a commit that moves the window. */
  lemma ViewHasQuorum(c: Node, r: Replica, e: Env, check: Check, known: iset<Env>)
    requires ShapedAll(r) && Evidence(c, r, known) && e in known && FromReplicas(known, c.n)
    requires Step(c, r, Recv(e, check)).view != r.view
    ensures var r' := Step(c, r, Recv(e, check));
            match e
            case ViewChange(_) =>
              r'.view > r.view && Primary(c, r'.view) && |Claimants(known, c.n, r'.view)| > c.quorum
            case NewView(view, _, changes) =>
              && r'.view == view > r.view && !Primary(c, view) && |Named(changes)| > c.quorum
              && forall k :: 0 <= k < |changes| ==> changes[k].view == view
            case Commit(_) => !Level(r, r')
            case _ => false
  {
    hide Evidence, Primary, Survivors, RecentViewChanges, Deliver, TryExecute, TraceOutCommit;
    match e
    case ViewChange(claim) => ClaimQuorum(c, r, claim, known);
    case NewView(view, _, changes) =>
    case Commit(v) =>
      if Elsewhere(r, IndexOf(e)) { AsideView(c, r, v); } else { ReceiveCalm(c, r, e, check); }
    case PrePrepare(_) => ReceiveCalm(c, r, e, check);
    case Prepare(_) => ReceiveCalm(c, r, e, check);
  }

  lemma AsideView(c: Node, r: Replica, v: Vote)
    requires ShapedAll(r) && Elsewhere(r, Index(v.view, v.sequence)) && TraceOutCommit(c, r, v).view != r.view
    ensures !Level(r, TraceOutCommit(c, r, v))
  {
    hide TryExecute, Recorded;
  }

  lemma ClaimQuorum(c: Node, r: Replica, claim: ViewClaim, known: iset<Env>)
    requires Evidence(c, r, known) && ViewChange(claim) in known && FromReplicas(known, c.n)
    requires OnViewChange(c, r, claim).view != r.view
    ensures var view := OnViewChange(c, r, claim).view;
            view > r.view && Primary(c, view) && |Claimants(known, c.n, view)| > c.quorum
  {
    var vc := Claimed(r, c, claim);
    ClaimedHeard(c, r, claim, known);
    hide Evidence, Primary, Survivors, RecentViewChanges;
    DistinctSize(vc.voters);
    forall k | k in Elements(vc.voters)
      ensures k in Claimants(known, c.n, claim.view)
    {
      assert ViewChange(ViewClaim(claim.view, k)) in known;
    }
    SubsetSize(Elements(vc.voters), Claimants(known, c.n, claim.view));
  }

  lemma AnnouncedQuorum(c: Node, e: Env, known: iset<Env>)
    requires e.NewView? && Announced(c, e, known) && FromReplicas(known, c.n)
    ensures |Claimants(known, c.n, e.view)| > c.quorum
  {
    forall k | k in Named(e.changes)
      ensures k in Claimants(known, c.n, e.view)
    {
      assert ViewChange(ViewClaim(e.view, k)) in known;
    }
    SubsetSize(Named(e.changes), Claimants(known, c.n, e.view));
  }

  // ---- Over whole runs ----

  ghost predicate AllEvidence(cl: Cluster, s: System)
  {
    |s| == cl.n && forall k :: Correct(cl, k) ==> Evidence(NodeOf(cl, k), s[k], Network(cl, s))
  }

  lemma InitialEvidence(c: Node, known: iset<Env>)
    ensures Evidence(c, INITIAL, known)
  {
  }

  lemma NextEvidence(cl: Cluster, s: System, s': System)
    requires SystemOk(cl, s) && AllEvidence(cl, s) && Next(cl, s, s')
    ensures AllEvidence(cl, s')
  {
    hide Evidence, Step, Permitted, ShapedAll, QuorumSize, SystemOk;
    var j, ev :| Takes(cl, s, s', j, ev);
    NetworkStep(cl, s, s');
    forall k | Correct(cl, k)
      ensures Evidence(NodeOf(cl, k), s'[k], Network(cl, s'))
    {
      EvidenceMono(NodeOf(cl, k), s[k], Network(cl, s), Network(cl, s'));
      if k == j { StepEvidence(NodeOf(cl, k), s[k], ev, Network(cl, s')); }
    }
  }

  lemma {:induction false} RunEvidence(cl: Cluster, run: seq<System>, t: nat)
    requires IsRun(cl, run) && t < |run|
    ensures AllEvidence(cl, run[t])
  {
    hide Evidence, Next, SystemOk, QuorumSize;
    if t == 0 {
      forall k | Correct(cl, k)
        ensures Evidence(NodeOf(cl, k), run[0][k], Network(cl, run[0]))
      {
        InitialEvidence(NodeOf(cl, k), Network(cl, run[0]));
      }
    } else {
      RunEvidence(cl, run, t - 1);
      RunOk(cl, run, t - 1);
      NextEvidence(cl, run[t - 1], run[t - 1 + 1]);
    }
  }

  /** A correct replica is among those that sent it. */
  ghost predicate CorrectCommitter(cl: Cluster, s: System, i: Index, d: string)
    requires |s| == cl.n
  {
    exists k :: Correct(cl, k) && Commit(Vote(i.view, i.sequence, k, d)) in s[k].sent
  }

  ghost predicate CorrectClaimant(cl: Cluster, s: System, view: int)
    requires |s| == cl.n
  {
    exists k :: Correct(cl, k) && ViewChange(ViewClaim(view, k)) in s[k].sent
  }

  lemma OneCommitted(cl: Cluster, s: System, i: Index, d: string)
    requires Tolerable(cl) && |s| == cl.n && |Committers(Network(cl, s), cl.n, i, d)| >= QuorumSize(cl.n) + 1
    ensures CorrectCommitter(cl, s, i, d)
  {
    hide QuorumSize, Faults;
    var k := QuorumHasCorrect(cl.n, cl.faulty, Committers(Network(cl, s), cl.n, i, d));
    assert Correct(cl, k) && Commit(Vote(i.view, i.sequence, k, d)) in Network(cl, s);
  }

  lemma OneClaimed(cl: Cluster, s: System, view: int)
    requires Tolerable(cl) && |s| == cl.n && |Claimants(Network(cl, s), cl.n, view)| > QuorumSize(cl.n)
    ensures CorrectClaimant(cl, s, view)
  {
    hide QuorumSize, Faults;
    var k := QuorumHasCorrect(cl.n, cl.faulty, Claimants(Network(cl, s), cl.n, view));
    assert Correct(cl, k) && ViewChange(ViewClaim(view, k)) in Network(cl, s);
  }

  lemma NetworkFromReplicas(cl: Cluster, s: System)
    requires |s| == cl.n
    ensures FromReplicas(Network(cl, s), cl.n)
  {
  }

  lemma StepOf(cl: Cluster, run: seq<System>, t: nat, k: int, e: Env, check: Check)
    requires IsRun(cl, run) && t + 1 < |run| && Takes(cl, run[t], run[t + 1], k, Recv(e, check))
    ensures |run[t]| == |run[t + 1]| == cl.n && ShapedAll(run[t][k]) && e in Network(cl, run[t])
    ensures Evidence(NodeOf(cl, k), run[t][k], Network(cl, run[t])) && FromReplicas(Network(cl, run[t]), cl.n)
    ensures run[t + 1][k] == Step(NodeOf(cl, k), run[t][k], Recv(e, check))
  {
    hide Evidence, Step, Permitted, IsRun, QuorumSize;
    RunEvidence(cl, run, t);
    NetworkFromReplicas(cl, run[t]);
  }

  /** No correct replica is ever made to skip a sequence without a commit quorum: when a message
      moves its window further than it executed, q+1 replicas, a correct one among them, have
      committed to one digest at the place where the window then stands. */
  lemma SkipsOnlyCommitted(cl: Cluster, run: seq<System>, t: nat, k: int, e: Env, check: Check)
    requires Tolerable(cl) && IsRun(cl, run) && t + 1 < |run| && Takes(cl, run[t], run[t + 1], k, Recv(e, check))
    requires !Level(run[t][k], run[t + 1][k])
    ensures var i := Index(run[t + 1][k].view, run[t + 1][k].lastExe);
            && e.Commit? && run[t + 1][k].log == run[t][k].log && i.sequence >= run[t][k].lastExe + CKP_INTERVAL
            && |Committers(Network(cl, run[t]), cl.n, i, e.vote.digest)| >= QuorumSize(cl.n) + 1
            && CorrectCommitter(cl, run[t], i, e.vote.digest)
  {
    hide Evidence, Step, Permitted, IsRun, QuorumSize, Tolerable, Network, FromReplicas;
    StepOf(cl, run, t, k, e, check);
    JumpHasQuorum(NodeOf(cl, k), run[t][k], e, check, Network(cl, run[t]));
    OneCommitted(cl, run[t], Index(run[t + 1][k].view, run[t + 1][k].lastExe), e.vote.digest);
  }

  /** A correct replica announces a view only if more than q replicas, a correct one among them,
      have asked for it. */
  lemma AnnouncesOnlyClaimed(cl: Cluster, run: seq<System>, t: nat, k: int, e: Env)
    requires Tolerable(cl) && IsRun(cl, run) && t < |run| && |run[t]| == cl.n && Correct(cl, k)
    requires e in run[t][k].sent && e.NewView?
    ensures |Claimants(Network(cl, run[t]), cl.n, e.view)| > QuorumSize(cl.n) && CorrectClaimant(cl, run[t], e.view)
  {
    hide IsRun, QuorumSize, Tolerable, Network, FromReplicas, Claimants;
    RunEvidence(cl, run, t);
    NetworkFromReplicas(cl, run[t]);
    assert Announced(NodeOf(cl, k), e, Network(cl, run[t]));
    AnnouncedQuorum(NodeOf(cl, k), e, Network(cl, run[t]));
    OneClaimed(cl, run[t], e.view);
  }

  /** A message that changes a correct replica's view: a view change only with claims for that
      view from more than q replicas, a correct one among them; a new view only if it names more
      than q replicas, all for that view; a commit only by moving the window. */
  lemma EntersOnlyClaimed(cl: Cluster, run: seq<System>, t: nat, k: int, e: Env, check: Check)
    requires Tolerable(cl) && IsRun(cl, run) && t + 1 < |run| && Takes(cl, run[t], run[t + 1], k, Recv(e, check))
    requires run[t + 1][k].view != run[t][k].view
    ensures var view := run[t + 1][k].view;
            match e
            case ViewChange(_) =>
              && view > run[t][k].view && Primary(NodeOf(cl, k), view)
              && |Claimants(Network(cl, run[t]), cl.n, view)| > QuorumSize(cl.n) && CorrectClaimant(cl, run[t], view)
            case NewView(announced, _, changes) =>
              && view == announced > run[t][k].view && |Named(changes)| > QuorumSize(cl.n)
              && forall j :: 0 <= j < |changes| ==> changes[j].view == view
            case Commit(_) => !Level(run[t][k], run[t + 1][k])
            case _ => false
  {
    hide Evidence, Step, Permitted, IsRun, QuorumSize, Tolerable, Network, FromReplicas, Claimants, Primary;
    StepOf(cl, run, t, k, e, check);
    ViewHasQuorum(NodeOf(cl, k), run[t][k], e, check, Network(cl, run[t]));
    if e.ViewChange? { OneClaimed(cl, run[t], run[t + 1][k].view); }
  }
}
