/** When a replica moves: counting the messages that reached it decides, whatever else arrived in
    between. */
module PbftProgress {
  import opened PbftInstance
  import opened PbftReplica
  import opened PbftEvidence

  /** Steps of one replica. */
  ghost predicate Steps(c: Node, rs: seq<Replica>, evs: seq<Event>)
  {
    && |rs| == |evs| + 1
    && forall t :: 0 <= t < |evs| ==> ShapedAll(rs[t]) && rs[t + 1] == Step(c, rs[t], evs[t])
  }

  /** The step changes neither the view nor skips a sequence. */
  predicate Quiet(r: Replica, r': Replica)
  {
    r'.view == r.view && Level(r, r')
  }

  lemma StepsBefore(c: Node, rs: seq<Replica>, evs: seq<Event>)
    requires Steps(c, rs, evs) && evs != []
    ensures Steps(c, rs[..|evs|], evs[..|evs| - 1])
  {
  }

  // ---- Catching up ----

  predicate IsCommitFor(ev: Event, i: Index, d: string)
  {
    ev.Recv? && ev.e.Commit? && IndexOf(ev.e) == i && ev.e.vote.digest == d
  }

  /** The replicas whose commits for a digest at an index have been received. */
  function CommitsFrom(evs: seq<Event>, i: Index, d: string): set<int>
  {
    set ev | ev in evs && IsCommitFor(ev, i, d) :: ev.e.vote.replica
  }

  /** The replica is at least an interval behind an index it has no instance for, and has set
      nothing but commits for d aside for it. */
  predicate Behind(r: Replica, i: Index, d: string)
  {
    Elsewhere(r, i) && i.sequence - r.lastExe >= CKP_INTERVAL && (i in r.outs ==> r.outs[i].digest == d)
  }

  predicate Aside(r: Replica, i: Index, ks: set<int>)
  {
    if i in r.outs then r.outs[i].commits.Keys == ks else ks == {}
  }

  /** Only commits touch what is set aside, and only a jump clears it. */
  lemma OutsStay(c: Node, r: Replica, ev: Event, i: Index)
    requires ShapedAll(r) && Quiet(r, Step(c, r, ev))
    requires !(ev.Recv? && ev.e.Commit? && IndexOf(ev.e) == i)
    ensures var r' := Step(c, r, ev);
            (i in r'.outs <==> i in r.outs) && (i in r.outs ==> r'.outs[i] == r.outs[i])
  {
    hide Primary, Survivors, RecentViewChanges, Deliver, TryExecute, TraceOutCommit;
    if ev.Recv? && Phased(ev.e) {
      if ev.e.Commit? && Elsewhere(r, IndexOf(ev.e)) {
        OtherAside(c, r, ev.e.vote, i);
      } else {
        ReceiveCalm(c, r, ev.e, ev.check);
      }
    }
  }

  lemma OtherAside(c: Node, r: Replica, v: Vote, i: Index)
    requires ShapedAll(r) && Elsewhere(r, Index(v.view, v.sequence)) && i != Index(v.view, v.sequence)
    requires Level(r, TraceOutCommit(c, r, v))
    ensures var r' := TraceOutCommit(c, r, v);
            (i in r'.outs <==> i in r.outs) && (i in r.outs ==> r'.outs[i] == r.outs[i])
  {
    hide TryExecute, Recorded;
  }

  /** One more commit: either it completes the quorum and the window stands there, or it is set aside. */
  lemma CommitCounted(c: Node, r: Replica, v: Vote, check: Check, ks: set<int>)
    requires ShapedAll(r) && Behind(r, Index(v.view, v.sequence), v.digest) && Aside(r, Index(v.view, v.sequence), ks)
    ensures var i := Index(v.view, v.sequence);
            var r' := Step(c, r, Recv(Commit(v), check));
            if |ks + {v.replica}| >= c.quorum + 1
            then r'.view == i.view && r'.lastExe == i.sequence && r'.active
            else Quiet(r, r') && r'.lastExe == r.lastExe && Aside(r', i, ks + {v.replica})
  {
    hide TryExecute, Deliver;
    var i := Index(v.view, v.sequence);
    var out := SetAside(r, i, v);
    assert out.commits.Keys == ks + {v.replica} && |out.commits| == |out.commits.Keys|;
    hide Recorded;
    assert Step(c, r, Recv(Commit(v), check)) == TryTraceOut(c, r.(outs := r.outs[i := out]), i, out);
  }

  lemma {:induction false} AsideIsCounted(c: Node, rs: seq<Replica>, evs: seq<Event>, i: Index, d: string)
    requires Steps(c, rs, evs) && i !in rs[0].outs
    requires forall t :: 0 <= t < |rs| ==> Behind(rs[t], i, d)
    requires forall t :: 0 <= t < |evs| ==> Quiet(rs[t], rs[t + 1])
    ensures Aside(rs[|evs|], i, CommitsFrom(evs, i, d))
  {
    if evs != [] {
      hide Step, Behind, Quiet;
      var n := |evs| - 1;
      StepsBefore(c, rs, evs);
      AsideIsCounted(c, rs[..|evs|], evs[..n], i, d);
      OneMoreCommit(evs, i, d);
      assert rs[n + 1] == Step(c, rs[n], evs[n]) && Quiet(rs[n], rs[n + 1]) && Behind(rs[n], i, d) && Behind(rs[n + 1], i, d);
      AsideStep(c, rs[n], evs[n], i, d, CommitsFrom(evs[..n], i, d));
    }
  }

  lemma AsideStep(c: Node, r: Replica, ev: Event, i: Index, d: string, ks: set<int>)
    requires ShapedAll(r) && Behind(r, i, d) && Behind(Step(c, r, ev), i, d) && Quiet(r, Step(c, r, ev)) && Aside(r, i, ks)
    ensures Aside(Step(c, r, ev), i, if IsCommitFor(ev, i, d) then ks + {ev.e.vote.replica} else ks)
  {
    hide Step;
    if IsCommitFor(ev, i, d) {
      CommitCounted(c, r, ev.e.vote, ev.check, ks);
    } else if ev.Recv? && ev.e.Commit? && IndexOf(ev.e) == i {
      OtherDigest(c, r, ev.e.vote, ev.check, d);
    } else {
      OutsStay(c, r, ev, i);
    }
  }

  /** A first commit for another digest would be set aside for that digest. */
  lemma OtherDigest(c: Node, r: Replica, v: Vote, check: Check, d: string)
    requires ShapedAll(r) && v.digest != d && Behind(r, Index(v.view, v.sequence), d)
    requires Behind(Step(c, r, Recv(Commit(v), check)), Index(v.view, v.sequence), d)
    ensures Step(c, r, Recv(Commit(v), check)) == r
  {
    hide TryExecute, Deliver, Recorded;
  }

  lemma OneMoreCommit(evs: seq<Event>, i: Index, d: string)
    requires evs != []
    ensures var last := evs[|evs| - 1];
            CommitsFrom(evs, i, d)
            == CommitsFrom(evs[..|evs| - 1], i, d) + if IsCommitFor(last, i, d) then {last.e.vote.replica} else {}
  {
    assert evs == evs[..|evs| - 1] + [evs[|evs| - 1]];
  }

  /** Catching up is decided by counting. While a replica is behind an index and nothing moves its
      view or window, a commit brings it there exactly when commits for that digest have arrived
      from q+1 replicas, whatever else arrived in between and however often. */
  lemma CatchUpByCounting(c: Node, rs: seq<Replica>, evs: seq<Event>, i: Index, d: string)
    requires Steps(c, rs, evs) && evs != [] && i !in rs[0].outs && IsCommitFor(evs[|evs| - 1], i, d)
    requires forall t :: 0 <= t < |evs| ==> Behind(rs[t], i, d)
    requires forall t :: 0 <= t < |evs| - 1 ==> Quiet(rs[t], rs[t + 1])
    ensures var r := rs[|evs|];
            && (r.view == i.view && r.lastExe == i.sequence <==> |CommitsFrom(evs, i, d)| >= c.quorum + 1)
            && (r.lastExe == rs[|evs| - 1].lastExe <==> |CommitsFrom(evs, i, d)| <= c.quorum)
  {
    var n := |evs| - 1;
    assert Behind(rs[n], i, d);
    hide Step, Quiet;
    StepsBefore(c, rs, evs);
    AsideIsCounted(c, rs[..|evs|], evs[..n], i, d);
    OneMoreCommit(evs, i, d);
    CommitCounted(c, rs[n], evs[n].e.vote, evs[n].check, CommitsFrom(evs[..n], i, d));
    assert rs[n + 1] == Step(c, rs[n], evs[n]);
    assert evs[n] == Recv(Commit(evs[n].e.vote), evs[n].check);
  }

  // ---- Entering a view ----

  predicate IsClaimFor(ev: Event, view: int)
  {
    ev.Recv? && ev.e.ViewChange? && ev.e.claim.view == view
  }

  function ClaimsFrom(evs: seq<Event>, view: int): set<int>
  {
    set ev | ev in evs && IsClaimFor(ev, view) :: ev.e.claim.replica
  }

  /** What is collected for a view, not completed yet. */
  predicate Collected(r: Replica, view: int, ks: set<int>)
  {
    var key := VcKey(view);
    if key in r.vcs then !r.vcs[key].done && Distinct(r.vcs[key].voters) && Elements(r.vcs[key].voters) == ks else ks == {}
  }

  lemma ClaimCounted(c: Node, r: Replica, claim: ViewClaim, ks: set<int>)
    requires claim.view > r.view && Primary(c, claim.view) && Collected(r, claim.view, ks)
    ensures var r' := OnViewChange(c, r, claim);
            if |ks + {claim.replica}| > c.quorum
            then r'.view == claim.view && r'.active
            else r'.view == r.view && Collected(r', claim.view, ks + {claim.replica})
  {
    var vc := Claimed(r, c, claim);
    assert Distinct(vc.voters) && Elements(vc.voters) == ks + {claim.replica};
    DistinctSize(vc.voters);
    hide Survivors, RecentViewChanges, Distinct, Elements, Primary;
  }

  lemma OtherClaim(c: Node, r: Replica, claim: ViewClaim, view: int, ks: set<int>)
    requires claim.view != view && Collected(r, view, ks) && OnViewChange(c, r, claim).view == r.view
    ensures Collected(OnViewChange(c, r, claim), view, ks)
  {
    hide Survivors, RecentViewChanges, Distinct, Elements, Primary;
  }

  lemma CollectedStays(c: Node, r: Replica, ev: Event, view: int, ks: set<int>)
    requires ShapedAll(r) && view > r.view && Quiet(r, Step(c, r, ev)) && Collected(r, view, ks) && !IsClaimFor(ev, view)
    ensures Collected(Step(c, r, ev), view, ks)
  {
    hide Primary, Survivors, RecentViewChanges, Deliver, TryExecute, TraceOutCommit, Distinct, Elements, OnViewChange;
    if ev.Recv? && Phased(ev.e) {
      if ev.e.Commit? && Elsewhere(r, IndexOf(ev.e)) {
        AsideKeepsVcs(c, r, ev.e.vote);
      } else {
        ReceiveCalm(c, r, ev.e, ev.check);
      }
    } else if ev.Recv? && ev.e.ViewChange? {
      OtherClaim(c, r, ev.e.claim, view, ks);
    }
  }

  lemma AsideKeepsVcs(c: Node, r: Replica, v: Vote)
    requires ShapedAll(r) && Elsewhere(r, Index(v.view, v.sequence)) && Level(r, TraceOutCommit(c, r, v))
    ensures TraceOutCommit(c, r, v).vcs == r.vcs
  {
    hide TryExecute, Recorded;
  }

  lemma {:induction false} ClaimsAreCounted(c: Node, rs: seq<Replica>, evs: seq<Event>, view: int)
    requires Steps(c, rs, evs) && Primary(c, view) && VcKey(view) !in rs[0].vcs
    requires forall t :: 0 <= t < |rs| ==> rs[t].view < view
    requires forall t :: 0 <= t < |evs| ==> Quiet(rs[t], rs[t + 1])
    ensures Collected(rs[|evs|], view, ClaimsFrom(evs, view))
  {
    if evs != [] {
      hide Step, Quiet, Primary;
      var n := |evs| - 1;
      StepsBefore(c, rs, evs);
      ClaimsAreCounted(c, rs[..|evs|], evs[..n], view);
      OneMoreClaim(evs, view);
      assert rs[n + 1] == Step(c, rs[n], evs[n]) && Quiet(rs[n], rs[n + 1]);
      if IsClaimFor(evs[n], view) {
        ClaimArrives(c, rs[n], evs[n], view, ClaimsFrom(evs[..n], view));
      } else {
        CollectedStays(c, rs[n], evs[n], view, ClaimsFrom(evs[..n], view));
      }
    }
  }

  lemma ClaimArrives(c: Node, r: Replica, ev: Event, view: int, ks: set<int>)
    requires ShapedAll(r) && IsClaimFor(ev, view) && view > r.view && Primary(c, view) && Collected(r, view, ks)
    ensures var r' := Step(c, r, ev);
            if |ks + {ev.e.claim.replica}| > c.quorum
            then r'.view == view && r'.active
            else r'.view == r.view && Collected(r', view, ks + {ev.e.claim.replica})
  {
    ClaimCounted(c, r, ev.e.claim, ks);
    assert Step(c, r, ev) == OnViewChange(c, r, ev.e.claim);
  }

  lemma OneMoreClaim(evs: seq<Event>, view: int)
    requires evs != []
    ensures var last := evs[|evs| - 1];
            ClaimsFrom(evs, view)
            == ClaimsFrom(evs[..|evs| - 1], view) + if IsClaimFor(last, view) then {last.e.claim.replica} else {}
  {
    assert evs == evs[..|evs| - 1] + [evs[|evs| - 1]];
  }

  /** Entering a view is decided by counting. While nothing moves the view or window of the
      primary of a later view, a claim for that view makes it enter exactly when claims have
      arrived from more than q replicas. */
  lemma ViewEntryByCounting(c: Node, rs: seq<Replica>, evs: seq<Event>, view: int)
    requires Steps(c, rs, evs) && evs != [] && Primary(c, view) && VcKey(view) !in rs[0].vcs
    requires IsClaimFor(evs[|evs| - 1], view)
    requires forall t :: 0 <= t < |evs| ==> rs[t].view < view
    requires forall t :: 0 <= t < |evs| - 1 ==> Quiet(rs[t], rs[t + 1])
    ensures rs[|evs|].view == view <==> |ClaimsFrom(evs, view)| > c.quorum
    ensures rs[|evs|].view == rs[|evs| - 1].view <==> |ClaimsFrom(evs, view)| <= c.quorum
  {
    var n := |evs| - 1;
    hide Step, Quiet, Primary;
    StepsBefore(c, rs, evs);
    ClaimsAreCounted(c, rs[..|evs|], evs[..n], view);
    OneMoreClaim(evs, view);
    ClaimArrives(c, rs[n], evs[n], view, ClaimsFrom(evs[..n], view));
    assert rs[n + 1] == Step(c, rs[n], evs[n]);
  }

  /** A backup follows a new-view message exactly if it is for a later view and names more than q
      replicas, all for that view; then it keeps what it committed and what it prepared and has
      not executed, and nothing else. */
  lemma NewViewFollowed(c: Node, r: Replica, view: int, from: int, changes: seq<ViewClaim>, check: Check)
    requires ShapedAll(r) && !Primary(c, view)
    ensures var r' := Step(c, r, Recv(NewView(view, from, changes), check));
            && (r' != r <==> && view > r.view && |Named(changes)| > c.quorum
                             && forall k :: 0 <= k < |changes| ==> changes[k].view == view)
            && (r' != r ==>
                  && r'.view == view && r'.active && r'.lastExe == r.lastExe && r'.log == r.log && r'.sent == r.sent
                  && (forall i :: i in r'.instances <==>
                        && i in r.instances
                        && (r.instances[i].phase == COMMITED || (r.instances[i].phase == PREPARED && i.sequence > r.lastExe)))
                  && (forall i :: i in r'.instances ==> r'.instances[i] == r.instances[i]))
  {
    hide Primary, RecentViewChanges;
  }
}
