/** The replicated system: n replicas, at most (n-1)/3 of them faulty, exchanging signed
    messages. Correct replicas take the steps of PbftReplica; a faulty replica may have
    sent any message at all under its own id. */
module PbftSystem {
  import opened Quorum
  import opened PbftInstance
  import opened PbftProof
  import opened PbftReplica
  import opened PbftInvariant

  datatype Cluster = Cluster(n: nat, faulty: set<int>, hash: string -> string)

  ghost predicate Tolerable(cl: Cluster)
  {
    cl.n >= 1 && cl.faulty <= Replicas(cl.n) && |cl.faulty| <= Faults(cl.n)
  }

  predicate Correct(cl: Cluster, k: int)
  {
    0 <= k < cl.n && k !in cl.faulty
  }

  function NodeOf(cl: Cluster, k: int): Node
    requires Correct(cl, k)
  {
    RawNode(cl.n, QuorumSize(cl.n), k, cl.hash)
  }

  type System = seq<Replica>

  /** The messages that may be delivered: whatever a correct replica has sent, and anything
      signed by a faulty one. Nothing is ever lost from this set, so a message can arrive
      at any time, in any order and any number of times. */
  ghost function Network(cl: Cluster, s: System): iset<Env>
    requires |s| == cl.n
  {
    iset e | 0 <= Sender(e) < cl.n && (Sender(e) in cl.faulty || e in s[Sender(e)].sent)
  }

  ghost predicate Init(cl: Cluster, s: System)
  {
    |s| == cl.n && forall k :: 0 <= k < cl.n ==> s[k] == INITIAL
  }

  /** One atomic handler at one correct replica. */
  ghost predicate Takes(cl: Cluster, s: System, s': System, k: int, ev: Event)
  {
    && |s| == cl.n && Correct(cl, k) && ShapedAll(s[k])
    && Permitted(NodeOf(cl, k), s[k], ev)
    && (ev.Recv? ==> ev.e in Network(cl, s))
    && s' == s[k := Step(NodeOf(cl, k), s[k], ev)]
  }

  ghost predicate Next(cl: Cluster, s: System, s': System)
  {
    exists k, ev :: Takes(cl, s, s', k, ev)
  }

  ghost predicate IsRun(cl: Cluster, run: seq<System>)
  {
    && |run| >= 1 && Init(cl, run[0])
    && forall t :: 0 <= t < |run| - 1 ==> Next(cl, run[t], run[t + 1])
  }

  // ---- The global invariant ----

  ghost predicate CorrectOk(cl: Cluster, s: System, k: int)
    requires |s| == cl.n && Correct(cl, k)
  {
    ReplicaOk(NodeOf(cl, k), s[k]) && ShapedAll(s[k]) && Heard(s[k], Network(cl, s))
  }

  ghost predicate SystemOk(cl: Cluster, s: System)
  {
    |s| == cl.n && forall k :: Correct(cl, k) ==> CorrectOk(cl, s, k)
  }

  lemma HeardMono(r: Replica, known: iset<Env>, known': iset<Env>)
    requires Heard(r, known) && known <= known'
    ensures Heard(r, known')
  {
  }

  lemma InitOk(cl: Cluster, s: System)
    requires Init(cl, s)
    ensures SystemOk(cl, s)
  {
    forall k | Correct(cl, k)
      ensures CorrectOk(cl, s, k)
    {
      InitialOk(NodeOf(cl, k));
    }
  }

  lemma NextOk(cl: Cluster, s: System, s': System)
    requires SystemOk(cl, s) && Next(cl, s, s')
    ensures SystemOk(cl, s')
  {
    var k, ev :| Takes(cl, s, s', k, ev);
    hide ReplicaOk, Step, Heard, QuorumSize, Permitted, ShapedAll;
    var c := NodeOf(cl, k);
    assert CorrectOk(cl, s, k);
    StepOk(c, s[k], ev);
    StepInOrder(c, s[k], ev);
    assert Network(cl, s) <= Network(cl, s');
    forall e | e in s'[k].sent
      ensures e in Network(cl, s')
    {
      SentIsOwn(c, s'[k], e);
    }
    HeardMono(s[k], Network(cl, s), Network(cl, s'));
    StepHeard(c, s[k], ev, Network(cl, s'));
    forall j | Correct(cl, j) && j != k
      ensures CorrectOk(cl, s', j)
    {
      assert CorrectOk(cl, s, j);
      HeardMono(s[j], Network(cl, s), Network(cl, s'));
    }
  }

  lemma SentIsOwn(c: Node, r: Replica, e: Env)
    requires ReplicaOk(c, r) && e in r.sent
    ensures Sender(e) == c.self
  {
  }

  lemma {:induction false} RunOk(cl: Cluster, run: seq<System>, t: nat)
    requires IsRun(cl, run) && t < |run|
    ensures SystemOk(cl, run[t])
  {
    hide SystemOk, Next, Init;
    if t == 0 {
      InitOk(cl, run[0]);
    } else {
      RunOk(cl, run, t - 1);
      NextOk(cl, run[t - 1], run[t - 1 + 1]);
    }
  }

  // ---- Agreement ----

  /** A commit certificate: an instance that gathered its quorum from known messages. */
  ghost predicate Certified(cl: Cluster, s: System, i: Index, inst: Instance)
    requires |s| == cl.n && cl.n >= 1
  {
    && |inst.commits| >= QuorumSize(cl.n) + 1
    && VotesFor(i, inst.digest, inst.commits)
    && forall k :: k in inst.commits ==> Commit(inst.commits[k]) in Network(cl, s)
  }

  lemma CommitedIsCertified(cl: Cluster, s: System, k: int, i: Index)
    requires SystemOk(cl, s) && Correct(cl, k) && i in s[k].instances && s[k].instances[i].phase == COMMITED
    ensures Certified(cl, s, i, s[k].instances[i])
  {
    hide QuorumSize;
    assert CorrectOk(cl, s, k);
    assert InstOk(NodeOf(cl, k), i, s[k].instances[i], s[k].sent, i.view == s[k].view);
  }

  lemma ExecutedIsCertified(cl: Cluster, s: System, k: int, n: nat)
    requires SystemOk(cl, s) && Correct(cl, k) && n < |s[k].log|
    ensures Certified(cl, s, s[k].log[n].index, s[k].log[n].inst)
  {
    hide QuorumSize;
    assert CorrectOk(cl, s, k);
    assert DeliveryOk(NodeOf(cl, k), s[k].log[n], s[k].sent);
  }

  /** Two certificates at one (view, sequence) are for the same digest: their quorums share a
      correct replica, and that replica voted once. */
  lemma CertificatesAgree(cl: Cluster, s: System, i: Index, a: Instance, b: Instance)
    requires Tolerable(cl) && SystemOk(cl, s) && Certified(cl, s, i, a) && Certified(cl, s, i, b)
    ensures a.digest == b.digest
  {
    hide ReplicaOk, Heard, QuorumSize, Faults;
    assert a.commits.Keys <= Replicas(cl.n) && b.commits.Keys <= Replicas(cl.n) by {
      forall k | k in a.commits ensures k in Replicas(cl.n) { assert Commit(a.commits[k]) in Network(cl, s); }
      forall k | k in b.commits ensures k in Replicas(cl.n) { assert Commit(b.commits[k]) in Network(cl, s); }
    }
    var k := CommonCorrect(cl.n, cl.faulty, a.commits.Keys, b.commits.Keys);
    assert CorrectOk(cl, s, k);
    OneDigest(NodeOf(cl, k), s[k], Commit(a.commits[k]), Commit(b.commits[k]));
  }

  lemma OneDigest(c: Node, r: Replica, x: Env, y: Env)
    requires ReplicaOk(c, r) && x in r.sent && y in r.sent
    requires IsVote(x) && IsVote(y) && IndexOf(x) == IndexOf(y)
    ensures x.vote.digest == y.vote.digest
  {
  }

  /** A proof handed over with a value convinces other nodes exactly when the commits that arrived
      in the instance's buffer come from a quorum and each signer's first one carries the digest. */
  lemma LoggedProof(cl: Cluster, run: seq<System>, t: nat, k: int, n: nat)
    requires IsRun(cl, run) && t < |run| && |run[t]| == cl.n && Correct(cl, k) && n < |run[t][k].log|
    ensures var d := run[t][k].log[n];
            && Shaped(d.inst)
            && var b := d.inst.buf[PREPARED];
               Convincing(cl.n, d.inst.digest, d.proof) <==>
               FirstCommitsAgree(b, d.inst.digest) && |Senders(b)| >= QuorumSize(cl.n) + 1
  {
    hide IsRun, QuorumSize, Heard;
    RunOk(cl, run, t);
    assert CorrectOk(cl, run[t], k);
    var d := run[t][k].log[n];
    assert DeliveryOk(NodeOf(cl, k), d, run[t][k].sent);
    var b := d.inst.buf[PREPARED];
    forall r: int | r in Senders(b)
      ensures r in Replicas(cl.n)
    {
      var e :| e in b && Sender(e) == r;
      var j :| 0 <= j < |b| && b[j] == e;
      assert Belongs(NodeOf(cl, k), d.index, PREPARED, b[j], run[t][k].sent);
    }
    BuiltProofAccepted(cl.n, b, d.inst.digest);
  }

  /** Single vote: in no state of any run has a correct replica sent prepares or commits for
      two digests at one (view, sequence). */
  lemma CorrectVotesOnce(cl: Cluster, run: seq<System>, t: nat, k: int)
    requires IsRun(cl, run) && t < |run| && Correct(cl, k)
    ensures |run[t]| == cl.n && SingleVote(run[t][k].sent)
  {
    RunOk(cl, run, t);
    assert CorrectOk(cl, run[t], k);
  }

  lemma {:induction false} NetworkGrows(cl: Cluster, run: seq<System>, t: nat, u: nat)
    requires IsRun(cl, run) && t <= u < |run|
    ensures |run[t]| == |run[u]| == cl.n && Network(cl, run[t]) <= Network(cl, run[u])
    decreases u - t
  {
    hide Network, Next, Init;
    RunSize(cl, run, t);
    if t < u {
      NetworkGrows(cl, run, t, u - 1);
      assert Next(cl, run[u - 1], run[u - 1 + 1]);
      NetworkStep(cl, run[u - 1], run[u]);
    }
  }

  lemma NetworkStep(cl: Cluster, s: System, s': System)
    requires Next(cl, s, s')
    ensures |s| == |s'| == cl.n && Network(cl, s) <= Network(cl, s')
  {
    hide Step, Permitted, ShapedAll, QuorumSize;
    var k, ev :| Takes(cl, s, s', k, ev);
    StepInOrder(NodeOf(cl, k), s[k], ev);
  }

  lemma CertifiedLater(cl: Cluster, run: seq<System>, t: nat, u: nat, i: Index, inst: Instance)
    requires IsRun(cl, run) && cl.n >= 1 && t <= u < |run| && |run[t]| == cl.n && Certified(cl, run[t], i, inst)
    ensures |run[u]| == cl.n && Certified(cl, run[u], i, inst)
  {
    hide Network, IsRun, QuorumSize;
    NetworkGrows(cl, run, t, u);
  }

  /** In-view agreement: at no two moments of a run do two correct replicas hold committed
      instances for one (view, sequence) with different digests. */
  lemma InViewAgreement(cl: Cluster, run: seq<System>, t: nat, j: int, u: nat, k: int, i: Index)
    requires Tolerable(cl) && IsRun(cl, run) && t <= u < |run| && |run[t]| == |run[u]| == cl.n
    requires Correct(cl, j) && i in run[t][j].instances && run[t][j].instances[i].phase == COMMITED
    requires Correct(cl, k) && i in run[u][k].instances && run[u][k].instances[i].phase == COMMITED
    ensures run[t][j].instances[i].digest == run[u][k].instances[i].digest
  {
    hide SystemOk, Certified, IsRun;
    RunOk(cl, run, t);
    RunOk(cl, run, u);
    CommitedIsCertified(cl, run[t], j, i);
    CertifiedLater(cl, run, t, u, i, run[t][j].instances[i]);
    CommitedIsCertified(cl, run[u], k, i);
    CertificatesAgree(cl, run[u], i, run[t][j].instances[i], run[u][k].instances[i]);
  }

  ghost predicate GoodHash(hash: string -> string)
  {
    && (forall x, y :: hash(x) == hash(y) ==> x == y)
    && (forall x :: hash(x) != "")
  }

  /** What is handed to the ledger: if two correct replicas ever execute the same sequence in
      the same view, they execute the same value, even long after the instances are gone. */
  lemma ExecutedAgreement(cl: Cluster, run: seq<System>, t: nat, j: int, k: int, a: nat, b: nat)
    requires Tolerable(cl) && GoodHash(cl.hash) && IsRun(cl, run) && t < |run| && |run[t]| == cl.n
    requires Correct(cl, j) && a < |run[t][j].log|
    requires Correct(cl, k) && b < |run[t][k].log|
    requires run[t][j].log[a].index == run[t][k].log[b].index
    ensures run[t][j].log[a].inst.value == run[t][k].log[b].inst.value
  {
    hide Certified, IsRun, Tolerable, Heard, QuorumSize;
    RunOk(cl, run, t);
    ExecutedIsCertified(cl, run[t], j, a);
    ExecutedIsCertified(cl, run[t], k, b);
    CertificatesAgree(cl, run[t], run[t][j].log[a].index, run[t][j].log[a].inst, run[t][k].log[b].inst);
    assert CorrectOk(cl, run[t], j) && CorrectOk(cl, run[t], k);
    assert DeliveryOk(NodeOf(cl, j), run[t][j].log[a], run[t][j].sent);
    assert DeliveryOk(NodeOf(cl, k), run[t][k].log[b], run[t][k].sent);
  }

  lemma NextInOrder(cl: Cluster, s: System, s': System, k: int)
    requires Next(cl, s, s') && Correct(cl, k)
    ensures |s| == |s'| == cl.n && ExecutesInOrder(s[k], s'[k])
  {
    hide QuorumSize, Step, Permitted, ShapedAll;
    var j, ev :| Takes(cl, s, s', j, ev);
    StepInOrder(NodeOf(cl, j), s[j], ev);
  }

  /** Execution order over whole runs: the window of a correct replica never goes back and
      its log only grows. */
  lemma {:induction false} RunsOnlyAdvance(cl: Cluster, run: seq<System>, t: nat, u: nat, k: int)
    requires IsRun(cl, run) && t <= u < |run| && Correct(cl, k)
    ensures |run[t]| == |run[u]| == cl.n
    ensures run[t][k].lastExe <= run[u][k].lastExe && run[t][k].log <= run[u][k].log
    decreases u - t
  {
    hide Next, SystemOk;
    if t == u {
      RunSize(cl, run, t);
    } else {
      RunsOnlyAdvance(cl, run, t, u - 1, k);
      assert Next(cl, run[u - 1], run[u - 1 + 1]);
      NextInOrder(cl, run[u - 1], run[u], k);
    }
  }

  lemma RunSize(cl: Cluster, run: seq<System>, t: nat)
    requires IsRun(cl, run) && t < |run|
    ensures |run[t]| == cl.n
  {
    RunOk(cl, run, t);
  }

  /** `OnValueCommited` is called with strictly increasing sequences, never beyond the window. */
  lemma LogStrictlyIncreases(cl: Cluster, run: seq<System>, t: nat, k: int)
    requires IsRun(cl, run) && t < |run| && Correct(cl, k)
    ensures |run[t]| == cl.n
    ensures forall m, n :: 0 <= m < n < |run[t][k].log| ==>
              run[t][k].log[m].index.sequence < run[t][k].log[n].index.sequence <= run[t][k].lastExe
  {
    RunOk(cl, run, t);
    assert CorrectOk(cl, run[t], k);
  }
}
