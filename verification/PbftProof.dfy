/** Commit proofs: how an executed instance builds one and how other nodes check it. */
module PbftProof {
  import opened Options
  import opened Quorum
  import opened PbftInstance
  import opened PbftDelivery

  function Senders(b: seq<Env>): set<int>
  {
    set e | e in b :: Sender(e)
  }

  lemma SendersAppend(b: seq<Env>, e: Env)
    ensures Senders(b + [e]) == Senders(b) + {Sender(e)}
  {
    assert forall x :: x in b + [e] <==> x in b || x == e;
  }

  /** The commit buffer thinned to the first message of every signer. */
  function FirstPerSigner(b: seq<Env>): seq<Env>
  {
    if b == [] then []
    else
      var before, e := b[..|b| - 1], b[|b| - 1];
      if Sender(e) in Senders(before) then FirstPerSigner(before) else FirstPerSigner(before) + [e]
  }

  predicate DistinctSenders(b: seq<Env>)
  {
    forall i, j :: 0 <= i < j < |b| ==> Sender(b[i]) != Sender(b[j])
  }

  predicate CommitFor(n: nat, d: string, e: Env)
  {
    e.Commit? && e.vote.digest == d && Sender(e) in Replicas(n)
  }

  predicate CommitsFor(n: nat, d: string, b: seq<Env>)
  {
    (forall k :: 0 <= k < |b| ==> CommitFor(n, d, b[k])) && DistinctSenders(b)
  }

  /** What a proof has to be: enough commits for the digest, each from a different validator. */
  predicate Convincing(n: nat, d: string, proof: seq<Env>)
    requires n >= 1
  {
    CommitsFor(n, d, proof) && |proof| >= QuorumSize(n) + 1
  }

  /** The proof-building loop of `TryExecuteValue`. */
  method BuildProof(b: seq<Env>) returns (proof: seq<Env>)
    ensures proof == FirstPerSigner(b)
  {
    proof := [];
    var seen: set<int> := {};
    for i := 0 to |b|
      invariant seen == Senders(b[..i])
      invariant proof == FirstPerSigner(b[..i])
    {
      assert b[..i + 1][..i] == b[..i];
      assert b[..i + 1] == b[..i] + [b[i]];
      SendersAppend(b[..i], b[i]);
      if Sender(b[i]) !in seen {
        proof := proof + [b[i]];
        seen := seen + {Sender(b[i])};
      }
    }
    assert b[..|b|] == b;
  }

  lemma {:induction false} SendersSize(b: seq<Env>)
    requires DistinctSenders(b)
    ensures |Senders(b)| == |b|
  {
    if b != [] {
      var before, e := b[..|b| - 1], b[|b| - 1];
      SendersSize(before);
      SendersAppend(before, e);
      LastIsNew(b);
      assert b == before + [e];
      hide Senders, DistinctSenders;
    }
  }

  lemma LastIsNew(b: seq<Env>)
    requires DistinctSenders(b) && b != []
    ensures Sender(b[|b| - 1]) !in Senders(b[..|b| - 1])
  {
  }

  /** `CheckProof`: validators are crossed off as their commits are seen. */
  method CheckProof(n: nat, d: string, proof: seq<Env>) returns (ok: bool)
    requires n >= 1
    ensures ok <==> Convincing(n, d, proof)
  {
    assert Senders(proof[..0]) == {};
    hide QuorumSize, Senders, Replicas, CommitsFor;
    var left := Replicas(n);
    NoneYet(n, d, proof);
    for i := 0 to |proof|
      invariant left == Replicas(n) - Senders(proof[..i])
      invariant CommitsFor(n, d, proof[..i])
    {
      var e := proof[i];
      OneMore(n, d, proof, i);
      if Sender(e) !in left || !e.Commit? || e.vote.digest != d {
        return false;
      }
      left := left - {Sender(e)};
    }
    assert proof[..|proof|] == proof;
    LeftOver(n, d, proof);
    ok := n - |left| >= QuorumSize(n) + 1;
  }

  lemma NoneYet(n: nat, d: string, proof: seq<Env>)
    ensures CommitsFor(n, d, proof[..0])
  {
  }

  /** One more commit is fine exactly when its signer has not been crossed off yet. */
  lemma OneMore(n: nat, d: string, proof: seq<Env>, i: nat)
    requires i < |proof| && CommitsFor(n, d, proof[..i])
    ensures Senders(proof[..i + 1]) == Senders(proof[..i]) + {Sender(proof[i])}
    ensures var e := proof[i];
            if Sender(e) in Replicas(n) - Senders(proof[..i]) && e.Commit? && e.vote.digest == d
            then CommitsFor(n, d, proof[..i + 1])
            else !CommitsFor(n, d, proof)
  {
    hide Senders, Replicas;
    assert proof[..i + 1] == proof[..i] + [proof[i]];
    SendersAppend(proof[..i], proof[i]);
    SenderAmong(proof[..i], Sender(proof[i]));
    if Sender(proof[i]) in Senders(proof[..i]) {
      var j :| 0 <= j < i && Sender(proof[..i][j]) == Sender(proof[i]);
      assert proof[..i][j] == proof[j];
    }
  }

  lemma LeftOver(n: nat, d: string, proof: seq<Env>)
    requires CommitsFor(n, d, proof)
    ensures n - |Replicas(n) - Senders(proof)| == |proof|
  {
    hide Replicas;
    SendersSize(proof);
    assert Replicas(n) == (Replicas(n) - Senders(proof)) + Senders(proof);
  }

  lemma SenderAmong(b: seq<Env>, r: int)
    ensures r in Senders(b) <==> exists j :: 0 <= j < |b| && Sender(b[j]) == r
  {
  }

  // ---- The built proof ----

  /** Position k holds the first message of its signer. */
  predicate IsFirst(b: seq<Env>, k: nat)
    requires k < |b|
  {
    Sender(b[k]) !in Senders(b[..k])
  }

  lemma {:induction false} FirstsAre(b: seq<Env>)
    ensures DistinctSenders(FirstPerSigner(b))
    ensures Senders(FirstPerSigner(b)) == Senders(b)
    ensures forall k :: 0 <= k < |b| && IsFirst(b, k) ==> b[k] in FirstPerSigner(b)
    ensures forall e :: e in FirstPerSigner(b) ==> exists k :: 0 <= k < |b| && b[k] == e && IsFirst(b, k)
  {
    hide Senders;
    if b == [] {
      assert FirstPerSigner(b) == b;
    } else {
      var before, last := b[..|b| - 1], b[|b| - 1];
      FirstsAre(before);
      SendersAppend(before, last);
      SendersAppend(FirstPerSigner(before), last);
      assert b == before + [last];
      forall k | 0 <= k < |before|
        ensures before[k] == b[k] && IsFirst(before, k) == IsFirst(b, k)
      {
        assert before[..k] == b[..k];
      }
      forall e | e in FirstPerSigner(b)
        ensures exists k :: 0 <= k < |b| && b[k] == e && IsFirst(b, k)
      {
        if e in FirstPerSigner(before) {
          var k :| 0 <= k < |before| && before[k] == e && IsFirst(before, k);
          assert b[k] == e && IsFirst(b, k);
        } else {
          assert b[|b| - 1] == e && IsFirst(b, |b| - 1);
        }
      }
      forall i | 0 <= i < |FirstPerSigner(before)|
        ensures Sender(FirstPerSigner(before)[i]) in Senders(before)
      {
        SenderAmong(FirstPerSigner(before), Sender(FirstPerSigner(before)[i]));
      }
    }
  }

  /** The first commit of every signer carries the digest: something the executing
      node can read off its buffer before it hands the proof on. */
  predicate FirstCommitsAgree(b: seq<Env>, d: string)
  {
    forall k :: 0 <= k < |b| && IsFirst(b, k) ==> b[k].Commit? && b[k].vote.digest == d
  }

  lemma {:induction false} VotersAreSenders(b: seq<Env>, d: string)
    ensures Voters(b, d) <= Senders(b)
  {
    if b != [] {
      VotersAreSenders(b[..|b| - 1], d);
      SendersAppend(b[..|b| - 1], b[|b| - 1]);
      assert b == b[..|b| - 1] + [b[|b| - 1]];
    }
  }

  /** The proof built from a buffer is accepted exactly when the buffer has a quorum of signers
      and the first commit of every signer carries the digest. */
  lemma BuiltProofAccepted(n: nat, b: seq<Env>, d: string)
    requires n >= 1 && Senders(b) <= Replicas(n)
    ensures Convincing(n, d, FirstPerSigner(b)) <==> FirstCommitsAgree(b, d) && |Senders(b)| >= QuorumSize(n) + 1
  {
    hide FirstPerSigner, Voters, QuorumSize, Replicas;
    var proof := FirstPerSigner(b);
    FirstsAre(b);
    SendersSize(proof);
    forall k | 0 <= k < |proof|
      ensures Sender(proof[k]) in Replicas(n)
    {
      SenderAmong(proof, Sender(proof[k]));
    }
    if FirstCommitsAgree(b, d) {
      forall k | 0 <= k < |proof|
        ensures proof[k].Commit? && proof[k].vote.digest == d
      {
        assert proof[k] in proof;
      }
    }
    if Convincing(n, d, proof) {
      forall k | 0 <= k < |b| && IsFirst(b, k)
        ensures b[k].Commit? && b[k].vote.digest == d
      {
        assert b[k] in proof;
      }
    }
  }

  predicate FromValidators(c: Node, ms: seq<Arrival>)
  {
    forall a :: a in ms ==> 0 <= Sender(a.e) < c.n
  }

  /** Round trip: whenever an instance, a backup's or the primary's own, commits through `Go`,
      the proof it yields is accepted by every node with the same validators if and only if the first commit
      that each signer delivered carries the committed digest. */
  lemma ProofRoundTrip(c: Node, own: Option<Proposal>, ms: seq<Arrival>)
    requires AllPhased(ms) && FromValidators(c, ms) && c.quorum == QuorumSize(c.n)
    requires Run(c, own, ms).phase == COMMITED
    ensures var inst := Run(c, own, ms);
            Convincing(c.n, inst.digest, FirstPerSigner(inst.buf[PREPARED])) <==> FirstCommitsAgree(inst.buf[PREPARED], inst.digest)
  {
    hide Run, QuorumSize;
    RunTracks(c, own, ms);
    var inst := Run(c, own, ms);
    var b := OfType(ms, PREPARED);
    forall r: int | r in Senders(b)
      ensures r in Replicas(c.n)
    {
      var e :| e in b && Sender(e) == r;
      OfTypeMember(ms, PREPARED, e);
    }
    VotersAreSenders(b, inst.digest);
    SubsetSize(Voters(b, inst.digest), Senders(b));
    BuiltProofAccepted(c.n, b, inst.digest);
  }

  /** In particular, a buffer in which every commit carries the digest always convinces. */
  lemma CleanBufferConvinces(c: Node, own: Option<Proposal>, ms: seq<Arrival>)
    requires AllPhased(ms) && FromValidators(c, ms) && c.quorum == QuorumSize(c.n)
    requires Run(c, own, ms).phase == COMMITED
    requires forall a :: a in ms && a.e.Commit? ==> a.e.vote.digest == Run(c, own, ms).digest
    ensures var inst := Run(c, own, ms);
            Convincing(c.n, inst.digest, FirstPerSigner(inst.buf[PREPARED]))
  {
    hide Run, QuorumSize;
    ProofRoundTrip(c, own, ms);
    RunTracks(c, own, ms);
    var b := OfType(ms, PREPARED);
    forall k | 0 <= k < |b|
      ensures b[k].Commit? && b[k].vote.digest == Run(c, own, ms).digest
    {
      OfTypeMember(ms, PREPARED, b[k]);
    }
  }

  /** Any two accepted proofs have more signers in common than may be faulty. */
  lemma ProofsShareSigners(n: nat, d: string, e: string, p: seq<Env>, q: seq<Env>)
    requires n >= 1 && Convincing(n, d, p) && Convincing(n, e, q)
    ensures |Senders(p) * Senders(q)| >= Faults(n) + 1
  {
    SendersSize(p);
    SendersSize(q);
    QuorumsIntersect(n, Senders(p), Senders(q));
  }
}
