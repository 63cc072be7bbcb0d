/** Choosing the transactions of the next block: `TopTransaction`. */
module TxSelection {
  import opened TxPool

  /** 16 megabytes. */
  const TXSET_LIMIT_SIZE: nat := 16 * 1024 * 1024

  function VarintSize(n: nat): (bytes: nat)
    ensures bytes >= 1
  {
    if n < 128 then 1 else 1 + VarintSize(n / 128)
  }

  /** The encoded size of a set: each transaction with its tag byte and length. */
  function ByteSize(txs: seq<Tx>): (bytes: nat)
    ensures bytes >= TotalSize(txs)
  {
    if txs == [] then 0
    else
      var tx := txs[|txs| - 1];
      ByteSize(txs[..|txs| - 1]) + 1 + VarintSize(tx.size) + tx.size
  }

  function TotalSize(txs: seq<Tx>): nat
  {
    if txs == [] then 0 else TotalSize(txs[..|txs| - 1]) + txs[|txs| - 1].size
  }

  /** The nonce an account has reached; accounts without a record count from 0. */
  function Base(nonces: map<Address, int>, a: Address): int
  {
    if a in nonces then nonces[a] else 0
  }

  predicate Selects(chosen: seq<Tx>, upTo: nat, a: Address, nonce: int)
    requires upTo <= |chosen|
  {
    exists j :: 0 <= j < upTo && chosen[j].source == a && chosen[j].nonce == nonce
  }

  /** Every selected nonce above the account's has all nonces in between selected before it. */
  predicate Contiguous(chosen: seq<Tx>, nonces: map<Address, int>)
  {
    forall k, w :: 0 <= k < |chosen| && Base(nonces, chosen[k].source) < w < chosen[k].nonce ==>
      Selects(chosen, k, chosen[k].source, w)
  }

  predicate OnePerKey(txs: seq<Tx>)
  {
    forall i, j :: 0 <= i < j < |txs| ==> !SameKey(txs[i], txs[j])
  }

  /** The chosen transactions are those at increasing positions of the queue. */
  predicate Picks(queue: seq<Tx>, picks: seq<nat>, chosen: seq<Tx>)
  {
    && |picks| == |chosen|
    && (forall k :: 0 <= k < |picks| ==> picks[k] < |queue| && chosen[k] == queue[picks[k]])
    && (forall k, l :: 0 <= k < l < |picks| ==> picks[k] < picks[l])
  }

  /** What `topic_seqs` remembers: the nonce selected last of each account. */
  predicate LastOnes(chosen: seq<Tx>, last: map<Address, int>)
  {
    && (forall k :: 0 <= k < |chosen| ==> chosen[k].source in last)
    && (forall a :: a in last ==> Selects(chosen, |chosen|, a, last[a]))
  }

  lemma SelectsMore(chosen: seq<Tx>, tx: Tx, upTo: nat, a: Address, nonce: int)
    requires upTo <= |chosen| && Selects(chosen, upTo, a, nonce)
    ensures Selects(chosen + [tx], upTo, a, nonce) && Selects(chosen + [tx], |chosen| + 1, a, nonce)
  {
    var j :| 0 <= j < upTo && chosen[j].source == a && chosen[j].nonce == nonce;
    assert (chosen + [tx])[j] == chosen[j];
  }

  lemma PickMore(queue: seq<Tx>, picks: seq<nat>, chosen: seq<Tx>, t: nat)
    requires Picks(queue, picks, chosen) && t < |queue| && forall k :: 0 <= k < |picks| ==> picks[k] < t
    ensures Picks(queue, picks + [t], chosen + [queue[t]])
  {
  }

  /** A nonce at most one above the last selected extends the run without a gap. */
  lemma ExtendContiguous(chosen: seq<Tx>, nonces: map<Address, int>, last: map<Address, int>, tx: Tx)
    requires Contiguous(chosen, nonces) && LastOnes(chosen, last)
    requires tx.nonce <= (if tx.source in last then last[tx.source] else Base(nonces, tx.source)) + 1
    ensures Contiguous(chosen + [tx], nonces) && LastOnes(chosen + [tx], last[tx.source := tx.nonce])
  {
    var r := chosen + [tx];
    forall k, w | 0 <= k < |r| && Base(nonces, r[k].source) < w < r[k].nonce
      ensures Selects(r, k, r[k].source, w)
    {
      if k < |chosen| {
        assert r[k] == chosen[k];
        SelectsMore(chosen, tx, k, chosen[k].source, w);
      } else {
        var j :| 0 <= j < |chosen| && chosen[j].source == tx.source && chosen[j].nonce == last[tx.source];
        if w < last[tx.source] {
          assert Selects(chosen, j, tx.source, w);
          var i :| 0 <= i < j && chosen[i].source == tx.source && chosen[i].nonce == w;
          assert r[i] == chosen[i];
        } else {
          assert r[j] == chosen[j] && w == chosen[j].nonce;
        }
      }
    }
    var last' := last[tx.source := tx.nonce];
    forall a | a in last'
      ensures Selects(r, |r|, a, last'[a])
    {
      if a == tx.source {
        assert r[|chosen|] == tx;
      } else {
        SelectsMore(chosen, tx, |chosen|, a, last[a]);
      }
    }
    assert forall k :: 0 <= k < |r| ==> r[k].source == tx.source || r[k] == chosen[k];
  }

  lemma NoRepeats(queue: seq<Tx>, picks: seq<nat>, chosen: seq<Tx>)
    requires Picks(queue, picks, chosen) && OnePerKey(queue)
    ensures OnePerKey(chosen)
  {
  }

  // ---- Nothing is left out without a reason ----

  /** The nonce the next transaction of an account has to follow. */
  function LastNonce(chosen: seq<Tx>, nonces: map<Address, int>, a: Address): int
  {
    if chosen == [] then Base(nonces, a)
    else if chosen[|chosen| - 1].source == a then chosen[|chosen| - 1].nonce
    else LastNonce(chosen[..|chosen| - 1], nonces, a)
  }

  lemma LastNonceMore(chosen: seq<Tx>, nonces: map<Address, int>, tx: Tx, a: Address)
    ensures LastNonce(chosen + [tx], nonces, a) == if a == tx.source then tx.nonce else LastNonce(chosen, nonces, a)
  {
    assert (chosen + [tx])[..|chosen|] == chosen;
  }

  /** At or before t a transaction of the same account came with a nonce too far ahead. */
  predicate GapBefore(queue: seq<Tx>, chosen: seq<Tx>, nonces: map<Address, int>, a: Address, t: nat)
    requires t < |queue|
  {
    exists b :: 0 <= b <= t && queue[b].source == a && queue[b].nonce > LastNonce(chosen, nonces, a) + 1
  }

  predicate Accounted(queue: seq<Tx>, picks: seq<nat>, chosen: seq<Tx>, nonces: map<Address, int>, t: nat)
    requires t < |queue|
  {
    t in picks || GapBefore(queue, chosen, nonces, queue[t].source, t)
  }

  /** Why the scan ended where it did. */
  predicate Stopped(queue: seq<Tx>, chosen: seq<Tx>, limit: nat, stop: nat)
  {
    stop == |queue| || |chosen| == limit || (stop < |queue| && ByteSize(chosen) + queue[stop].size >= TXSET_LIMIT_SIZE)
  }

  /** What `topic_seqs` and `break_nonce_accounts` record after t transactions. */
  ghost predicate Tracked(
    queue: seq<Tx>, chosen: seq<Tx>, nonces: map<Address, int>, last: map<Address, int>, broken: set<Address>, t: nat)
    requires t <= |queue|
  {
    && (forall a :: LastNonce(chosen, nonces, a) == if a in last then last[a] else Base(nonces, a))
    && (forall a :: a in broken ==> t > 0 && GapBefore(queue, chosen, nonces, a, t - 1))
  }

  lemma GapKept(queue: seq<Tx>, chosen: seq<Tx>, nonces: map<Address, int>, a: Address, t: nat, tx: Tx, t': nat)
    requires t <= t' < |queue| && GapBefore(queue, chosen, nonces, a, t) && tx.source != a
    ensures GapBefore(queue, chosen + [tx], nonces, a, t) && GapBefore(queue, chosen + [tx], nonces, a, t')
  {
    LastNonceMore(chosen, nonces, tx, a);
    var b :| 0 <= b <= t && queue[b].source == a && queue[b].nonce > LastNonce(chosen, nonces, a) + 1;
    assert queue[b].source == a;
  }

  lemma GapLater(queue: seq<Tx>, chosen: seq<Tx>, nonces: map<Address, int>, a: Address, t: nat, t': nat)
    requires t <= t' < |queue| && GapBefore(queue, chosen, nonces, a, t)
    ensures GapBefore(queue, chosen, nonces, a, t')
  {
    var b :| 0 <= b <= t && queue[b].source == a && queue[b].nonce > LastNonce(chosen, nonces, a) + 1;
    assert queue[b].source == a;
  }

  predicate AllAccounted(queue: seq<Tx>, picks: seq<nat>, chosen: seq<Tx>, nonces: map<Address, int>, t: nat)
    requires t <= |queue|
  {
    forall u :: 0 <= u < t ==> Accounted(queue, picks, chosen, nonces, u)
  }

  /** A transaction that is taken. */
  lemma TakeTracked(queue: seq<Tx>, picks: seq<nat>, chosen: seq<Tx>, nonces: map<Address, int>,
                    last: map<Address, int>, broken: set<Address>, t: nat)
    requires t < |queue| && Tracked(queue, chosen, nonces, last, broken, t) && AllAccounted(queue, picks, chosen, nonces, t)
    requires queue[t].source !in broken && forall u :: 0 <= u < t && queue[u].source !in broken ==> u in picks
    ensures Tracked(queue, chosen + [queue[t]], nonces, last[queue[t].source := queue[t].nonce], broken, t + 1)
    ensures AllAccounted(queue, picks + [t], chosen + [queue[t]], nonces, t + 1)
  {
    var tx := queue[t];
    forall a { LastNonceMore(chosen, nonces, tx, a); }
    forall a | a in broken
      ensures GapBefore(queue, chosen + [tx], nonces, a, t)
    {
      GapKept(queue, chosen, nonces, a, t - 1, tx, t);
    }
    forall u | 0 <= u < t + 1
      ensures Accounted(queue, picks + [t], chosen + [tx], nonces, u)
    {
      if u < t && u !in picks {
        assert Accounted(queue, picks, chosen, nonces, u);
        GapKept(queue, chosen, nonces, queue[u].source, u, tx, u);
      }
    }
  }

  /** A transaction that is passed over: its account is, or now becomes, a broken one. */
  lemma SkipTracked(queue: seq<Tx>, picks: seq<nat>, chosen: seq<Tx>, nonces: map<Address, int>,
                    last: map<Address, int>, broken: set<Address>, t: nat)
    requires t < |queue| && Tracked(queue, chosen, nonces, last, broken, t) && AllAccounted(queue, picks, chosen, nonces, t)
    requires queue[t].source in broken || queue[t].nonce > LastNonce(chosen, nonces, queue[t].source) + 1
    ensures Tracked(queue, chosen, nonces, last, broken + {queue[t].source}, t + 1)
    ensures AllAccounted(queue, picks, chosen, nonces, t + 1)
  {
    if queue[t].source in broken {
      GapLater(queue, chosen, nonces, queue[t].source, t - 1, t);
    }
    assert GapBefore(queue, chosen, nonces, queue[t].source, t);
    forall a | a in broken
      ensures GapBefore(queue, chosen, nonces, a, t)
    {
      GapLater(queue, chosen, nonces, a, t - 1, t);
    }
  }

  /** `TopTransaction`, over any queue content in any order. */
  method TopTransaction(queue: seq<Tx>, nonces: map<Address, int>, limit: nat)
    returns (chosen: seq<Tx>, ghost picks: seq<nat>, ghost stop: nat)
    ensures Picks(queue, picks, chosen)
    ensures |chosen| <= limit
    ensures TotalSize(chosen) < TXSET_LIMIT_SIZE
    ensures Contiguous(chosen, nonces)
    ensures OnePerKey(queue) ==> OnePerKey(chosen)
    ensures stop <= |queue| && Stopped(queue, chosen, limit, stop) && AllAccounted(queue, picks, chosen, nonces, stop)
  {
    hide Picks, Contiguous, LastOnes, Tracked, AllAccounted, ByteSize, LastNonce;
    chosen, picks := [], [];
    var last: map<Address, int> := map[];
    var broken: set<Address> := {};
    var setSize := 0;
    var t := 0;
    StartTracked(queue, nonces);
    while |chosen| < limit && t < |queue|
      invariant 0 <= t <= |queue| && |chosen| <= limit
      invariant Picks(queue, picks, chosen) && forall k :: 0 <= k < |picks| ==> picks[k] < t
      invariant TotalSize(chosen) <= setSize && TotalSize(chosen) < TXSET_LIMIT_SIZE
      invariant Contiguous(chosen, nonces) && LastOnes(chosen, last)
      invariant Tracked(queue, chosen, nonces, last, broken, t) && AllAccounted(queue, picks, chosen, nonces, t)
      invariant forall u :: 0 <= u < t && queue[u].source !in broken ==> u in picks
      decreases |queue| - t
    {
      var tx := queue[t];
      if |chosen| + setSize + tx.size >= TXSET_LIMIT_SIZE {
        if ByteSize(chosen) + tx.size >= TXSET_LIMIT_SIZE {
          break;
        }
      }
      setSize := setSize + tx.size;
      if tx.source !in broken {
        var lastSeq := if tx.source in last then last[tx.source] else Base(nonces, tx.source);
        LastIs(queue, chosen, nonces, last, broken, t, tx.source);
        if tx.nonce > lastSeq + 1 {
          SkipTracked(queue, picks, chosen, nonces, last, broken, t);
          broken := broken + {tx.source};
        } else {
          ExtendContiguous(chosen, nonces, last, tx);
          PickMore(queue, picks, chosen, t);
          TakeTracked(queue, picks, chosen, nonces, last, broken, t);
          last := last[tx.source := tx.nonce];
          assert (chosen + [tx])[..|chosen|] == chosen;
          chosen, picks := chosen + [tx], picks + [t];
        }
      } else {
        SkipTracked(queue, picks, chosen, nonces, last, broken, t);
        assert broken + {tx.source} == broken;
      }
      t := t + 1;
    }
    stop := t;
    if OnePerKey(queue) {
      NoRepeats(queue, picks, chosen);
    }
  }

  lemma StartTracked(queue: seq<Tx>, nonces: map<Address, int>)
    ensures Picks(queue, [], []) && Contiguous([], nonces) && LastOnes([], map[])
    ensures Tracked(queue, [], nonces, map[], {}, 0) && AllAccounted(queue, [], [], nonces, 0)
  {
  }

  lemma LastIs(
    queue: seq<Tx>, chosen: seq<Tx>, nonces: map<Address, int>, last: map<Address, int>, broken: set<Address>, t: nat,
    a: Address)
    requires t <= |queue| && Tracked(queue, chosen, nonces, last, broken, t)
    ensures LastNonce(chosen, nonces, a) == if a in last then last[a] else Base(nonces, a)
  {
  }
}
