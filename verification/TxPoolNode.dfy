/** The transaction pool as it runs: containers updated in place through iterators. */
module TxPoolNode {
  import opened TxPool
  import opened TxPoolRuns
  import opened TxSelection

  class TransactionQueue {
    const limits: Limits
    var queue: seq<Node>
    var times: seq<Node>
    var byAccount: map<Address, map<Nonce, Slot>>
    var byHash: map<string, Tx>
    var nonces: map<Address, int>
    var next: nat
    /** Every transaction offered so far. */
    ghost var known: set<Tx>

    function State(): Pool
      reads this
    {
      Pool(queue, times, byAccount, byHash, nonces, next)
    }

    /** The four indexes agree, both limits hold, the time queue is in order, and what is queued
        was offered; equal hashes mean the same account and nonce. */
    ghost predicate Valid()
      reads this
    {
      PoolOk(State(), limits, known) && Faithful(known)
    }

    constructor (limits: Limits)
      ensures Valid() && known == {} && this.limits == limits && State() == EMPTY
    {
      this.limits, known := limits, {};
      queue, times, byAccount, byHash, nonces, next := [], [], map[], map[], map[], 0;
    }

    /** An account left without transactions is forgotten. */
    method DropNonce(a: Address, k: Nonce)
      requires Has(State(), a, k)
      modifies `byAccount, `nonces
      ensures byAccount == WithoutNonce(old(State()), a, k)
      ensures nonces == if old(byAccount)[a] - {k} == map[] then old(nonces) - {a} else old(nonces)
    {
      byAccount := byAccount[a := byAccount[a] - {k}];
      if byAccount[a] == map[] {
        byAccount := byAccount - {a};
        nonces := nonces - {a};
        assert byAccount == old(byAccount) - {a};
      }
    }

    /** Take out the transaction of an account with a nonce. */
    method RemoveTx(a: Address, nonce: int) returns (found: bool)
      requires Linked(State())
      modifies `queue, `times, `byAccount, `byHash, `nonces, `next
      ensures State() == Remove(old(State()), a, Nonce(nonce))
      ensures Linked(State()) && found == Has(old(State()), a, Nonce(nonce))
      ensures |queue| == old(|queue|) - (if found then 1 else 0)
    {
      hide Linked, Find, Erase, WithoutNonce;
      var k := Nonce(nonce);
      RemoveFacts(State(), a, k);
      if a !in byAccount || k !in byAccount[a] {
        return false;
      }
      var slot := byAccount[a][k];
      var i := Find(queue, slot.left);
      DropNonce(a, k);
      byHash := byHash - {queue[i].tx.hash};
      queue := Erase(queue, slot.left);
      times := Erase(times, slot.right);
      found := true;
    }

    method InsertTx(tx: Tx, at: nat)
      requires at <= |queue|
      modifies `queue, `times, `byAccount, `byHash, `nonces, `next
      ensures State() == Insert(old(State()), tx, at)
    {
      hide Emplace, TimePlace;
      if tx.source !in byAccount {
        byAccount := byAccount[tx.source := map[]];
      }
      byAccount := byAccount[tx.source := byAccount[tx.source][Nonce(tx.nonce) := Slot(next, next + 1)]];
      queue := Emplace(queue, at, Node(next, tx));
      times := Emplace(times, TimePlace(times, tx.time), Node(next + 1, tx));
      byHash := byHash[tx.hash := tx];
      next := next + 2;
      ghost var slots := AccountSlots(old(State()), tx.source)[Nonce(tx.nonce) := Slot(old(next), old(next) + 1)];
      assert byAccount == old(byAccount)[tx.source := slots];
    }

    /** The loop of `Import` that shortens the queue; reports whether `tx` itself had to go. */
    method TrimQueue(tx: Tx) returns (dropped: bool)
      requires Linked(State())
      modifies `queue, `times, `byAccount, `byHash, `nonces, `next
      ensures State() == Trim(old(State()), limits.queue).0
      ensures dropped <==> Mentions(Trim(old(State()), limits.queue).1, tx.hash)
    {
      hide Linked, Remove;
      dropped := false;
      ghost var gone: seq<Tx> := [];
      assert gone + Trim(State(), limits.queue).1 == Trim(State(), limits.queue).1;
      while |queue| > limits.queue
        invariant Linked(State()) && (dropped <==> Mentions(gone, tx.hash))
        invariant Trim(old(State()), limits.queue)
                  == (Trim(State(), limits.queue).0, gone + Trim(State(), limits.queue).1)
        decreases |queue|
      {
        var t := queue[|queue| - 1].tx;
        QueuedHas(State(), queue[|queue| - 1]);
        ghost var p := State();
        var found := RemoveTx(t.source, t.nonce);
        assert gone + ([t] + Trim(State(), limits.queue).1) == (gone + [t]) + Trim(State(), limits.queue).1;
        MentionsMore(gone, t, tx.hash);
        gone := gone + [t];
        if t.hash == tx.hash {
          dropped := true;
        }
      }
      assert gone + [] == gone;
    }

    /** `at` is where the priority queue's comparator happens to put the transaction. */
    method ImportTx(tx: Tx, nonce: int, at: nat) returns (inserted: bool)
      requires Valid() && Faithful(known + {tx})
      modifies this
      ensures Valid() && known == old(known) + {tx} && HashFaithful(old(State()), tx)
      ensures (State(), inserted) == Import(old(State()), limits, tx, nonce, at)
      ensures inserted ==> Queued(State(), tx)
    {
      ghost var p := State();
      ImportValid(p, limits, known, tx, nonce, at);
      known := known + {tx};
      var k := Nonce(tx.nonce);
      SetNonceLinked(p, tx.source, nonce);
      ClearedOk(p, tx, nonce);
      var replace := false;
      nonces := nonces[tx.source := nonce];
      assert State() == SetNonce(p, tx.source, nonce);
      var size := if tx.source in byAccount then |byAccount[tx.source]| else 0;
      if tx.source in byAccount && k in byAccount[tx.source] {
        VictimIs(p, tx.source, k);
        var queued := queue[Find(queue, byAccount[tx.source][k].left)].tx;
        if !Outbids(tx, queued) {
          return false;
        }
        var found := RemoveTx(tx.source, tx.nonce);
        nonces := nonces[tx.source := nonce];
        replace := true;
        size := size - 1;
      }
      assert State() == Cleared(p, tx, nonce) && replace == HasTx(p, tx);
      hide Linked, Remove, Insert, Cleared, Trim, HashFaithful, Find, Victim;
      inserted := false;
      if replace || size < limits.account {
        ghost var p1 := State();
        AddedLinked(p, tx, nonce, at);
        InsertTx(tx, Clip(at, |queue|));
        assert State() == Added(p, tx, nonce, at);
        var dropped := TrimQueue(tx);
        inserted := !dropped;
      }
      if size >= limits.account {
        inserted := false;
      }
    }

    /** `RemoveTxs`: after a block, with `close` set when the ledger closed. */
    method RemoveTxs(refs: seq<Ref>, close: bool) returns (count: nat)
      requires Valid()
      modifies `queue, `times, `byAccount, `byHash, `nonces, `next
      ensures Valid() && State() == RemoveEach(old(State()), refs, close)
      ensures |queue| == old(|queue|) - count
      ensures forall n :: n in queue <==> n in old(queue) && Ref(n.tx.source, n.tx.nonce) !in refs
    {
      hide Linked, Remove, PoolOk, Faithful;
      PoolLinked(State(), limits, known);
      count := 0;
      var i := 0;
      while i < |refs|
        invariant 0 <= i <= |refs| && Linked(State())
        invariant State() == RemoveEach(old(State()), refs[..i], close)
        invariant |queue| == old(|queue|) - count
      {
        var r := refs[i];
        var found := RemoveTx(r.source, r.nonce);
        if found { count := count + 1; }
        SetNonceLinked(State(), r.source, r.nonce);
        if close && r.source in nonces && nonces[r.source] < r.nonce {
          nonces := nonces[r.source := r.nonce];
        }
        assert refs[..i + 1][..i] == refs[..i];
        i := i + 1;
      }
      assert refs[..i] == refs;
      RemoveEachOk(old(State()), refs, close, limits, known);
    }

    method CheckTimeoutAndDel(expire: int) returns (dropped: seq<Tx>)
      requires Valid()
      modifies `queue, `times, `byAccount, `byHash, `nonces, `next
      ensures Valid() && (State(), dropped) == DropExpired(old(State()), expire)
      ensures forall n :: n in times <==> n in old(times) && n.tx.time >= expire
    {
      hide Linked, Remove, PoolOk, Faithful;
      PoolLinked(State(), limits, known);
      dropped := [];
      assert dropped + DropExpired(State(), expire).1 == DropExpired(State(), expire).1;
      while |times| != 0
        invariant Linked(State())
        invariant DropExpired(old(State()), expire)
                  == (DropExpired(State(), expire).0, dropped + DropExpired(State(), expire).1)
        decreases |times|
      {
        var tx := times[0].tx;
        if tx.time >= expire {
          assert dropped + [] == dropped;
          DropValid(old(State()), expire, limits, known);
          return;
        }
        TimedHas(State(), times[0]);
        RemoveQueue(State(), tx.source, Nonce(tx.nonce));
        ghost var p := State();
        var found := RemoveTx(tx.source, tx.nonce);
        assert dropped + ([tx] + DropExpired(State(), expire).1) == (dropped + [tx]) + DropExpired(State(), expire).1;
        dropped := dropped + [tx];
      }
      assert dropped + [] == dropped;
      DropValid(old(State()), expire, limits, known);
    }

    /** The next block's transactions: no account skips a nonce and none appears twice. */
    method Top(limit: nat) returns (chosen: seq<Tx>)
      requires Valid()
      ensures |chosen| <= limit && TotalSize(chosen) < TXSET_LIMIT_SIZE
      ensures Contiguous(chosen, nonces) && OnePerKey(chosen)
      ensures forall k :: 0 <= k < |chosen| ==> Queued(State(), chosen[k])
    {
      var txs := seq(|queue|, i requires 0 <= i < |queue| reads this => queue[i].tx);
      ghost var picks, stop;
      chosen, picks, stop := TopTransaction(txs, nonces, limit);
      forall i, j | 0 <= i < j < |txs|
        ensures !SameKey(txs[i], txs[j])
      {
        OnePerAccountAndNonce(State(), i, j);
      }
      forall k | 0 <= k < |chosen|
        ensures Queued(State(), chosen[k])
      {
        assert queue[picks[k]] in queue;
      }
    }
  }

  lemma ImportValid(p: Pool, limits: Limits, known: set<Tx>, tx: Tx, nonce: int, at: nat)
    requires PoolOk(p, limits, known) && Faithful(known + {tx})
    ensures HashFaithful(p, tx)
    ensures var (r, ok) := Import(p, limits, tx, nonce, at);
            PoolOk(r, limits, known + {tx}) && (ok ==> Queued(r, tx))
  {
    hide Linked, Import, WithinLimits, TimeOrdered, HashFaithful;
    StepOk(p, limits, known + {tx}, Imported(tx, nonce, at));
    ImportOk(p, limits, tx, nonce, at);
  }

  lemma PoolLinked(p: Pool, limits: Limits, known: set<Tx>)
    requires PoolOk(p, limits, known)
    ensures Linked(p)
  {
  }

  lemma DropValid(p: Pool, expire: int, limits: Limits, known: set<Tx>)
    requires PoolOk(p, limits, known)
    ensures Linked(p) && PoolOk(DropExpired(p, expire).0, limits, known)
    ensures forall n :: n in DropExpired(p, expire).0.times <==> n in p.times && n.tx.time >= expire
  {
    hide Linked, DropExpired, TimeOrdered, WithinLimits;
    DropExpiredOk(p, expire, limits);
  }

  lemma RemoveFacts(p: Pool, a: Address, k: Nonce)
    requires Linked(p)
    ensures Linked(Remove(p, a, k)) && |Remove(p, a, k).queue| == |p.queue| - (if Has(p, a, k) then 1 else 0)
    ensures Has(p, a, k) ==> Find(p.queue, SlotOf(p, a, k).left) < |p.queue|
  {
    RemoveLinked(p, a, k);
    RemoveQueue(p, a, k);
    if Has(p, a, k) { VictimIs(p, a, k); }
  }

  lemma QueuedHas(p: Pool, n: Node)
    requires Linked(p) && n in p.queue
    ensures HasTx(p, n.tx)
  {
  }

  lemma TimedHas(p: Pool, n: Node)
    requires Linked(p) && n in p.times
    ensures HasTx(p, n.tx)
  {
  }

  lemma MentionsMore(txs: seq<Tx>, t: Tx, hash: string)
    ensures Mentions(txs + [t], hash) <==> Mentions(txs, hash) || t.hash == hash
  {
    if Mentions(txs, hash) {
      var k :| 0 <= k < |txs| && txs[k].hash == hash;
      assert (txs + [t])[k].hash == hash;
    }
    if t.hash == hash { assert (txs + [t])[|txs|].hash == hash; }
  }

  lemma AddedLinked(p: Pool, tx: Tx, nonce: int, at: nat)
    requires Linked(p) && HashFaithful(p, tx)
    ensures Linked(Added(p, tx, nonce, at))
  {
    hide Linked, Insert, Cleared;
    ClearedOk(p, tx, nonce);
    var p1 := Cleared(p, tx, nonce);
    InsertLinked(p1, tx, Clip(at, |p1.queue|));
  }
}
