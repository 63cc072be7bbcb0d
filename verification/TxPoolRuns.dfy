/** Runs of the transaction pool: any sequence of imports, removals and timeouts. */
module TxPoolRuns {
  import opened TxPool

  // ---- The time queue stays in order, so expiry finds exactly the old transactions ----

  predicate TimeOrdered(q: seq<Node>)
  {
    forall i, j :: 0 <= i < j < |q| ==> q[i].tx.time <= q[j].tx.time
  }

  lemma {:induction false} TimePlaceSplits(q: seq<Node>, time: int)
    requires TimeOrdered(q)
    ensures var k := TimePlace(q, time);
            (forall i :: 0 <= i < k ==> q[i].tx.time <= time) && (forall i :: k <= i < |q| ==> time < q[i].tx.time)
  {
    if q != [] && time >= q[0].tx.time {
      TimePlaceSplits(q[1..], time);
      var k := TimePlace(q[1..], time);
      forall i | 0 < i < k + 1
        ensures q[i].tx.time <= time
      {
        assert q[i] == q[1..][i - 1];
      }
      forall i | k + 1 <= i < |q|
        ensures time < q[i].tx.time
      {
        assert q[i] == q[1..][i - 1];
      }
    }
  }

  lemma InsertOrdered(p: Pool, tx: Tx, at: nat)
    requires at <= |p.queue| && TimeOrdered(p.times)
    ensures TimeOrdered(Insert(p, tx, at).times)
  {
    TimePlaceSplits(p.times, tx.time);
    hide TimePlace;
  }

  lemma EraseOrdered(q: seq<Node>, id: nat)
    requires TimeOrdered(q)
    ensures TimeOrdered(Erase(q, id))
  {
    var k := Find(q, id);
    var r := Erase(q, id);
    if k < |q| {
      forall i, j | 0 <= i < j < |r|
        ensures r[i].tx.time <= r[j].tx.time
      {
        assert r[i] == q[if i < k then i else i + 1] && r[j] == q[if j < k then j else j + 1];
      }
    }
  }

  lemma RemoveOrdered(p: Pool, a: Address, k: Nonce)
    requires TimeOrdered(p.times)
    ensures TimeOrdered(Remove(p, a, k).times)
  {
    if Has(p, a, k) {
      EraseOrdered(p.times, SlotOf(p, a, k).right);
      hide TimeOrdered, Erase, Find;
    }
  }

  lemma {:induction false} TrimOrdered(p: Pool, limit: nat)
    requires Linked(p) && TimeOrdered(p.times)
    ensures TimeOrdered(Trim(p, limit).0.times)
    decreases |p.queue|
  {
    if |p.queue| > limit {
      var last := p.queue[|p.queue| - 1];
      RemoveLinked(p, last.tx.source, Nonce(last.tx.nonce));
      RemoveQueue(p, last.tx.source, Nonce(last.tx.nonce));
      RemoveOrdered(p, last.tx.source, Nonce(last.tx.nonce));
      assert last in p.queue && HasTx(p, last.tx);
      hide Remove, Linked, TimeOrdered;
      TrimOrdered(Remove(p, last.tx.source, Nonce(last.tx.nonce)), limit);
    }
  }

  lemma ImportOrdered(p: Pool, limits: Limits, tx: Tx, nonce: int, at: nat)
    requires Linked(p) && HashFaithful(p, tx) && TimeOrdered(p.times)
    ensures TimeOrdered(Import(p, limits, tx, nonce, at).0.times)
  {
    var p1 := Cleared(p, tx, nonce);
    RemoveOrdered(SetNonce(p, tx.source, nonce), tx.source, Nonce(tx.nonce));
    assert TimeOrdered(p1.times);
    ClearedOk(p, tx, nonce);
    var k := Clip(at, |p1.queue|);
    hide Linked, TimeOrdered, Insert, Remove, Trim, Cleared, Victim, Find;
    InsertLinked(p1, tx, k);
    InsertOrdered(p1, tx, k);
    TrimOrdered(Insert(p1, tx, k), limits.queue);
  }

  // ---- Expiry ----

  /** `CheckTimeoutAndDel`: remove from the front of the time queue while it is too old. */
  function DropExpired(p: Pool, expire: int): (Pool, seq<Tx>)
    requires Linked(p)
    decreases |p.times|
  {
    if p.times == [] || p.times[0].tx.time >= expire then (p, [])
    else
      var tx := p.times[0].tx;
      assert p.times[0] in p.times;
      RemoveLinked(p, tx.source, Nonce(tx.nonce));
      RemoveQueue(p, tx.source, Nonce(tx.nonce));
      var (r, dropped) := DropExpired(Remove(p, tx.source, Nonce(tx.nonce)), expire);
      (r, [tx] + dropped)
  }

  predicate SameIndexed(p: Pool, n: Node, m: Node)
  {
    n in p.queue && m in p.times && SameKey(n.tx, m.tx)
  }

  /** The two queues agree on the transaction of an account and nonce. */
  lemma QueuesAgree(p: Pool, n: Node, m: Node)
    requires Linked(p) && SameIndexed(p, n, m)
    ensures n.tx == m.tx
  {
    var a, k := n.tx.source, Nonce(n.tx.nonce);
    assert Filled(p, a, k);
    var tx :| Node(SlotOf(p, a, k).left, tx) in p.queue && Node(SlotOf(p, a, k).right, tx) in p.times;
    FindMember(p.queue, n);
    FindMember(p.queue, Node(SlotOf(p, a, k).left, tx));
    FindMember(p.times, m);
    FindMember(p.times, Node(SlotOf(p, a, k).right, tx));
  }

  /** Exactly the transactions older than `expire` go, oldest first; the rest stay. */
  lemma {:induction false} DropExpiredOk(p: Pool, expire: int, limits: Limits)
    requires Linked(p) && TimeOrdered(p.times) && WithinLimits(p, limits)
    ensures var (r, dropped) := DropExpired(p, expire);
            && Linked(r) && TimeOrdered(r.times) && WithinLimits(r, limits)
            && (forall n :: n in r.times <==> n in p.times && n.tx.time >= expire)
            && (forall t :: t in dropped <==> t.time < expire && Timed(p, t))
    ensures forall n :: n in DropExpired(p, expire).0.queue ==> n in p.queue
    decreases |p.times|
  {
    if p.times == [] {
    } else if p.times[0].tx.time >= expire {
      assert forall n :: n in p.times ==> n.tx.time >= expire;
    } else {
      var first := p.times[0];
      var a, k := first.tx.source, Nonce(first.tx.nonce);
      assert first in p.times && HasTx(p, first.tx);
      var q := Remove(p, a, k);
      RemoveLinked(p, a, k);
      RemoveQueue(p, a, k);
      RemoveOrdered(p, a, k);
      RemoveWithin(p, a, k, limits);
      forall n | n in p.times && SameKey(n.tx, first.tx)
        ensures n == first
      {
        FindMember(p.times, n);
        FindMember(p.times, first);
      }
      hide Remove, Linked, TimeOrdered;
      DropExpiredOk(q, expire, limits);
      var (r, rest) := DropExpired(q, expire);
      assert DropExpired(p, expire) == (r, [first.tx] + rest);
      assert forall n :: n in p.times <==> n == first || n in q.times;
      forall t
        ensures t in [first.tx] + rest <==> t.time < expire && Timed(p, t)
      {
        TimedSplit(p, q, first, t);
      }
    }
  }

  predicate Timed(p: Pool, tx: Tx)
  {
    exists n :: n in p.times && n.tx == tx
  }

  lemma TimedSplit(p: Pool, q: Pool, first: Node, t: Tx)
    requires forall n :: n in p.times <==> n == first || n in q.times
    ensures Timed(p, t) <==> t == first.tx || Timed(q, t)
  {
    if Timed(q, t) {
      var n :| n in q.times && n.tx == t;
      assert n in p.times;
    }
    if t == first.tx { assert first in p.times; }
  }

  // ---- All four indexes hold the same transactions ----

  lemma IndexesAgree(p: Pool, tx: Tx)
    requires Linked(p)
    ensures Queued(p, tx) <==> Timed(p, tx)
    ensures Queued(p, tx) <==> tx.hash in p.byHash && p.byHash[tx.hash] == tx
    ensures Queued(p, tx) ==> HasTx(p, tx)
    ensures HasTx(p, tx) ==> exists t :: SameKey(t, tx) && Queued(p, t)
  {
    if Queued(p, tx) {
      var n :| n in p.queue && n.tx == tx;
      VictimIs(p, tx.source, Nonce(tx.nonce));
      var v := Victim(p, tx.source, Nonce(tx.nonce));
      SameNode(p, n, Node(SlotOf(p, tx.source, Nonce(tx.nonce)).left, v));
    }
    if Timed(p, tx) {
      var n :| n in p.times && n.tx == tx;
      VictimIs(p, tx.source, Nonce(tx.nonce));
      var v := Victim(p, tx.source, Nonce(tx.nonce));
      QueuesAgree(p, Node(SlotOf(p, tx.source, Nonce(tx.nonce)).left, v), n);
      assert Queued(p, v);
    }
    if HasTx(p, tx) {
      VictimIs(p, tx.source, Nonce(tx.nonce));
      var v := Victim(p, tx.source, Nonce(tx.nonce));
      assert Node(SlotOf(p, tx.source, Nonce(tx.nonce)).left, v) in p.queue;
      assert SameKey(v, tx) && Queued(p, v);
    }
  }

  lemma OnePerAccountAndNonce(p: Pool, i: nat, j: nat)
    requires Linked(p) && i < j < |p.queue|
    ensures !SameKey(p.queue[i].tx, p.queue[j].tx)
  {
    if SameKey(p.queue[i].tx, p.queue[j].tx) {
      SameNode(p, p.queue[i], p.queue[j]);
    }
  }

  // ---- Runs ----

  datatype Ref = Ref(source: Address, nonce: int)

  /** A closed ledger moves the account's nonce forward. */
  function Settle(p: Pool, r: Ref, close: bool): Pool
  {
    if close && r.source in p.nonces && p.nonces[r.source] < r.nonce then SetNonce(p, r.source, r.nonce) else p
  }

  function RemoveEach(p: Pool, refs: seq<Ref>, close: bool): Pool
  {
    if refs == [] then p
    else
      var r := refs[|refs| - 1];
      Settle(Remove(RemoveEach(p, refs[..|refs| - 1], close), r.source, Nonce(r.nonce)), r, close)
  }

  ghost predicate PoolOk(p: Pool, limits: Limits, known: set<Tx>)
  {
    Linked(p) && WithinLimits(p, limits) && TimeOrdered(p.times) && forall n :: n in p.queue ==> n.tx in known
  }

  /** Among the transactions that reach the pool, equal hashes mean the same account and nonce. */
  predicate Faithful(known: set<Tx>)
  {
    forall t, u :: t in known && u in known && t.hash == u.hash ==> SameKey(t, u)
  }

  lemma RemoveOneOk(p: Pool, r: Ref, close: bool, limits: Limits, known: set<Tx>)
    requires PoolOk(p, limits, known)
    ensures var q := Settle(Remove(p, r.source, Nonce(r.nonce)), r, close);
            && PoolOk(q, limits, known)
            && forall n :: n in q.queue <==> n in p.queue && !(n.tx.source == r.source && n.tx.nonce == r.nonce)
  {
    var k := Nonce(r.nonce);
    var q := Remove(p, r.source, k);
    RemoveLinked(p, r.source, k);
    RemoveQueue(p, r.source, k);
    RemoveOrdered(p, r.source, k);
    RemoveWithin(p, r.source, k, limits);
    assert |q.queue| <= |p.queue| by { if !Has(p, r.source, k) { assert q == p; } }
    SetNonceLinked(q, r.source, r.nonce);
    hide Linked, Remove, TimeOrdered;
  }

  lemma {:induction false} RemoveEachOk(p: Pool, refs: seq<Ref>, close: bool, limits: Limits, known: set<Tx>)
    requires PoolOk(p, limits, known)
    ensures PoolOk(RemoveEach(p, refs, close), limits, known)
    ensures forall n :: n in RemoveEach(p, refs, close).queue <==> n in p.queue && Ref(n.tx.source, n.tx.nonce) !in refs
  {
    hide PoolOk, Settle, Remove;
    if refs != [] {
      var r := refs[|refs| - 1];
      RemoveEachOk(p, refs[..|refs| - 1], close, limits, known);
      RemoveOneOk(RemoveEach(p, refs[..|refs| - 1], close), r, close, limits, known);
      assert refs == refs[..|refs| - 1] + [r];
    }
  }

  datatype Event =
    | Imported(tx: Tx, nonce: int, at: nat)
    | Removed(refs: seq<Ref>, close: bool)
    | Expired(before: int)

  function Step(p: Pool, limits: Limits, ev: Event): Pool
    requires Linked(p) && (ev.Imported? ==> HashFaithful(p, ev.tx))
  {
    match ev
    case Imported(tx, nonce, at) => Import(p, limits, tx, nonce, at).0
    case Removed(refs, close) => RemoveEach(p, refs, close)
    case Expired(before) => DropExpired(p, before).0
  }

  lemma KnownFaithful(p: Pool, limits: Limits, known: set<Tx>, tx: Tx)
    requires PoolOk(p, limits, known) && Faithful(known) && tx in known
    ensures HashFaithful(p, tx)
  {
    hide Linked;
    forall n | n in p.queue && n.tx.hash == tx.hash
      ensures SameKey(n.tx, tx)
    {
    }
  }

  lemma StepOk(p: Pool, limits: Limits, known: set<Tx>, ev: Event)
    requires PoolOk(p, limits, known) && Faithful(known) && (ev.Imported? ==> ev.tx in known)
    ensures (ev.Imported? ==> HashFaithful(p, ev.tx)) && PoolOk(Step(p, limits, ev), limits, known)
  {
    match ev
    case Imported(tx, nonce, at) =>
      KnownFaithful(p, limits, known, tx);
      hide Import, Linked, TimeOrdered, WithinLimits, HashFaithful;
      ImportOk(p, limits, tx, nonce, at);
      ImportOrdered(p, limits, tx, nonce, at);
    case Removed(refs, close) =>
      RemoveEachOk(p, refs, close, limits, known);
    case Expired(before) =>
      hide DropExpired, Linked, TimeOrdered, WithinLimits;
      DropExpiredOk(p, before, limits);
  }

  const EMPTY := Pool([], [], map[], map[], map[], 0)

  /** A run from the empty pool. A step is defined on a pool whose indexes agree, which
      `AlwaysAgree` shows of every state. */
  ghost predicate IsRun(limits: Limits, known: set<Tx>, run: seq<Pool>, evs: seq<Event>)
  {
    && |run| == |evs| + 1 && run[0] == EMPTY && Faithful(known)
    && (forall t :: 0 <= t < |evs| && evs[t].Imported? ==> evs[t].tx in known)
    && (forall t :: 0 <= t < |evs| && Linked(run[t]) && (evs[t].Imported? ==> HashFaithful(run[t], evs[t].tx)) ==>
          run[t + 1] == Step(run[t], limits, evs[t]))
  }

  /** After any sequence of imports, removals and timeouts the four indexes agree, the time
      queue is in order and both limits hold. */
  lemma {:induction false} AlwaysAgree(limits: Limits, known: set<Tx>, run: seq<Pool>, evs: seq<Event>, t: nat)
    requires IsRun(limits, known, run, evs) && t < |run|
    ensures PoolOk(run[t], limits, known)
  {
    if t > 0 {
      hide Step, Linked, HashFaithful;
      AlwaysAgree(limits, known, run, evs, t - 1);
      StepOk(run[t - 1], limits, known, evs[t - 1]);
      assert run[t - 1 + 1] == Step(run[t - 1], limits, evs[t - 1]);
    }
  }
}
