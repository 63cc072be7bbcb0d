/** The transaction pool: a priority queue, a time queue, an index by account and nonce and an
    index by hash over one set of transactions. The priority queue's comparator reads account
    nonces that change while transactions are queued, so nothing is assumed about the order of
    `queue`: an insertion takes any position. */
module TxPool {

  type Address = string

  datatype Tx = Tx(source: Address, nonce: int, gasPrice: int, hash: string, time: int, size: nat)

  /** A container node. Its id stands for the iterator that reaches it. */
  datatype Node = Node(id: nat, tx: Tx)

  /** The two iterators kept for a transaction. */
  datatype Slot = Slot(left: nat, right: nat)

  datatype Nonce = Nonce(value: int)

  datatype Pool = Pool(
    queue: seq<Node>,
    times: seq<Node>,
    byAccount: map<Address, map<Nonce, Slot>>,
    byHash: map<string, Tx>,
    nonces: map<Address, int>,
    next: nat)

  datatype Limits = Limits(queue: nat, account: nat)

  // ---- Nodes ----

  predicate Distinct(q: seq<Node>)
  {
    forall i, j :: 0 <= i < j < |q| ==> q[i].id != q[j].id
  }

  function Find(q: seq<Node>, id: nat): (k: nat)
    ensures k <= |q|
    ensures k < |q| ==> q[k].id == id
    ensures forall i :: 0 <= i < k ==> q[i].id != id
  {
    if q == [] || q[0].id == id then 0 else 1 + Find(q[1..], id)
  }

  function Erase(q: seq<Node>, id: nat): seq<Node>
  {
    var k := Find(q, id);
    if k == |q| then q else q[..k] + q[k + 1..]
  }

  function Emplace(q: seq<Node>, k: nat, n: Node): seq<Node>
    requires k <= |q|
  {
    q[..k] + [n] + q[k..]
  }

  lemma DropMembers(q: seq<Node>, k: nat)
    requires Distinct(q) && k < |q|
    ensures forall n :: n in q[..k] + q[k + 1..] <==> n in q && n.id != q[k].id
  {
    forall n
      ensures n in q[..k] + q[k + 1..] <==> n in q && n.id != q[k].id
    {
      if n in q && n.id != q[k].id {
        var i :| 0 <= i < |q| && q[i] == n;
        assert (q[..k] + q[k + 1..])[if i < k then i else i - 1] == n;
      }
    }
  }

  lemma DropDistinct(q: seq<Node>, k: nat)
    requires Distinct(q) && k < |q|
    ensures Distinct(q[..k] + q[k + 1..])
  {
    var r := q[..k] + q[k + 1..];
    forall i, j | 0 <= i < j < |r|
      ensures r[i].id != r[j].id
    {
      assert r[i] == q[if i < k then i else i + 1] && r[j] == q[if j < k then j else j + 1];
    }
  }

  lemma EraseMembers(q: seq<Node>, id: nat)
    requires Distinct(q)
    ensures Distinct(Erase(q, id))
    ensures forall n :: n in Erase(q, id) <==> n in q && n.id != id
    ensures |Erase(q, id)| == |q| - (if Find(q, id) < |q| then 1 else 0)
  {
    var k := Find(q, id);
    if k < |q| {
      DropMembers(q, k);
      DropDistinct(q, k);
    }
    hide Distinct;
  }

  lemma EmplaceMembers(q: seq<Node>, k: nat, n: Node)
    requires k <= |q| && Distinct(q) && forall m :: m in q ==> m.id != n.id
    ensures Distinct(Emplace(q, k, n))
    ensures forall m :: m in Emplace(q, k, n) <==> m in q || m == n
  {
    var r := Emplace(q, k, n);
    forall i, j | 0 <= i < j < |r|
      ensures r[i].id != r[j].id
    {
      var x := if i < k then q[i] else if i == k then n else q[i - 1];
      var y := if j < k then q[j] else if j == k then n else q[j - 1];
      assert r[i] == x && r[j] == y;
    }
    assert q == q[..k] + q[k..];
    forall m
      ensures m in r <==> m in q || m == n
    {
      assert m in r <==> m in q[..k] || m == n || m in q[k..];
      assert m in q <==> m in q[..k] || m in q[k..];
    }
  }

  lemma FindMember(q: seq<Node>, n: Node)
    requires Distinct(q) && n in q
    ensures Find(q, n.id) < |q| && q[Find(q, n.id)] == n
  {
    var k :| 0 <= k < |q| && q[k] == n;
  }

  // ---- Agreement of the four indexes ----

  predicate Has(p: Pool, a: Address, k: Nonce)
  {
    a in p.byAccount && k in p.byAccount[a]
  }

  predicate HasTx(p: Pool, tx: Tx)
  {
    Has(p, tx.source, Nonce(tx.nonce))
  }

  function SlotOf(p: Pool, a: Address, k: Nonce): Slot
    requires Has(p, a, k)
  {
    p.byAccount[a][k]
  }

  /** The iterators of a slot reach one transaction, the slot's own. */
  ghost predicate Filled(p: Pool, a: Address, k: Nonce)
    requires Has(p, a, k)
  {
    exists tx :: Node(SlotOf(p, a, k).left, tx) in p.queue && Node(SlotOf(p, a, k).right, tx) in p.times
                 && tx.source == a && tx.nonce == k.value
  }

  predicate QueueLinked(p: Pool)
  {
    && Distinct(p.queue)
    && forall n :: n in p.queue ==>
         n.id < p.next && HasTx(p, n.tx) && SlotOf(p, n.tx.source, Nonce(n.tx.nonce)).left == n.id
  }

  predicate TimesLinked(p: Pool)
  {
    && Distinct(p.times)
    && forall n :: n in p.times ==>
         n.id < p.next && HasTx(p, n.tx) && SlotOf(p, n.tx.source, Nonce(n.tx.nonce)).right == n.id
  }

  ghost predicate SlotsFilled(p: Pool)
  {
    forall a, k :: Has(p, a, k) ==> Filled(p, a, k)
  }

  predicate Queued(p: Pool, tx: Tx)
  {
    exists n :: n in p.queue && n.tx == tx
  }

  predicate HashLinked(p: Pool)
  {
    && (forall n :: n in p.queue ==> n.tx.hash in p.byHash && p.byHash[n.tx.hash] == n.tx)
    && (forall h :: h in p.byHash ==> p.byHash[h].hash == h && Queued(p, p.byHash[h]))
  }

  predicate AccountsOk(p: Pool)
  {
    && (forall a :: a in p.byAccount ==> a in p.nonces && p.byAccount[a] != map[])
  }

  ghost predicate Linked(p: Pool)
  {
    QueueLinked(p) && TimesLinked(p) && SlotsFilled(p) && HashLinked(p) && AccountsOk(p)
  }

  predicate WithinLimits(p: Pool, limits: Limits)
  {
    |p.queue| <= limits.queue && forall a :: a in p.byAccount ==> |p.byAccount[a]| <= limits.account
  }

  // ---- Operations ----

  function WithoutNonce(p: Pool, a: Address, k: Nonce): map<Address, map<Nonce, Slot>>
    requires Has(p, a, k)
  {
    if p.byAccount[a] - {k} == map[] then p.byAccount - {a} else p.byAccount[a := p.byAccount[a] - {k}]
  }

  /** Remove the transaction of an account with a nonce, through its iterators. */
  function Remove(p: Pool, a: Address, k: Nonce): Pool
  {
    if !Has(p, a, k) then p
    else
      var s := SlotOf(p, a, k);
      var i := Find(p.queue, s.left);
      Pool(Erase(p.queue, s.left), Erase(p.times, s.right), WithoutNonce(p, a, k),
           if i < |p.queue| then p.byHash - {p.queue[i].tx.hash} else p.byHash,
           if p.byAccount[a] - {k} == map[] then p.nonces - {a} else p.nonces, p.next)
  }

  /** Where `std::multiset::emplace` puts a transaction among those of the time queue: after
      all that did not come later. */
  function TimePlace(q: seq<Node>, time: int): (k: nat)
    ensures k <= |q|
  {
    if q == [] || time < q[0].tx.time then 0 else 1 + TimePlace(q[1..], time)
  }

  function AccountSlots(p: Pool, a: Address): map<Nonce, Slot>
  {
    if a in p.byAccount then p.byAccount[a] else map[]
  }

  function Insert(p: Pool, tx: Tx, at: nat): Pool
    requires at <= |p.queue|
  {
    var slots := AccountSlots(p, tx.source)[Nonce(tx.nonce) := Slot(p.next, p.next + 1)];
    Pool(Emplace(p.queue, at, Node(p.next, tx)), Emplace(p.times, TimePlace(p.times, tx.time), Node(p.next + 1, tx)),
         p.byAccount[tx.source := slots], p.byHash[tx.hash := tx], p.nonces, p.next + 2)
  }

  // ---- Removal ----

  lemma RemoveHas(p: Pool, a: Address, k: Nonce, b: Address, j: Nonce)
    ensures Has(Remove(p, a, k), b, j) <==> Has(p, b, j) && (b, j) != (a, k)
    ensures Has(p, b, j) && (b, j) != (a, k) ==> SlotOf(Remove(p, a, k), b, j) == SlotOf(p, b, j)
  {
    hide Erase, Find;
    if Has(p, a, k) && p.byAccount[a] - {k} == map[] && b == a && Has(p, b, j) {
      assert j !in p.byAccount[a] - {k};
    }
  }

  /** The transaction a removal takes out. */
  function Victim(p: Pool, a: Address, k: Nonce): Tx
    requires Has(p, a, k) && Find(p.queue, SlotOf(p, a, k).left) < |p.queue|
  {
    p.queue[Find(p.queue, SlotOf(p, a, k).left)].tx
  }

  lemma VictimIs(p: Pool, a: Address, k: Nonce)
    requires QueueLinked(p) && TimesLinked(p) && SlotsFilled(p) && Has(p, a, k)
    ensures var s := SlotOf(p, a, k);
            && Find(p.queue, s.left) < |p.queue| && Find(p.times, s.right) < |p.times|
            && Node(s.left, Victim(p, a, k)) in p.queue && Node(s.right, Victim(p, a, k)) in p.times
            && Victim(p, a, k).source == a && Victim(p, a, k).nonce == k.value
  {
    assert Filled(p, a, k);
    var s := SlotOf(p, a, k);
    var tx :| Node(s.left, tx) in p.queue && Node(s.right, tx) in p.times && tx.source == a && tx.nonce == k.value;
    FindMember(p.queue, Node(s.left, tx));
    FindMember(p.times, Node(s.right, tx));
  }

  lemma RemoveQueue(p: Pool, a: Address, k: Nonce)
    requires Linked(p)
    ensures QueueLinked(Remove(p, a, k)) && TimesLinked(Remove(p, a, k))
    ensures Has(p, a, k) ==> |Remove(p, a, k).queue| == |p.queue| - 1 && |Remove(p, a, k).times| == |p.times| - 1
    ensures forall n :: n in Remove(p, a, k).queue <==> n in p.queue && !(n.tx.source == a && n.tx.nonce == k.value)
    ensures forall n :: n in Remove(p, a, k).times <==> n in p.times && !(n.tx.source == a && n.tx.nonce == k.value)
  {
    if Has(p, a, k) {
      var s := SlotOf(p, a, k);
      VictimIs(p, a, k);
      EraseMembers(p.queue, s.left);
      EraseMembers(p.times, s.right);
      hide Erase, Find, Distinct, HashLinked, AccountsOk;
      forall n | n in p.queue
        ensures n.id == s.left <==> n.tx.source == a && n.tx.nonce == k.value
      {
        assert Nonce(n.tx.nonce) == k <==> n.tx.nonce == k.value;
      }
      forall n | n in p.times
        ensures n.id == s.right <==> n.tx.source == a && n.tx.nonce == k.value
      {
        assert Nonce(n.tx.nonce) == k <==> n.tx.nonce == k.value;
      }
      forall b, j { RemoveHas(p, a, k, b, j); }
    }
  }

  lemma RemoveFilled(p: Pool, a: Address, k: Nonce, b: Address, j: Nonce)
    requires Linked(p) && Has(Remove(p, a, k), b, j)
    ensures Filled(Remove(p, a, k), b, j)
  {
    var r := Remove(p, a, k);
    RemoveQueue(p, a, k);
    RemoveHas(p, a, k, b, j);
    VictimIs(p, b, j);
    var tx := Victim(p, b, j);
    assert Nonce(tx.nonce) == j;
    hide Find, Victim, Remove, Linked;
    assert Node(SlotOf(r, b, j).left, tx) in r.queue && Node(SlotOf(r, b, j).right, tx) in r.times;
  }

  lemma RemoveSlots(p: Pool, a: Address, k: Nonce)
    requires Linked(p)
    ensures SlotsFilled(Remove(p, a, k)) && AccountsOk(Remove(p, a, k))
  {
    hide Filled, Erase, Find, QueueLinked, TimesLinked, HashLinked;
    forall b, j | Has(Remove(p, a, k), b, j)
      ensures Filled(Remove(p, a, k), b, j)
    {
      RemoveFilled(p, a, k, b, j);
    }
  }

  /** Only one queued transaction has the hash of the one removed. */
  lemma VictimHash(p: Pool, a: Address, k: Nonce, n: Node)
    requires Linked(p) && Has(p, a, k) && n in p.queue
    ensures Find(p.queue, SlotOf(p, a, k).left) < |p.queue|
    ensures n.tx.hash == Victim(p, a, k).hash <==> n.tx.source == a && n.tx.nonce == k.value
  {
    VictimIs(p, a, k);
    var v := Node(SlotOf(p, a, k).left, Victim(p, a, k));
    assert v in p.queue && p.byHash[n.tx.hash] == n.tx && p.byHash[v.tx.hash] == v.tx;
    if n.tx.source == a && n.tx.nonce == k.value {
      SameNode(p, n, v);
    }
  }

  lemma RemoveByHash(p: Pool, a: Address, k: Nonce)
    requires Linked(p) && Has(p, a, k)
    ensures Find(p.queue, SlotOf(p, a, k).left) < |p.queue|
    ensures Remove(p, a, k).byHash == p.byHash - {Victim(p, a, k).hash}
  {
    VictimIs(p, a, k);
    hide Erase, Linked, WithoutNonce;
  }

  lemma RemoveHashEntry(p: Pool, a: Address, k: Nonce, h: string)
    requires Linked(p) && Has(p, a, k) && h in Remove(p, a, k).byHash
    ensures Remove(p, a, k).byHash[h].hash == h && Queued(Remove(p, a, k), Remove(p, a, k).byHash[h])
  {
    var r := Remove(p, a, k);
    RemoveByHash(p, a, k);
    RemoveQueue(p, a, k);
    assert Queued(p, p.byHash[h]);
    var n :| n in p.queue && n.tx == p.byHash[h];
    VictimHash(p, a, k, n);
    hide Find, Victim, Remove, TimesLinked, SlotsFilled, AccountsOk, QueueLinked;
    assert n in r.queue;
  }

  lemma RemoveHashNode(p: Pool, a: Address, k: Nonce, n: Node)
    requires Linked(p) && Has(p, a, k) && n in Remove(p, a, k).queue
    ensures n.tx.hash in Remove(p, a, k).byHash && Remove(p, a, k).byHash[n.tx.hash] == n.tx
  {
    RemoveByHash(p, a, k);
    RemoveQueue(p, a, k);
    VictimHash(p, a, k, n);
    hide Find, Victim, Remove, TimesLinked, SlotsFilled, AccountsOk, QueueLinked;
  }

  lemma RemoveHash(p: Pool, a: Address, k: Nonce)
    requires Linked(p)
    ensures HashLinked(Remove(p, a, k))
  {
    hide Remove, Queued, Linked, Has;
    if Has(p, a, k) {
      var r := Remove(p, a, k);
      forall h | h in r.byHash
        ensures r.byHash[h].hash == h && Queued(r, r.byHash[h])
      {
        RemoveHashEntry(p, a, k, h);
      }
      forall n | n in r.queue
        ensures n.tx.hash in r.byHash && r.byHash[n.tx.hash] == n.tx
      {
        RemoveHashNode(p, a, k, n);
      }
    } else {
      RemoveNothing(p, a, k);
    }
  }

  lemma RemoveNothing(p: Pool, a: Address, k: Nonce)
    requires Linked(p) && !Has(p, a, k)
    ensures Remove(p, a, k) == p && HashLinked(p)
  {
  }

  lemma SameNode(p: Pool, n: Node, m: Node)
    requires QueueLinked(p) && n in p.queue && m in p.queue && n.tx.source == m.tx.source && n.tx.nonce == m.tx.nonce
    ensures n == m
  {
    FindMember(p.queue, n);
    FindMember(p.queue, m);
  }

  /** Removal keeps the indexes in agreement and takes out just the transaction asked for. */
  lemma RemoveLinked(p: Pool, a: Address, k: Nonce)
    requires Linked(p)
    ensures Linked(Remove(p, a, k))
  {
    RemoveQueue(p, a, k);
    RemoveSlots(p, a, k);
    RemoveHash(p, a, k);
  }

  lemma RemoveWithin(p: Pool, a: Address, k: Nonce, limits: Limits)
    requires Linked(p) && forall b :: b in p.byAccount ==> |p.byAccount[b]| <= limits.account
    ensures forall b :: b in Remove(p, a, k).byAccount ==> |Remove(p, a, k).byAccount[b]| <= limits.account
  {
    if Has(p, a, k) {
      assert (p.byAccount[a] - {k}).Keys == p.byAccount[a].Keys - {k};
      hide Erase, Find, Linked;
    }
  }

  // ---- Insertion ----

  /** Equal hashes mean the same account and nonce. */
  predicate HashFaithful(p: Pool, tx: Tx)
  {
    forall n :: n in p.queue && n.tx.hash == tx.hash ==> n.tx.source == tx.source && n.tx.nonce == tx.nonce
  }

  lemma InsertHas(p: Pool, tx: Tx, at: nat, b: Address, j: Nonce)
    requires at <= |p.queue|
    ensures Has(Insert(p, tx, at), b, j) <==> Has(p, b, j) || (b, j) == (tx.source, Nonce(tx.nonce))
    ensures Has(p, b, j) && (b, j) != (tx.source, Nonce(tx.nonce)) ==> SlotOf(Insert(p, tx, at), b, j) == SlotOf(p, b, j)
    ensures SlotOf(Insert(p, tx, at), tx.source, Nonce(tx.nonce)) == Slot(p.next, p.next + 1)
  {
    hide Emplace, TimePlace;
  }

  lemma InsertMembers(p: Pool, tx: Tx, at: nat)
    requires Linked(p) && at <= |p.queue|
    ensures var r := Insert(p, tx, at);
            && Distinct(r.queue) && Distinct(r.times)
            && (forall n :: n in r.queue <==> n in p.queue || n == Node(p.next, tx))
            && (forall n :: n in r.times <==> n in p.times || n == Node(p.next + 1, tx))
            && |r.queue| == |p.queue| + 1
  {
    EmplaceMembers(p.queue, at, Node(p.next, tx));
    EmplaceMembers(p.times, TimePlace(p.times, tx.time), Node(p.next + 1, tx));
  }

  lemma InsertFields(p: Pool, tx: Tx, at: nat)
    requires at <= |p.queue|
    ensures var r := Insert(p, tx, at);
            r.next == p.next + 2 && r.byHash == p.byHash[tx.hash := tx] && r.nonces == p.nonces
  {
    hide Emplace, TimePlace;
  }

  lemma InsertQueue(p: Pool, tx: Tx, at: nat)
    requires Linked(p) && at <= |p.queue| && !HasTx(p, tx)
    ensures QueueLinked(Insert(p, tx, at)) && TimesLinked(Insert(p, tx, at))
  {
    var r := Insert(p, tx, at);
    InsertMembers(p, tx, at);
    InsertFields(p, tx, at);
    forall b, j { InsertHas(p, tx, at, b, j); }
    hide Insert, Distinct, SlotsFilled, HashLinked, AccountsOk;
    assert QueueLinked(r) by {
      forall n | n in r.queue
        ensures n.id < r.next && HasTx(r, n.tx) && SlotOf(r, n.tx.source, Nonce(n.tx.nonce)).left == n.id
      {
      }
    }
    forall n | n in r.times
      ensures n.id < r.next && HasTx(r, n.tx) && SlotOf(r, n.tx.source, Nonce(n.tx.nonce)).right == n.id
    {
    }
  }

  lemma InsertFilled(p: Pool, tx: Tx, at: nat, b: Address, j: Nonce)
    requires Linked(p) && at <= |p.queue| && !HasTx(p, tx) && Has(Insert(p, tx, at), b, j)
    ensures Filled(Insert(p, tx, at), b, j)
  {
    var r := Insert(p, tx, at);
    InsertMembers(p, tx, at);
    InsertHas(p, tx, at, b, j);
    var s := SlotOf(r, b, j);
    if Has(p, b, j) {
      VictimIs(p, b, j);
      var queued := Victim(p, b, j);
      hide Insert, Linked, Find, Victim;
      assert Node(s.left, queued) in r.queue && Node(s.right, queued) in r.times;
    } else {
      hide Insert, Linked;
      assert Node(s.left, tx) in r.queue && Node(s.right, tx) in r.times;
    }
  }

  lemma InsertHashEntry(p: Pool, tx: Tx, at: nat, h: string)
    requires Linked(p) && at <= |p.queue| && h in Insert(p, tx, at).byHash
    ensures Insert(p, tx, at).byHash[h].hash == h && Queued(Insert(p, tx, at), Insert(p, tx, at).byHash[h])
  {
    var r := Insert(p, tx, at);
    InsertMembers(p, tx, at);
    InsertFields(p, tx, at);
    hide Insert, Distinct, SlotsFilled, TimesLinked, AccountsOk;
    if h == tx.hash {
      assert Node(p.next, tx) in r.queue;
    } else {
      assert Queued(p, p.byHash[h]);
      var n :| n in p.queue && n.tx == p.byHash[h];
      assert n in r.queue;
    }
  }

  lemma InsertHashNode(p: Pool, tx: Tx, at: nat, n: Node)
    requires Linked(p) && at <= |p.queue| && !HasTx(p, tx) && HashFaithful(p, tx) && n in Insert(p, tx, at).queue
    ensures n.tx.hash in Insert(p, tx, at).byHash && Insert(p, tx, at).byHash[n.tx.hash] == n.tx
  {
    InsertMembers(p, tx, at);
    InsertFields(p, tx, at);
    hide Insert, Distinct, SlotsFilled, TimesLinked, AccountsOk;
  }

  lemma InsertHash(p: Pool, tx: Tx, at: nat)
    requires Linked(p) && at <= |p.queue| && !HasTx(p, tx) && HashFaithful(p, tx)
    ensures HashLinked(Insert(p, tx, at))
  {
    hide Insert, Queued, Linked;
    var r := Insert(p, tx, at);
    forall h | h in r.byHash
      ensures r.byHash[h].hash == h && Queued(r, r.byHash[h])
    {
      InsertHashEntry(p, tx, at, h);
    }
    forall n | n in r.queue
      ensures n.tx.hash in r.byHash && r.byHash[n.tx.hash] == n.tx
    {
      InsertHashNode(p, tx, at, n);
    }
  }

  /** Insertion of a transaction with a new account and nonce keeps the indexes in agreement. */
  lemma InsertLinked(p: Pool, tx: Tx, at: nat)
    requires Linked(p) && at <= |p.queue| && !HasTx(p, tx) && HashFaithful(p, tx) && tx.source in p.nonces
    ensures Linked(Insert(p, tx, at))
  {
    var r := Insert(p, tx, at);
    InsertQueue(p, tx, at);
    InsertHash(p, tx, at);
    assert SlotsFilled(r) by {
      hide Insert, Filled, Linked;
      forall b, j | Has(r, b, j)
        ensures Filled(r, b, j)
      {
        InsertFilled(p, tx, at, b, j);
      }
    }
    hide QueueLinked, TimesLinked, HashLinked, SlotsFilled, Emplace, TimePlace;
  }

  // ---- Import ----

  function Clip(at: nat, n: nat): nat
  {
    if at <= n then at else n
  }

  /** Take transactions off the end of the queue until it is short enough. */
  function Trim(p: Pool, limit: nat): (Pool, seq<Tx>)
    requires Linked(p)
    decreases |p.queue|
  {
    if |p.queue| <= limit then (p, [])
    else
      var last := p.queue[|p.queue| - 1];
      RemoveLinked(p, last.tx.source, Nonce(last.tx.nonce));
      RemoveQueue(p, last.tx.source, Nonce(last.tx.nonce));
      var (rest, evicted) := Trim(Remove(p, last.tx.source, Nonce(last.tx.nonce)), limit);
      (rest, [last.tx] + evicted)
  }

  function SetNonce(p: Pool, a: Address, nonce: int): Pool
  {
    p.(nonces := p.nonces[a := nonce])
  }

  lemma SetNonceLinked(p: Pool, a: Address, nonce: int)
    requires Linked(p)
    ensures Linked(SetNonce(p, a, nonce))
  {
    var r := SetNonce(p, a, nonce);
    forall b, j | Has(r, b, j)
      ensures Filled(r, b, j)
    {
      assert Filled(p, b, j);
    }
    hide Filled;
    forall h | h in r.byHash
      ensures Queued(r, r.byHash[h])
    {
      assert Queued(p, p.byHash[h]);
    }
  }

  /** A queued transaction gives way to one that pays at least a tenth more. */
  predicate Outbids(tx: Tx, queued: Tx)
  {
    10 * (tx.gasPrice - queued.gasPrice) >= queued.gasPrice
  }

  predicate Mentions(txs: seq<Tx>, hash: string)
  {
    exists k :: 0 <= k < |txs| && txs[k].hash == hash
  }

  /** The pool a transaction is inserted into: the account's nonce set, and the transaction it
      replaces taken out. */
  function Cleared(p: Pool, tx: Tx, nonce: int): Pool
  {
    var p0 := SetNonce(p, tx.source, nonce);
    if HasTx(p, tx) then SetNonce(Remove(p0, tx.source, Nonce(tx.nonce)), tx.source, nonce) else p0
  }

  lemma ClearedOk(p: Pool, tx: Tx, nonce: int)
    requires Linked(p)
    ensures var p1 := Cleared(p, tx, nonce);
            && Linked(p1) && !HasTx(p1, tx) && tx.source in p1.nonces
            && (forall n :: n in p1.queue <==> n in p.queue && !(n.tx.source == tx.source && n.tx.nonce == tx.nonce))
            && |p1.queue| == |p.queue| - (if HasTx(p, tx) then 1 else 0)
  {
    var p0 := SetNonce(p, tx.source, nonce);
    SetNonceLinked(p, tx.source, nonce);
    var k := Nonce(tx.nonce);
    RemoveLinked(p0, tx.source, k);
    RemoveQueue(p0, tx.source, k);
    RemoveHas(p0, tx.source, k, tx.source, k);
    SetNonceLinked(Remove(p0, tx.source, k), tx.source, nonce);
    assert Has(p0, tx.source, k) == HasTx(p, tx);
    hide Remove, Linked;
  }

  /** `Import`: the new pool and whether the transaction was accepted. */
  function Import(p: Pool, limits: Limits, tx: Tx, nonce: int, at: nat): (Pool, bool)
    requires Linked(p) && HashFaithful(p, tx)
  {
    var replace := HasTx(p, tx);
    if replace && !Outbids(tx, (VictimIs(p, tx.source, Nonce(tx.nonce)); Victim(p, tx.source, Nonce(tx.nonce)))) then
      (SetNonce(p, tx.source, nonce), false)
    else
      var size := |AccountSlots(p, tx.source)| - (if replace then 1 else 0);
      var p1 := Cleared(p, tx, nonce);
      if !(replace || size < limits.account) then (p1, false)
      else
        ClearedOk(p, tx, nonce);
        InsertLinked(p1, tx, Clip(at, |p1.queue|));
        var (p2, evicted) := Trim(Insert(p1, tx, Clip(at, |p1.queue|)), limits.queue);
        (p2, !Mentions(evicted, tx.hash) && size < limits.account)
  }

  predicate AccountsWithin(p: Pool, limits: Limits)
  {
    forall a :: a in p.byAccount ==> |p.byAccount[a]| <= limits.account
  }

  /** What trimming does: `r` lost just the transactions in `evicted`. */
  ghost predicate TrimmedTo(p: Pool, r: Pool, evicted: seq<Tx>)
  {
    && (forall n :: n in r.queue ==> n in p.queue)
    && (forall n :: n in p.queue ==> n in r.queue || n.tx in evicted)
    && (forall n :: n in r.queue ==> n.tx !in evicted)
    && (forall t :: t in evicted ==> Queued(p, t))
  }

  lemma TrimOneMore(p: Pool, q: Pool, r: Pool, last: Node, rest: seq<Tx>)
    requires Linked(p) && last in p.queue && TrimmedTo(q, r, rest)
    requires forall n :: n in q.queue <==> n in p.queue && !(n.tx.source == last.tx.source && n.tx.nonce == last.tx.nonce)
    ensures TrimmedTo(p, r, [last.tx] + rest)
  {
    forall n | n in p.queue
      ensures n in q.queue || n == last
    {
      if n !in q.queue { KeyOwner(p, n, last); }
    }
    hide Linked;
    forall t | t in [last.tx] + rest
      ensures Queued(p, t)
    {
      if t != last.tx {
        assert Queued(q, t);
        var n :| n in q.queue && n.tx == t;
        assert n in p.queue;
      }
    }
  }

  lemma LastRemoved(p: Pool, limits: Limits)
    requires Linked(p) && AccountsWithin(p, limits) && p.queue != []
    ensures var last := p.queue[|p.queue| - 1];
            var q := Remove(p, last.tx.source, Nonce(last.tx.nonce));
            && Linked(q) && AccountsWithin(q, limits) && |q.queue| < |p.queue|
            && forall n :: n in q.queue <==> n in p.queue && !(n.tx.source == last.tx.source && n.tx.nonce == last.tx.nonce)
  {
    var last := p.queue[|p.queue| - 1];
    var a, k := last.tx.source, Nonce(last.tx.nonce);
    assert last in p.queue;
    RemoveLinked(p, a, k);
    RemoveQueue(p, a, k);
    RemoveWithin(p, a, k, limits);
    assert Has(p, a, k);
    hide Remove, Linked;
  }

  lemma {:induction false} TrimOk(p: Pool, limits: Limits)
    requires Linked(p) && AccountsWithin(p, limits)
    ensures var (r, evicted) := Trim(p, limits.queue);
            Linked(r) && WithinLimits(r, limits) && TrimmedTo(p, r, evicted)
    decreases |p.queue|
  {
    hide Remove, Linked;
    if |p.queue| > limits.queue {
      var last := p.queue[|p.queue| - 1];
      var q := Remove(p, last.tx.source, Nonce(last.tx.nonce));
      LastRemoved(p, limits);
      TrimOk(q, limits);
      var (r, rest) := Trim(q, limits.queue);
      hide TrimmedTo, WithinLimits;
      TrimOneMore(p, q, r, last, rest);
      assert Trim(p, limits.queue) == (r, [last.tx] + rest);
    }
  }

  lemma KeyOwner(p: Pool, n: Node, m: Node)
    requires Linked(p) && n in p.queue && m in p.queue && n.tx.source == m.tx.source && n.tx.nonce == m.tx.nonce
    ensures n == m
  {
    hide Distinct;
    SameNode(p, n, m);
  }

  lemma InsertWithin(p: Pool, tx: Tx, at: nat, limits: Limits)
    requires at <= |p.queue| && AccountsWithin(p, limits) && !HasTx(p, tx) && |AccountSlots(p, tx.source)| < limits.account
    ensures AccountsWithin(Insert(p, tx, at), limits)
  {
    hide Emplace, TimePlace;
    var slots := AccountSlots(p, tx.source);
    assert (slots[Nonce(tx.nonce) := Slot(p.next, p.next + 1)]).Keys == slots.Keys + {Nonce(tx.nonce)};
  }

  lemma ClearedWithin(p: Pool, tx: Tx, nonce: int, limits: Limits)
    requires Linked(p) && AccountsWithin(p, limits)
    ensures AccountsWithin(Cleared(p, tx, nonce), limits)
    ensures |AccountSlots(Cleared(p, tx, nonce), tx.source)| == |AccountSlots(p, tx.source)| - (if HasTx(p, tx) then 1 else 0)
    ensures HasTx(p, tx) ==> |AccountSlots(p, tx.source)| <= limits.account
  {
    var p0 := SetNonce(p, tx.source, nonce);
    SetNonceLinked(p, tx.source, nonce);
    RemoveWithin(p0, tx.source, Nonce(tx.nonce), limits);
    hide Linked, Erase, Find;
    if HasTx(p, tx) {
      var slots := p.byAccount[tx.source];
      assert (slots - {Nonce(tx.nonce)}).Keys == slots.Keys - {Nonce(tx.nonce)};
      assert slots - {Nonce(tx.nonce)} == map[] ==> |slots - {Nonce(tx.nonce)}| == 0;
    }
  }

  predicate SameKey(t: Tx, u: Tx)
  {
    t.source == u.source && t.nonce == u.nonce
  }

  /** The pool just after the insertion step of an import. */
  function Added(p: Pool, tx: Tx, nonce: int, at: nat): Pool
  {
    var p1 := Cleared(p, tx, nonce);
    Insert(p1, tx, Clip(at, |p1.queue|))
  }

  lemma AddedOk(p: Pool, limits: Limits, tx: Tx, nonce: int, at: nat)
    requires Linked(p) && WithinLimits(p, limits) && HashFaithful(p, tx)
    requires HasTx(p, tx) || |AccountSlots(p, tx.source)| < limits.account
    ensures var r := Added(p, tx, nonce, at);
            && Linked(r) && AccountsWithin(r, limits) && Queued(r, tx)
            && (forall n :: n in r.queue && n.tx != tx ==> n in p.queue && !SameKey(n.tx, tx))
            && (forall n :: n in p.queue && !SameKey(n.tx, tx) ==> n in r.queue)
            && |r.queue| == |p.queue| + (if HasTx(p, tx) then 0 else 1)
  {
    hide Linked, Cleared, Insert;
    ClearedOk(p, tx, nonce);
    ClearedWithin(p, tx, nonce, limits);
    var p1 := Cleared(p, tx, nonce);
    var k := Clip(at, |p1.queue|);
    InsertLinked(p1, tx, k);
    InsertMembers(p1, tx, k);
    InsertWithin(p1, tx, k, limits);
    assert Node(p1.next, tx) in Insert(p1, tx, k).queue;
  }

  lemma EvictedByHash(p: Pool, r: Pool, evicted: seq<Tx>, tx: Tx)
    requires Linked(p) && Queued(p, tx) && TrimmedTo(p, r, evicted)
    ensures tx in evicted <==> Mentions(evicted, tx.hash)
  {
    if Mentions(evicted, tx.hash) {
      var k :| 0 <= k < |evicted| && evicted[k].hash == tx.hash;
      assert Queued(p, evicted[k]);
      var n :| n in p.queue && n.tx == tx;
      var m :| m in p.queue && m.tx == evicted[k];
      HashOwner(p, n, m);
    }
    hide Linked;
  }

  lemma EvictedIs(p: Pool, tx: Tx, limits: Limits)
    requires Linked(p) && AccountsWithin(p, limits) && Queued(p, tx)
    ensures var (r, evicted) := Trim(p, limits.queue);
            Queued(r, tx) <==> !Mentions(evicted, tx.hash)
  {
    hide Linked, Trim, Mentions;
    TrimOk(p, limits);
    var (r, evicted) := Trim(p, limits.queue);
    EvictedByHash(p, r, evicted, tx);
    var n :| n in p.queue && n.tx == tx;
    assert n in r.queue || n.tx in evicted;
  }

  lemma HashOwner(p: Pool, n: Node, m: Node)
    requires Linked(p) && n in p.queue && m in p.queue && n.tx.hash == m.tx.hash
    ensures n.tx == m.tx
  {
    hide Distinct;
    assert p.byHash[n.tx.hash] == n.tx && p.byHash[m.tx.hash] == m.tx;
  }

  /** Import keeps the indexes in agreement and the limits, answers truthfully, and loses no
      other transaction unless the queue was full. */
  lemma ImportOk(p: Pool, limits: Limits, tx: Tx, nonce: int, at: nat)
    requires Linked(p) && WithinLimits(p, limits) && HashFaithful(p, tx)
    ensures var (r, ok) := Import(p, limits, tx, nonce, at);
            && Linked(r) && WithinLimits(r, limits)
            && (ok ==> Queued(r, tx))
            && (!ok && !Queued(p, tx) ==> !Queued(r, tx))
            && (forall n :: n in r.queue ==> n in p.queue || n.tx == tx)
            && (HasTx(p, tx) || |p.queue| < limits.queue ==> forall n :: n in p.queue && !SameKey(n.tx, tx) ==> n in r.queue)
  {
    var (r, ok) := Import(p, limits, tx, nonce, at);
    var size := |AccountSlots(p, tx.source)| - (if HasTx(p, tx) then 1 else 0);
    SetNonceLinked(p, tx.source, nonce);
    ClearedWithin(p, tx, nonce, limits);
    if HasTx(p, tx) { VictimIs(p, tx.source, Nonce(tx.nonce)); }
    if HasTx(p, tx) && !Outbids(tx, Victim(p, tx.source, Nonce(tx.nonce))) {
      assert r == SetNonce(p, tx.source, nonce);
    } else if !(HasTx(p, tx) || size < limits.account) {
      assert r == SetNonce(p, tx.source, nonce);
    } else {
      AddedOk(p, limits, tx, nonce, at);
      var q := Added(p, tx, nonce, at);
      assert r == Trim(q, limits.queue).0 && ok == (!Mentions(Trim(q, limits.queue).1, tx.hash) && size < limits.account);
      hide Import, Linked, Added, Mentions, Victim, Find, Cleared;
      TrimOk(q, limits);
      EvictedIs(q, tx, limits);
    }
  }

  // ---- Exactly which imports are accepted ----

  /** An occupied account and nonce: the newcomer is accepted exactly when it
      pays a tenth more. */
  lemma ReplacementAccepted(p: Pool, limits: Limits, tx: Tx, nonce: int, at: nat)
    requires Linked(p) && WithinLimits(p, limits) && HashFaithful(p, tx) && HasTx(p, tx)
    ensures Find(p.queue, SlotOf(p, tx.source, Nonce(tx.nonce)).left) < |p.queue|
    ensures Import(p, limits, tx, nonce, at).1 <==> 10 * tx.gasPrice >= 11 * Victim(p, tx.source, Nonce(tx.nonce)).gasPrice
  {
    VictimIs(p, tx.source, Nonce(tx.nonce));
    if Outbids(tx, Victim(p, tx.source, Nonce(tx.nonce))) {
      AddedOk(p, limits, tx, nonce, at);
      ClearedWithin(p, tx, nonce, limits);
      hide Linked, Cleared, Victim, Find, Insert;
      assert Trim(Added(p, tx, nonce, at), limits.queue).1 == [];
    }
  }

  /** One transaction too many: the last one goes, and no other. */
  lemma TrimOne(p: Pool, limit: nat)
    requires Linked(p) && |p.queue| == limit + 1
    ensures Trim(p, limit).1 == [p.queue[limit].tx]
  {
    var last := p.queue[limit];
    assert last in p.queue && HasTx(p, last.tx);
    RemoveLinked(p, last.tx.source, Nonce(last.tx.nonce));
    RemoveQueue(p, last.tx.source, Nonce(last.tx.nonce));
    hide Remove, Linked;
  }

  /** The newcomer of an insertion is last exactly when it was put there. */
  lemma LastAfterInsert(p: Pool, tx: Tx, k: nat)
    requires Linked(p) && k <= |p.queue| && !HasTx(p, tx)
    ensures var q := Insert(p, tx, k).queue;
            |q| == |p.queue| + 1 && (SameKey(q[|p.queue|].tx, tx) <==> k == |p.queue|)
  {
    var q := Insert(p, tx, k).queue;
    if k < |p.queue| {
      assert q[|p.queue|] == p.queue[|p.queue| - 1];
      assert p.queue[|p.queue| - 1] in p.queue;
    }
  }

  /** A new account and nonce: accepted exactly when the account has room, and the queue has
      room or the newcomer is not put last. */
  lemma NewcomerAccepted(p: Pool, limits: Limits, tx: Tx, nonce: int, at: nat)
    requires Linked(p) && WithinLimits(p, limits) && HashFaithful(p, tx) && !HasTx(p, tx)
    ensures Import(p, limits, tx, nonce, at).1 <==>
              |AccountSlots(p, tx.source)| < limits.account && (|p.queue| < limits.queue || at < |p.queue|)
  {
    if |AccountSlots(p, tx.source)| < limits.account {
      AddedOk(p, limits, tx, nonce, at);
      var p1 := Cleared(p, tx, nonce);
      assert p1 == SetNonce(p, tx.source, nonce);
      var q := Added(p, tx, nonce, at);
      ClearedOk(p, tx, nonce);
      LastAfterInsert(p1, tx, Clip(at, |p1.queue|));
      assert q == Insert(p1, tx, Clip(at, |p1.queue|));
      hide Insert, Linked, Cleared, Added;
      if |p.queue| == limits.queue {
        TrimOne(q, limits.queue);
        LastByHash(q, limits.queue, tx);
      } else {
        assert Trim(q, limits.queue).1 == [];
      }
    }
  }

  lemma LastByHash(q: Pool, limit: nat, tx: Tx)
    requires Linked(q) && |q.queue| == limit + 1 && Queued(q, tx)
    ensures Mentions([q.queue[limit].tx], tx.hash) <==> SameKey(q.queue[limit].tx, tx)
  {
    var n :| n in q.queue && n.tx == tx;
    var last := q.queue[limit];
    assert last in q.queue;
    if last.tx.hash == tx.hash { HashOwner(q, n, last); }
    if SameKey(last.tx, tx) { KeyOwner(q, n, last); assert [last.tx][0].hash == tx.hash; }
    hide Linked;
  }
}
