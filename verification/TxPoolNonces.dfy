/** The account nonces the pool keeps, which decide what a block may take: what every event makes
    of them. */
module TxPoolNonces {
  import opened Options
  import opened TxPool
  import opened TxPoolRuns

  function NonceOf(p: Pool, a: Address): Option<int>
  {
    if a in p.nonces then Some(p.nonces[a]) else None
  }

  /** The account lost its last transaction. */
  predicate Emptied(p: Pool, p': Pool, a: Address)
  {
    a in p.byAccount && a !in p'.byAccount
  }

  /** With its last transaction an account's nonce is forgotten; else it stays. */
  predicate OnlyEmptied(p: Pool, p': Pool, a: Address)
  {
    && NonceOf(p', a) == (if Emptied(p, p', a) then None else NonceOf(p, a))
    && (a in p'.byAccount ==> a in p.byAccount)
  }

  lemma RemoveNonces(p: Pool, b: Address, k: Nonce, a: Address)
    ensures OnlyEmptied(p, Remove(p, b, k), a)
  {
    hide Erase, Find;
  }

  lemma EmptiedOnce(p: Pool, q: Pool, r: Pool, a: Address)
    requires AccountsOk(p) && OnlyEmptied(p, q, a) && OnlyEmptied(q, r, a)
    ensures OnlyEmptied(p, r, a)
  {
  }

  lemma {:induction false} TrimNonces(p: Pool, limit: nat, a: Address)
    requires Linked(p)
    ensures OnlyEmptied(p, Trim(p, limit).0, a)
    decreases |p.queue|
  {
    if |p.queue| > limit {
      var last := p.queue[|p.queue| - 1];
      var k := Nonce(last.tx.nonce);
      assert last in p.queue && AccountsOk(p);
      RemoveLinked(p, last.tx.source, k);
      RemoveQueue(p, last.tx.source, k);
      RemoveNonces(p, last.tx.source, k, a);
      hide Linked, Remove, OnlyEmptied;
      var q := Remove(p, last.tx.source, k);
      TrimNonces(q, limit, a);
      EmptiedOnce(p, q, Trim(q, limit).0, a);
    }
  }

  lemma {:induction false} DropNonces(p: Pool, expire: int, a: Address)
    requires Linked(p)
    ensures OnlyEmptied(p, DropExpired(p, expire).0, a)
    decreases |p.times|
  {
    if p.times != [] && p.times[0].tx.time < expire {
      var tx := p.times[0].tx;
      assert p.times[0] in p.times && AccountsOk(p);
      RemoveLinked(p, tx.source, Nonce(tx.nonce));
      RemoveQueue(p, tx.source, Nonce(tx.nonce));
      RemoveNonces(p, tx.source, Nonce(tx.nonce), a);
      hide Linked, Remove, OnlyEmptied;
      var q := Remove(p, tx.source, Nonce(tx.nonce));
      DropNonces(q, expire, a);
      EmptiedOnce(p, q, DropExpired(q, expire).0, a);
    }
  }

  /** An import the pool turns down before anything is queued: of a used account and nonce by one
      that does not pay a tenth more, of a new one for an account that is full. */
  predicate TurnedDown(p: Pool, limits: Limits, tx: Tx)
    requires Linked(p)
  {
    if HasTx(p, tx) then
      VictimIs(p, tx.source, Nonce(tx.nonce));
      10 * tx.gasPrice < 11 * Victim(p, tx.source, Nonce(tx.nonce)).gasPrice
    else |AccountSlots(p, tx.source)| >= limits.account
  }

  /** An import records the nonce of its account, even one turned down. */
  lemma ImportNonces(p: Pool, limits: Limits, tx: Tx, nonce: int, at: nat, a: Address)
    requires Linked(p) && WithinLimits(p, limits) && HashFaithful(p, tx)
    ensures var p' := Import(p, limits, tx, nonce, at).0;
            NonceOf(p', a) == if a == tx.source then if TurnedDown(p, limits, tx) || a in p'.byAccount then Some(nonce) else None
                              else if Emptied(p, p', a) then None else NonceOf(p, a)
  {
    if HasTx(p, tx) { VictimIs(p, tx.source, Nonce(tx.nonce)); }
    if TurnedDown(p, limits, tx) {
      assert Import(p, limits, tx, nonce, at).0 == SetNonce(p, tx.source, nonce);
    } else {
      AddedOk(p, limits, tx, nonce, at);
      AddedNonces(p, tx, nonce, at, a);
      ClearedWithin(p, tx, nonce, limits);
      var q := Added(p, tx, nonce, at);
      assert Import(p, limits, tx, nonce, at).0 == Trim(q, limits.queue).0;
      hide Linked, Import, Added, Cleared, Victim, Trim;
      TrimNonces(q, limits.queue, a);
    }
  }

  lemma AddedNonces(p: Pool, tx: Tx, nonce: int, at: nat, a: Address)
    requires AccountsOk(p)
    ensures var q := Added(p, tx, nonce, at);
            if a == tx.source then a in q.byAccount && NonceOf(q, a) == Some(nonce)
            else (a in q.byAccount <==> a in p.byAccount) && NonceOf(q, a) == NonceOf(p, a)
  {
    hide Erase, Find, Emplace, TimePlace;
  }

  /** The largest of the nonce an account has and those that a list names for it. */
  predicate Largest(n': int, n: int, refs: seq<Ref>, a: Address)
  {
    && n' >= n && (forall r :: r in refs && r.source == a ==> n' >= r.nonce)
    && (n' == n || exists r :: r in refs && r.source == a && r.nonce == n')
  }

  /** A closed ledger moves nonces forward to the last one it used. */
  predicate Settled(p: Pool, p': Pool, refs: seq<Ref>, close: bool, a: Address)
  {
    && (a in p'.byAccount ==> a in p.byAccount)
    && if a !in p.nonces || Emptied(p, p', a) then a !in p'.nonces
       else a in p'.nonces && if close then Largest(p'.nonces[a], p.nonces[a], refs, a) else p'.nonces[a] == p.nonces[a]
  }

  lemma {:induction false} RemoveEachNonces(p: Pool, refs: seq<Ref>, close: bool, a: Address)
    requires AccountsOk(p)
    ensures AccountsOk(RemoveEach(p, refs, close)) && Settled(p, RemoveEach(p, refs, close), refs, close, a)
  {
    if refs != [] {
      var before, r := refs[..|refs| - 1], refs[|refs| - 1];
      assert refs == before + [r];
      RemoveEachNonces(p, before, close, a);
      var q := RemoveEach(p, before, close);
      RemoveKeepsAccounts(q, r.source, Nonce(r.nonce));
      RemoveNonces(q, r.source, Nonce(r.nonce), a);
      hide Remove, AccountsOk;
      SettledOnce(p, q, Remove(q, r.source, Nonce(r.nonce)), before, r, close, a);
    }
  }

  lemma RemoveKeepsAccounts(p: Pool, b: Address, k: Nonce)
    requires AccountsOk(p)
    ensures AccountsOk(Remove(p, b, k))
  {
    hide Erase, Find;
  }

  lemma SettledOnce(p: Pool, q: Pool, q1: Pool, before: seq<Ref>, r: Ref, close: bool, a: Address)
    requires AccountsOk(p) && AccountsOk(q) && AccountsOk(q1)
    requires Settled(p, q, before, close, a) && OnlyEmptied(q, q1, a)
    ensures AccountsOk(Settle(q1, r, close)) && Settled(p, Settle(q1, r, close), before + [r], close, a)
  {
  }

  /** What becomes of an account's nonce, for every event. */
  lemma NoncesChange(p: Pool, limits: Limits, ev: Event, a: Address)
    requires Linked(p) && WithinLimits(p, limits) && (ev.Imported? ==> HashFaithful(p, ev.tx))
    ensures var p' := Step(p, limits, ev);
            match ev
            case Imported(tx, nonce, _) =>
              NonceOf(p', a)
              == (if a == tx.source then if TurnedDown(p, limits, tx) || a in p'.byAccount then Some(nonce) else None
                  else if Emptied(p, p', a) then None else NonceOf(p, a))
            case Removed(refs, close) => Settled(p, p', refs, close, a)
            case Expired(_) => OnlyEmptied(p, p', a)
  {
    match ev
    case Imported(tx, nonce, at) => ImportNonces(p, limits, tx, nonce, at, a);
    case Removed(refs, close) => RemoveEachNonces(p, refs, close, a);
    case Expired(before) => DropNonces(p, before, a);
  }
}
