/** The write-back cache of an account's assets and metadata over the stored tries. */
module AccountCache {
  import opened Options

  datatype Action = Add | Mod | Del

  /** A cached entry, with what is to be done to the trie. */
  datatype Cached<+V> = Cached(action: Action, data: V)

  datatype AssetKey = AssetKey(issuer: string, code: string, kind: int)

  datatype Asset = Asset(key: AssetKey, amount: int)

  datatype KeyPair = KeyPair(key: string, value: string, version: int)

  // ---- One cache over one trie ----

  /** The plain map that a cache over a trie stands for. */
  function View<K, V>(cache: map<K, Cached<V>>, trie: map<K, V>): map<K, V>
  {
    map k | k in cache.Keys + trie.Keys && (k in cache ==> !cache[k].action.Del?) ::
      if k in cache then cache[k].data else trie[k]
  }

  /** The answer to a read. */
  function Answer<K, V>(cache: map<K, Cached<V>>, trie: map<K, V>, k: K): Option<V>
  {
    if k in cache then (if cache[k].action.Del? then None else Some(cache[k].data))
    else Lookup(trie, k)
  }

  /** The cache after a read: what came from the trie is kept. */
  function Filled<K, V>(cache: map<K, Cached<V>>, trie: map<K, V>, k: K): map<K, Cached<V>>
  {
    if k !in cache && k in trie then cache[k := Cached(Mod, trie[k])] else cache
  }

  function Put<K, V>(cache: map<K, Cached<V>>, k: K, data: V): map<K, Cached<V>>
  {
    cache[k := Cached(Add, data)]
  }

  function Dropped<K, V>(cache: map<K, Cached<V>>, k: K, data: V): map<K, Cached<V>>
  {
    cache[k := Cached(Del, data)]
  }

  /** A read answers as the plain map does, and read-through caching changes no later answer. */
  lemma ReadRefines<K, V>(cache: map<K, Cached<V>>, trie: map<K, V>, k: K)
    ensures Answer(cache, trie, k) == Lookup(View(cache, trie), k)
    ensures View(Filled(cache, trie, k), trie) == View(cache, trie)
  {
  }

  lemma WriteRefines<K, V>(cache: map<K, Cached<V>>, trie: map<K, V>, k: K, data: V)
    ensures View(Put(cache, k, data), trie) == View(cache, trie)[k := data]
  {
  }

  lemma DeleteRefines<K, V>(cache: map<K, Cached<V>>, trie: map<K, V>, k: K, data: V)
    ensures View(Dropped(cache, k, data), trie) == View(cache, trie) - {k}
  {
  }

  /** Writing the cache back leaves the plain map as it was. */
  lemma FlushRefines<K, V>(cache: map<K, Cached<V>>, trie: map<K, V>)
    ensures View(cache, View(cache, trie)) == View(cache, trie)
    ensures View(map[], View(cache, trie)) == View(cache, trie)
  {
  }

  // ---- Assets: an amount of 0 is not stored ----

  function NonZero(m: map<AssetKey, Asset>): map<AssetKey, Asset>
  {
    map k | k in m && m[k].amount != 0 :: m[k]
  }

  predicate OwnKeys(cache: map<AssetKey, Cached<Asset>>)
  {
    forall k :: k in cache ==> cache[k].data.key == k
  }

  /** The stored assets: each under its own key, none with amount 0. */
  predicate AssetsOk(trie: map<AssetKey, Asset>)
  {
    forall k :: k in trie ==> trie[k].key == k && trie[k].amount != 0
  }

  /** Written back, zero amounts are dropped from the trie and still answered from the cache. */
  lemma AssetFlushRefines(cache: map<AssetKey, Cached<Asset>>, trie: map<AssetKey, Asset>)
    requires OwnKeys(cache) && AssetsOk(trie)
    ensures AssetsOk(NonZero(View(cache, trie)))
    ensures View(cache, NonZero(View(cache, trie))) == View(cache, trie)
  {
  }

  /** What a written-back entry leaves in the trie. */
  function Kept<V>(c: Cached<V>): Option<V>
  {
    if c.action.Del? then None else Some(c.data)
  }

  function KeptAsset(c: Cached<Asset>): Option<Asset>
  {
    if c.action.Del? || c.data.amount == 0 then None else Some(c.data)
  }

  lemma Flushed<K, V>(cache: map<K, Cached<V>>, trie: map<K, V>)
    ensures forall k :: Lookup(View(cache, trie), k) == if k in cache then Kept(cache[k]) else Lookup(trie, k)
  {
  }

  lemma FlushedAssets(cache: map<AssetKey, Cached<Asset>>, trie: map<AssetKey, Asset>)
    requires AssetsOk(trie)
    ensures forall k :: Lookup(NonZero(View(cache, trie)), k) == if k in cache then KeptAsset(cache[k]) else Lookup(trie, k)
  {
  }

  // ---- The account ----

  class Account {
    var assets: map<AssetKey, Cached<Asset>>
    var metadata: map<string, Cached<KeyPair>>
    /** The account's part of the database. */
    var assetTrie: map<AssetKey, Asset>
    var metaTrie: map<string, KeyPair>

    predicate Valid()
      reads this
    {
      OwnKeys(assets) && AssetsOk(assetTrie)
    }

    function Assets(): map<AssetKey, Asset>
      reads this
    {
      View(assets, assetTrie)
    }

    function Meta(): map<string, KeyPair>
      reads this
    {
      View(metadata, metaTrie)
    }

    constructor (assetTrie: map<AssetKey, Asset>, metaTrie: map<string, KeyPair>)
      requires AssetsOk(assetTrie)
      ensures Valid() && Assets() == assetTrie && Meta() == metaTrie
    {
      assets, metadata := map[], map[];
      this.assetTrie, this.metaTrie := assetTrie, metaTrie;
    }

    /** The copy constructor: a copy answers as the original, pending writes included. */
    constructor Copy(account: Account)
      requires account.Valid()
      ensures Valid() && Assets() == account.Assets() && Meta() == account.Meta()
      ensures assets == account.assets && metadata == account.metadata
    {
      assets, metadata := account.assets, account.metadata;
      assetTrie, metaTrie := account.assetTrie, account.metaTrie;
    }

    method GetAsset(key: AssetKey) returns (found: bool, asset: Option<Asset>)
      requires Valid()
      modifies `assets
      ensures Valid() && Assets() == old(Assets())
      ensures asset == Lookup(old(Assets()), key) && found == asset.Some?
    {
      ReadRefines(assets, assetTrie, key);
      if key in assets {
        if assets[key].action.Del? { return false, None; }
        return true, Some(assets[key].data);
      }
      if key !in assetTrie { return false, None; }
      asset := Some(assetTrie[key]);
      assets := assets[key := Cached(Mod, assetTrie[key])];
      found := true;
    }

    method SetAsset(asset: Asset)
      requires Valid()
      modifies `assets
      ensures Valid() && Assets() == old(Assets())[asset.key := asset]
    {
      WriteRefines(assets, assetTrie, asset.key, asset);
      assets := assets[asset.key := Cached(Add, asset)];
    }

    method GetMetaData(key: string) returns (found: bool, pair: Option<KeyPair>)
      modifies `metadata
      ensures Meta() == old(Meta())
      ensures pair == Lookup(old(Meta()), key) && found == pair.Some?
    {
      ReadRefines(metadata, metaTrie, key);
      if key in metadata {
        if metadata[key].action.Del? { return false, None; }
        return true, Some(metadata[key].data);
      }
      if key !in metaTrie { return false, None; }
      pair := Some(metaTrie[key]);
      metadata := metadata[key := Cached(Mod, metaTrie[key])];
      found := true;
    }

    method SetMetaData(pair: KeyPair)
      modifies `metadata
      ensures Meta() == old(Meta())[pair.key := pair]
    {
      WriteRefines(metadata, metaTrie, pair.key, pair);
      metadata := metadata[pair.key := Cached(Add, pair)];
    }

    method DeleteMetaData(pair: KeyPair) returns (done: bool)
      modifies `metadata
      ensures Meta() == old(Meta()) - {pair.key} && done
    {
      DeleteRefines(metadata, metaTrie, pair.key, pair);
      metadata := metadata[pair.key := Cached(Del, pair)];
      done := true;
    }

    method FlushAssets()
      requires Valid()
      modifies `assetTrie
      ensures assetTrie == NonZero(View(assets, old(assetTrie)))
    {
      hide View, NonZero;
      var todo := assets.Keys;
      while todo != {}
        invariant todo <= assets.Keys && assets == old(assets)
        invariant forall k ::
          Lookup(assetTrie, k) == if k in assets && k !in todo then KeptAsset(assets[k]) else Lookup(old(assetTrie), k)
        decreases |todo|
      {
        var k :| k in todo;
        var asset := assets[k].data;
        match assets[k].action {
          case Add => assetTrie := if asset.amount == 0 then assetTrie - {asset.key} else assetTrie[asset.key := asset];
          case Mod => assetTrie := if asset.amount == 0 then assetTrie - {asset.key} else assetTrie[asset.key := asset];
          case Del => assetTrie := assetTrie - {asset.key};
        }
        todo := todo - {k};
      }
      FlushedAssets(assets, old(assetTrie));
      SameLookups(assetTrie, NonZero(View(assets, old(assetTrie))));
    }

    method FlushMetaData()
      modifies `metaTrie
      ensures metaTrie == View(metadata, old(metaTrie))
    {
      hide View;
      var todo := metadata.Keys;
      while todo != {}
        invariant todo <= metadata.Keys && metadata == old(metadata)
        invariant forall k ::
          Lookup(metaTrie, k) == if k in metadata && k !in todo then Kept(metadata[k]) else Lookup(old(metaTrie), k)
        decreases |todo|
      {
        var k :| k in todo;
        var pair := metadata[k].data;
        match metadata[k].action {
          case Add => metaTrie := metaTrie[k := pair];
          case Mod => metaTrie := metaTrie[k := pair];
          case Del => metaTrie := metaTrie - {k};
        }
        todo := todo - {k};
      }
      Flushed(metadata, old(metaTrie));
      SameLookups(metaTrie, View(metadata, old(metaTrie)));
    }

    /** `UpdateHash`: the tries become the plain maps, and no answer changes. */
    method UpdateHash()
      requires Valid()
      modifies `assetTrie, `metaTrie
      ensures Valid() && Assets() == old(Assets()) && Meta() == old(Meta())
      ensures assetTrie == NonZero(old(Assets())) && metaTrie == old(Meta())
    {
      AssetFlushRefines(assets, assetTrie);
      FlushRefines(metadata, metaTrie);
      FlushAssets();
      FlushMetaData();
    }
  }

  lemma SameLookups<K, V>(m: map<K, V>, n: map<K, V>)
    requires forall k :: Lookup(m, k) == Lookup(n, k)
    ensures m == n
  {
    forall k
      ensures k in m <==> k in n
    {
      assert Lookup(m, k) == Lookup(n, k);
    }
    forall k | k in m
      ensures m[k] == n[k]
    {
      assert Lookup(m, k) == Lookup(n, k);
    }
  }

  // ---- Any interleaving ----

  /** The cached account as a value, and the plain account it stands for. */
  datatype Store = Store(
    assets: map<AssetKey, Cached<Asset>>, assetTrie: map<AssetKey, Asset>,
    metadata: map<string, Cached<KeyPair>>, metaTrie: map<string, KeyPair>)

  datatype Plain = Plain(assets: map<AssetKey, Asset>, meta: map<string, KeyPair>)

  datatype Op =
    | ReadAsset(key: AssetKey)
    | WriteAsset(asset: Asset)
    | ReadMeta(name: string)
    | WriteMeta(pair: KeyPair)
    | RemoveMeta(pair: KeyPair)
    | Flush

  datatype Reply = AssetReply(asset: Option<Asset>) | MetaReply(pair: Option<KeyPair>) | Done

  function Do(s: Store, op: Op): (Store, Reply)
  {
    match op
    case ReadAsset(k) => (s.(assets := Filled(s.assets, s.assetTrie, k)), AssetReply(Answer(s.assets, s.assetTrie, k)))
    case WriteAsset(a) => (s.(assets := Put(s.assets, a.key, a)), Done)
    case ReadMeta(k) => (s.(metadata := Filled(s.metadata, s.metaTrie, k)), MetaReply(Answer(s.metadata, s.metaTrie, k)))
    case WriteMeta(p) => (s.(metadata := Put(s.metadata, p.key, p)), Done)
    case RemoveMeta(p) => (s.(metadata := Dropped(s.metadata, p.key, p)), Done)
    case Flush => (s.(assetTrie := NonZero(View(s.assets, s.assetTrie)), metaTrie := View(s.metadata, s.metaTrie)), Done)
  }

  function DoPlain(p: Plain, op: Op): (Plain, Reply)
  {
    match op
    case ReadAsset(k) => (p, AssetReply(Lookup(p.assets, k)))
    case WriteAsset(a) => (p.(assets := p.assets[a.key := a]), Done)
    case ReadMeta(k) => (p, MetaReply(Lookup(p.meta, k)))
    case WriteMeta(kp) => (p.(meta := p.meta[kp.key := kp]), Done)
    case RemoveMeta(kp) => (p.(meta := p.meta - {kp.key}), Done)
    case Flush => (p, Done)
  }

  function Seen(s: Store): Plain
  {
    Plain(View(s.assets, s.assetTrie), View(s.metadata, s.metaTrie))
  }

  predicate StoreOk(s: Store)
  {
    OwnKeys(s.assets) && AssetsOk(s.assetTrie)
  }

  lemma DoRefines(s: Store, op: Op)
    requires StoreOk(s)
    ensures StoreOk(Do(s, op).0) && (Seen(Do(s, op).0), Do(s, op).1) == DoPlain(Seen(s), op)
  {
    hide View, NonZero;
    match op
    case ReadAsset(k) => ReadRefines(s.assets, s.assetTrie, k);
    case WriteAsset(a) => WriteRefines(s.assets, s.assetTrie, a.key, a);
    case ReadMeta(k) => ReadRefines(s.metadata, s.metaTrie, k);
    case WriteMeta(p) => WriteRefines(s.metadata, s.metaTrie, p.key, p);
    case RemoveMeta(p) => DeleteRefines(s.metadata, s.metaTrie, p.key, p);
    case Flush =>
      AssetFlushRefines(s.assets, s.assetTrie);
      FlushRefines(s.metadata, s.metaTrie);
  }

  function Replies(s: Store, ops: seq<Op>): (Store, seq<Reply>)
    decreases |ops|
  {
    if ops == [] then (s, [])
    else
      var (t, reply) := Do(s, ops[0]);
      var (u, rest) := Replies(t, ops[1..]);
      (u, [reply] + rest)
  }

  function PlainReplies(p: Plain, ops: seq<Op>): (Plain, seq<Reply>)
    decreases |ops|
  {
    if ops == [] then (p, [])
    else
      var (q, reply) := DoPlain(p, ops[0]);
      var (r, rest) := PlainReplies(q, ops[1..]);
      (r, [reply] + rest)
  }

  /** Any interleaving of reads, writes, deletes and write-backs is answered as by plain maps. */
  lemma {:induction false} CacheRefinesMap(s: Store, ops: seq<Op>)
    requires StoreOk(s)
    ensures StoreOk(Replies(s, ops).0)
    ensures (Seen(Replies(s, ops).0), Replies(s, ops).1) == PlainReplies(Seen(s), ops)
    decreases |ops|
  {
    hide Do, DoPlain, Seen, StoreOk;
    if ops != [] {
      DoRefines(s, ops[0]);
      CacheRefinesMap(Do(s, ops[0]).0, ops[1..]);
    }
  }

  /** What a fresh account object reads after a write-back: the same, with zero amounts gone. */
  lemma ReloadAfterFlush(s: Store)
    requires StoreOk(s)
    ensures var t := Do(s, Flush).0;
            Seen(t.(assets := map[], metadata := map[])) == Plain(NonZero(Seen(s).assets), Seen(s).meta)
  {
    var t := Do(s, Flush).0;
    assert View(map[], t.assetTrie) == t.assetTrie;
    FlushRefines(s.metadata, s.metaTrie);
  }
}
