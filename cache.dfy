/**
 * The chunk cache of html/js/BemTV.js: a plain JavaScript object used as a
 * dictionary from resource name to chunk. `Object.keys` reports its keys in
 * insertion order, assigning to an existing key keeps that key's position,
 * and `checkCacheSize` deletes the first key once there are more than
 * MAX_CACHE_SIZE of them.
 */
module ChunkCache {

  /** A chunk is opaque to the engine (the base64 text of the fetched bytes, or what a peer sent). */
  type Chunk = string

  /** Capacity of the cache (html/js/BemTV.js:12). */
  const MAX_CACHE_SIZE: nat := 4

  predicate Distinct(s: seq<string>) {
    forall i, j :: 0 <= i < j < |s| ==> s[i] != s[j]
  }

  function Elems(s: seq<string>): set<string> {
    set x | x in s
  }

  /** The newest `n` elements of an insertion sequence. */
  function Newest(s: seq<string>, n: nat): (r: seq<string>)
    ensures |r| == if |s| <= n then |s| else n
  {
    if |s| <= n then s else s[|s| - n..]
  }

  /**
   * `keys` is what `Object.keys(chunksCache)` returns (oldest first);
   * `chunks` is the content of the object.
   */
  datatype Cache = Cache(keys: seq<string>, chunks: map<string, Chunk>) {

    ghost predicate Valid() {
      Distinct(keys) && forall k :: k in chunks <==> k in keys
    }

    /** `Object.keys(chunksCache).length` */
    function Size(): nat {
      |keys|
    }

    /** `k in chunksCache` */
    predicate Has(k: string) {
      k in chunks
    }

    /** `chunksCache[k]` for a key that is present */
    function Get(k: string): Chunk
      requires Has(k)
    {
      chunks[k]
    }

    /**
     * `chunksCache[k] = v` (html/js/BemTV.js:70, 133): `k` maps to `v`, every
     * other entry is untouched, keys already present keep their positions and a
     * new key becomes the newest one; writing back the chunk already stored
     * leaves the cache as it was.
     */
    function Put(k: string, v: Chunk): (r: Cache)
      requires Valid()
      ensures r.Valid()
      ensures r.Has(k) && r.Get(k) == v
      ensures forall k' :: k' != k ==> (r.Has(k') <==> Has(k'))
      ensures forall k' :: k' != k && k' in chunks ==> k' in r.chunks && r.chunks[k'] == chunks[k']
      ensures r.Size() == if Has(k) then Size() else Size() + 1
      ensures forall i :: 0 <= i < |keys| ==> r.keys[i] == keys[i]
      ensures !Has(k) ==> r.keys[|keys|] == k
      ensures Has(k) && Get(k) == v ==> r == this
    {
      if k in chunks then
        assert chunks[k] == v ==> chunks[k := v] == chunks;
        Cache(keys, chunks[k := v])
      else
        Cache(keys + [k], chunks[k := v])
    }

    /**
     * `checkCacheSize` (html/js/BemTV.js:139-145): when more than MAX_CACHE_SIZE
     * keys are present, the earliest-inserted one, and only it, is deleted;
     * otherwise nothing changes.
     */
    function CheckSize(): (r: Cache)
      requires Valid()
      ensures r.Valid()
      ensures Size() <= MAX_CACHE_SIZE ==> r == this
      ensures Size() > MAX_CACHE_SIZE ==>
        r.Size() == Size() - 1 && r.keys == keys[1..] && !r.Has(keys[0]) &&
        (forall k :: k != keys[0] ==> (r.Has(k) <==> Has(k))) &&
        (forall k :: k in r.chunks ==> r.chunks[k] == chunks[k])
    {
      if |keys| > MAX_CACHE_SIZE then Cache(keys[1..], chunks - {keys[0]}) else this
    }

    /**
     * The cache half of `sendToPlayer` (html/js/BemTV.js:133, 136): store, then
     * check the size. A cache within capacity stays within capacity and keeps
     * the stored chunk; an overfull one never grows; storing a chunk that is
     * already there amounts to the size check alone.
     */
    function Store(k: string, v: Chunk): (r: Cache)
      requires Valid()
      ensures r.Valid()
      ensures Size() <= MAX_CACHE_SIZE ==> r.Size() <= MAX_CACHE_SIZE
      ensures Size() > MAX_CACHE_SIZE ==> r.Size() <= Size()
      ensures Size() <= MAX_CACHE_SIZE ==> r.Has(k) && r.Get(k) == v
      ensures Has(k) && Size() <= MAX_CACHE_SIZE ==> r.keys == keys
      ensures Has(k) && Get(k) == v ==> r == CheckSize()
    {
      Put(k, v).CheckSize()
    }
  }

  const Empty: Cache := Cache([], map[])

  /** Storing a sequence of chunks one after another, each as `sendToPlayer` does. */
  function StoreAll(c: Cache, items: seq<(string, Chunk)>): (r: Cache)
    requires c.Valid()
    ensures r.Valid()
    ensures c.Size() <= MAX_CACHE_SIZE ==> r.Size() <= MAX_CACHE_SIZE
    decreases |items|
  {
    if items == [] then c else StoreAll(c.Store(items[0].0, items[0].1), items[1..])
  }

  function Names(items: seq<(string, Chunk)>): (r: seq<string>)
    ensures |r| == |items|
    ensures forall i :: 0 <= i < |items| ==> r[i] == items[i].0
  {
    if items == [] then [] else [items[0].0] + Names(items[1..])
  }

  lemma {:induction false} DistinctElems(s: seq<string>)
    requires Distinct(s)
    ensures |Elems(s)| == |s|
  {
    if s != [] {
      DistinctElems(s[1..]);
      assert Elems(s) == Elems(s[1..]) + {s[0]};
      assert s[0] !in Elems(s[1..]);
    }
  }

  /** The key sequence counts the entries: `Object.keys(...).length` is the number of cached chunks. */
  lemma SizeIsEntryCount(c: Cache)
    requires c.Valid()
    ensures c.Size() == |c.chunks|
  {
    assert c.chunks.Keys == Elems(c.keys);
    DistinctElems(c.keys);
  }

  /** Keeping only the newest entries before appending more makes no difference to the newest ones after. */
  lemma NewestTwice(s: seq<string>, t: seq<string>)
    ensures Newest(Newest(s, MAX_CACHE_SIZE) + t, MAX_CACHE_SIZE) == Newest(s + t, MAX_CACHE_SIZE)
  {
  }

  lemma Regroup(a: seq<string>, k: string, b: seq<string>)
    ensures a + ([k] + b) == (a + [k]) + b
  {
  }

  /** Storing a chunk under a name the cache does not hold keeps the newest names. */
  lemma StoreFresh(c: Cache, k: string, v: Chunk)
    requires c.Valid() && c.Size() <= MAX_CACHE_SIZE && !c.Has(k)
    ensures c.Store(k, v).keys == Newest(c.keys + [k], MAX_CACHE_SIZE)
  {
  }

  lemma NamesTail(items: seq<(string, Chunk)>)
    requires items != [] && Distinct(Names(items))
    ensures Names(items) == [items[0].0] + Names(items[1..])
    ensures Distinct(Names(items[1..]))
    ensures items[0].0 !in Names(items[1..])
  {
  }

  /**
   * FIFO eviction over a run of fresh insertions: storing chunks under names that
   * are new and distinct leaves exactly the newest MAX_CACHE_SIZE names, in
   * insertion order. Popularity plays no part (it is not LRU).
   */
  lemma {:induction false} StoreAllKeepsNewest(c: Cache, items: seq<(string, Chunk)>)
    requires c.Valid() && c.Size() <= MAX_CACHE_SIZE
    requires Distinct(Names(items))
    requires forall i :: 0 <= i < |items| ==> !c.Has(items[i].0)
    ensures StoreAll(c, items).keys == Newest(c.keys + Names(items), MAX_CACHE_SIZE)
    decreases |items|
  {
    if items == [] {
      assert c.keys + Names(items) == c.keys;
    } else {
      var k, v, rest := items[0].0, items[0].1, items[1..];
      var c' := c.Store(k, v);
      StoreFresh(c, k, v);
      NamesTail(items);
      forall i | 0 <= i < |rest| ensures !c'.Has(rest[i].0) {
        assert rest[i] == items[i + 1];
        assert Names(rest)[i] == rest[i].0;
      }
      assert StoreAll(c, items) == StoreAll(c', rest);
      StoreAllKeepsNewest(c', rest);
      NewestTwice(c.keys + [k], Names(rest));
      Regroup(c.keys, k, Names(rest));
    }
  }

  /**
   * Inserting five distinct names A, B, C, D, E into an empty cache evicts A
   * and keeps B, C, D, E.
   */
  lemma FifoExample(ka: string, kb: string, kc: string, kd: string, ke: string,
                    a: Chunk, b: Chunk, c: Chunk, d: Chunk, e: Chunk)
    requires Distinct([ka, kb, kc, kd, ke])
    ensures StoreAll(Empty, [(ka, a), (kb, b), (kc, c), (kd, d), (ke, e)]).keys == [kb, kc, kd, ke]
  {
    var items := [(ka, a), (kb, b), (kc, c), (kd, d), (ke, e)];
    var names := [ka, kb, kc, kd, ke];
    assert Names(items[4..]) == [ke];
    assert Names(items[3..]) == [kd, ke];
    assert Names(items[2..]) == [kc, kd, ke];
    assert Names(items[1..]) == [kb, kc, kd, ke];
    assert Names(items) == names;
    StoreAllKeepsNewest(Empty, items);
    assert Empty.keys + names == names;
  }
}
