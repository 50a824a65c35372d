/**
  The asset cache of src/asset_cache.rs as an object: two cost-based LRU
  tiers (raw bytes, decoded objects) that its methods update in place, a map of
  pinned objects and a map of weak references. Every method is proved against
  the function of AssetSpec that gives its meaning on the cache's contents.
 */
module Assets {
  import opened Wrappers
  import opened LruSpec
  import opened AssetSpec
  import C = CostLru

  class AssetCache<O, E> {
    const config: AssetCacheConfig
    const vfs: Vfs
    const decoder: Decoder<O, E>
    var pinnedEntries: map<Key, O>
    /** Cost of an entry: its reported size in bytes. */
    const bytesCache: C.CostBasedLru<Key, Bytes>
    /** Cost of an entry: the decoder's estimate. */
    const decodedCache: C.CostBasedLru<Key, O>
    /** For each key, the object last handed out; whether it is still alive is not known here. */
    var weakRefs: map<Key, O>

    /** Both tiers are valid LRU caches with the configured budgets, and they are two different objects. */
    ghost predicate Valid()
      reads this, bytesCache, decodedCache
    {
      && ConfigOk(config)
      && bytesCache.Valid() && decodedCache.Valid()
      && bytesCache.maxCost == config.maxBytesCost
      && decodedCache.maxCost == config.maxDecodedCost
      && bytesCache as object != decodedCache as object
    }

    /** Everything the cache holds, as a value. */
    ghost function Abs(): Tiers<O>
      reads this, bytesCache, decodedCache
      requires Valid()
    {
      Tiers(pinnedEntries, bytesCache.Contents(), decodedCache.Contents(), weakRefs)
    }

    /** The contents of a valid cache are well formed and within budget. */
    lemma AbsOk()
      requires Valid()
      ensures TiersOk(config, Abs())
    {
      C.IndexedDistinct(bytesCache.entries, bytesCache.order, bytesCache.index);
      C.IndexedDistinct(decodedCache.entries, decodedCache.order, decodedCache.index);
    }

    /** `new`; the single-object limits must fit in the budgets, or the `expect`s after inserting can fail. */
    constructor (vfs: Vfs, decoder: Decoder<O, E>, config: AssetCacheConfig)
      requires ConfigOk(config)
      ensures Valid() && fresh(bytesCache) && fresh(decodedCache)
      ensures this.vfs == vfs && this.decoder == decoder && this.config == config
      ensures Abs() == Empty()
    {
      this.decoder := decoder;
      this.vfs := vfs;
      bytesCache := new C.CostBasedLru(config.maxBytesCost);
      decodedCache := new C.CostBasedLru(config.maxDecodedCost);
      pinnedEntries := map[];
      weakRefs := map[];
      this.config := config;
    }

    /**
      `search_for_item`: a pinned object, else a decoded one (moved to the
      front of its tier), else a weakly remembered one whose key is in `live`.
     */
    method SearchForItem(key: Key, live: set<Key>) returns (r: Option<O>)
      requires Valid()
      modifies decodedCache
      ensures Valid()
      ensures (Abs(), r) == Search(old(Abs()), live, key)
    {
      if key in pinnedEntries {
        return Some(pinnedEntries[key]);
      }
      r := decodedCache.Get(key);
      if r.None? {
        r := if key in weakRefs && key in live then Some(weakRefs[key]) else None;
      }
    }

    /**
      `find_or_decode_postchecked`: search once more; on a miss open the key,
      ask its size, decode through the bytes tier, and store the outcome.
     */
    method FindOrDecodePostchecked(key: Key, live: set<Key>) returns (r: Result<O, CacheError<E>>)
      requires Valid()
      modifies this, bytesCache, decodedCache
      ensures Valid()
      ensures (Abs(), r) == Postchecked(config, vfs, decoder, live, old(Abs()), key)
    {
      var hit := SearchForItem(key, live);
      if hit.Some? {
        return Success(hit.value);
      }
      var file := vfs.open(key);
      if file.Failure? {
        return Failure(VfsError(file.error));
      }
      var reader := file.value;
      if reader.size.Failure? {
        return Failure(VfsError(reader.size.error));
      }
      var decoded := DecodeBytes(key, reader, reader.size.value);
      if decoded.Failure? {
        return Failure(VfsError(decoded.error));
      }
      r := StoreDecoded(key, decoded.value);
    }

    /**
      The decoding step: small objects go through the bytes tier (reading and
      caching them on a miss), larger ones are decoded from the reader.
     */
    method DecodeBytes(key: Key, reader: Reader, size: nat) returns (r: Result<Result<O, E>, IoError>)
      requires Valid()
      modifies bytesCache
      ensures Valid()
      ensures var d := Decode(config, decoder, old(bytesCache.Contents()), key, reader, size);
        && (d.Failure? ==> r == Failure(d.error) && bytesCache.Contents() == old(bytesCache.Contents()))
        && (d.Success? ==> r == Success(d.value.1) && bytesCache.Contents() == d.value.0)
    {
      if size <= config.maxSingleObjectBytesCost {
        var cachedBytes := bytesCache.Get(key);
        if cachedBytes.Some? {
          return Success(decoder.decode(Success(cachedBytes.value)));
        }
        r := ReadAndCache(key, reader, size);
      } else {
        r := Success(decoder.decode(reader.body));
      }
    }

    /**
      A small object the bytes tier lacks: read it to the end, cache the bytes
      at cost `size`, and decode the cached copy, which the `expect` is proved
      to find.
     */
    method ReadAndCache(key: Key, reader: Reader, size: nat) returns (r: Result<Result<O, E>, IoError>)
      requires Valid() && size <= config.maxSingleObjectBytesCost && !Holds(bytesCache.Contents(), key)
      modifies bytesCache
      ensures Valid()
      ensures reader.body.Failure? ==> r == Failure(reader.body.error) && bytesCache.Contents() == old(bytesCache.Contents())
      ensures reader.body.Success? ==>
        && r == Success(decoder.decode(reader.body))
        && bytesCache.Contents() == Put(old(bytesCache.Contents()), key, reader.body.value, size, config.maxBytesCost)
    {
      if reader.body.Failure? {
        return Failure(reader.body.error);
      }
      ghost var before := bytesCache.Contents();
      C.IndexedDistinct(bytesCache.entries, bytesCache.order, bytesCache.index);
      var dest := reader.body.value;
      var _ := bytesCache.Insert(key, dest, size);
      InsertedFound(before, key, dest, size, config.maxBytesCost);
      var willUse := bytesCache.Get(key);
      assert willUse == Some(dest);
      r := Success(decoder.decode(Success(willUse.value)));
    }

    /**
      The end of the post-checked path: estimate the object's cost, cache it in
      the decoded tier when the cost is within the single-object limit (the
      `expect` after that insert is proved to succeed), and remember it weakly.
     */
    method StoreDecoded(key: Key, decoded: Result<O, E>) returns (r: Result<O, CacheError<E>>)
      requires Valid()
      modifies this, decodedCache
      ensures Valid()
      ensures (Abs(), r) == Store(config, decoder, old(Abs()), key, decoded)
    {
      if decoded.Failure? {
        return Failure(DecoderError(decoded.error));
      }
      var cost := decoder.estimateCost(decoded.value);
      if cost.Failure? {
        return Failure(DecoderError(cost.error));
      }
      var res: O;
      if cost.value <= config.maxSingleObjectDecodedCost {
        res := CacheDecoded(key, decoded.value, cost.value);
      } else {
        res := decoded.value;
      }
      weakRefs := weakRefs[key := res];
      r := Success(res);
    }

    /** An object within the decoded limit goes into the decoded tier, which the `expect` is proved to find it in. */
    method CacheDecoded(key: Key, obj: O, cost: nat) returns (res: O)
      requires Valid() && cost <= config.maxSingleObjectDecodedCost
      modifies decodedCache
      ensures Valid()
      ensures res == obj
      ensures decodedCache.Contents() == Put(old(decodedCache.Contents()), key, obj, cost, config.maxDecodedCost)
    {
      ghost var before := decodedCache.Contents();
      C.IndexedDistinct(decodedCache.entries, decodedCache.order, decodedCache.index);
      var _ := decodedCache.Insert(key, obj, cost);
      InsertedFound(before, key, obj, cost, config.maxDecodedCost);
      var got := decodedCache.Get(key);
      assert got == Some(obj);
      res := got.value;
    }

    /**
      `get`, through `find_or_decode`: search, and on a miss take the
      post-checked path (which, with a single caller, searches again).
     */
    method Get(key: Key, live: set<Key>) returns (r: Result<O, CacheError<E>>)
      requires Valid()
      modifies this, bytesCache, decodedCache
      ensures Valid()
      ensures (Abs(), r) == Fetch(config, vfs, decoder, live, old(Abs()), key)
    {
      var hit := SearchForItem(key, live);
      if hit.Some? {
        return Success(hit.value);
      }
      r := FindOrDecodePostchecked(key, live);
    }

    /** `cache_always`: pin the object and remember it weakly. */
    method CacheAlways(key: Key, value: O)
      requires Valid()
      modifies this
      ensures Valid()
      ensures Abs() == Pin(old(Abs()), key, value)
    {
      pinnedEntries := pinnedEntries[key := value];
      weakRefs := weakRefs[key := value];
    }

    /** `remove`: forget the key in the pinned map, both tiers and the weak map. */
    method Remove(key: Key)
      requires Valid()
      modifies this, bytesCache, decodedCache
      ensures Valid()
      ensures Abs() == Forget(old(Abs()), key)
    {
      pinnedEntries := pinnedEntries - {key};
      var _ := bytesCache.Remove(key);
      var _ := decodedCache.Remove(key);
      weakRefs := weakRefs - {key};
    }
  }

  /** A valid tier after inserting an object no costlier than its budget holds it in front. */
  lemma InsertedFound<V>(s: seq<Entry<Key, V>>, key: Key, v: V, c: nat, max: nat)
    requires DistinctKeys(s) && c <= max
    ensures ValueOf(Put(s, key, v, c, max), key) == Some(v)
    ensures Touch(Put(s, key, v, c, max), key) == Put(s, key, v, c, max)
  {
    PutSpec(s, key, v, c, max);
    TouchFront(Put(s, key, v, c, max), key);
  }
}
