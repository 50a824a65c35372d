/**
  The meaning of the two-tier asset cache of src/asset_cache.rs, on values.

  An asset is requested by a string key. The cache looks in three places, in
  order: the pinned entries, the tier of decoded objects, and the map of weak
  references to objects handed out earlier. On a miss it opens the key in the
  virtual file system (Vfs), caches the raw bytes in the bytes tier when the
  reported size is small enough, decodes them, and caches the decoded object in
  the decoded tier when its estimated cost is small enough. Both tiers are
  cost-bounded LRU caches, described here by their contents as in LruSpec.
 */
module AssetSpec {
  import opened Wrappers
  import opened LruSpec

  type Key = string
  type Bytes = seq<bv8>

  /** An I/O error of the Vfs or of a reader it opened. */
  datatype IoError = NotFound | Other(message: string)

  /** What reading a byte stream to its end yields: all of its bytes, or the error that stopped it. */
  type Stream = Result<Bytes, IoError>

  /**
    A reader the Vfs opened: what `get_size` reports, and what reading it to
    the end yields (for `read_to_end`, or for a decoder fed the reader directly).
   */
  datatype Reader = Reader(size: Result<nat, IoError>, body: Stream)

  /** The Vfs: what opening each key yields. */
  datatype Vfs = Vfs(open: Key -> Result<Reader, IoError>)

  /**
    The decoder: `decode` turns a stream into an object (it sees the stream's
    read error, if any, and reports its own error type `E`), and `estimateCost`
    says what an object costs in the decoded tier.
   */
  datatype Decoder<!O, E> = Decoder(decode: Stream -> Result<O, E>, estimateCost: O -> Result<nat, E>)

  /** `AssetCacheConfig`: the two tier budgets and the two single-object limits. */
  datatype AssetCacheConfig = AssetCacheConfig(
    maxBytesCost: nat,
    maxDecodedCost: nat,
    maxSingleObjectBytesCost: nat,
    maxSingleObjectDecodedCost: nat)

  /**
    A configuration under which the `expect` after each tier insert cannot
    fail: an object small enough to be cached fits in its tier's budget.
   */
  predicate ConfigOk(cfg: AssetCacheConfig)
  {
    cfg.maxSingleObjectBytesCost <= cfg.maxBytesCost && cfg.maxSingleObjectDecodedCost <= cfg.maxDecodedCost
  }

  /** `CacheError`: the failure of a request, from the Vfs or from the decoder. */
  datatype CacheError<E> = VfsError(io: IoError) | DecoderError(err: E)

  /**
    Everything a cache holds: the pinned objects, the two tiers (most recently
    used first) and the objects last handed out for each key, which the weak
    references point at.
   */
  datatype Tiers<O> = Tiers(
    pinned: map<Key, O>,
    bytes: seq<Entry<Key, Bytes>>,
    decoded: seq<Entry<Key, O>>,
    weak: map<Key, O>)

  /** What every operation keeps: each tier lists a key at most once and stays within its budget. */
  predicate TiersOk<O>(cfg: AssetCacheConfig, t: Tiers<O>)
  {
    && DistinctKeys(t.bytes) && TotalCost(t.bytes) <= cfg.maxBytesCost
    && DistinctKeys(t.decoded) && TotalCost(t.decoded) <= cfg.maxDecodedCost
  }

  /** The empty cache `new` builds. */
  function Empty<O>(): Tiers<O>
  {
    Tiers(map[], [], [], map[])
  }

  // ---------------------------------------------------------------------------
  // The operations

  /**
    `search_for_item`: a pinned object, else the decoded tier (whose `get`
    moves a hit to the front), else the object behind the weak reference if it
    is still alive. Which weak references are alive depends on who else holds
    the objects; `live` says which keys' objects are still held.
   */
  function Search<O>(t: Tiers<O>, live: set<Key>, key: Key): (Tiers<O>, Option<O>)
  {
    if key in t.pinned then (t, Some(t.pinned[key]))
    else
      var touched := t.(decoded := Touch(t.decoded, key));
      match ValueOf(t.decoded, key)
      case Some(x) => (touched, Some(x))
      case None => (touched, if key in t.weak && key in live then Some(t.weak[key]) else None)
  }

  /**
    The end of `find_or_decode_postchecked`: a decoder failure is returned as
    such; otherwise the object's cost is estimated, the object goes into the
    decoded tier when the cost is within the single-object limit, and the
    weak map remembers it.
   */
  function Store<O, E>(cfg: AssetCacheConfig, dec: Decoder<O, E>, t: Tiers<O>, key: Key, decoded: Result<O, E>)
    : (Tiers<O>, Result<O, CacheError<E>>)
  {
    match decoded
    case Failure(e) => (t, Failure(DecoderError(e)))
    case Success(obj) =>
      match dec.estimateCost(obj)
      case Failure(e) => (t, Failure(DecoderError(e)))
      case Success(cost) =>
        var d := if cost <= cfg.maxSingleObjectDecodedCost then Put(t.decoded, key, obj, cost, cfg.maxDecodedCost) else t.decoded;
        (t.(decoded := d, weak := t.weak[key := obj]), Success(obj))
  }

  /**
    The decoding step of `find_or_decode_postchecked`, given the opened reader
    and its reported size: when the size is within the single-object limit,
    decode the cached bytes if the bytes tier has them, or else read the
    reader to the end, cache those bytes at cost `size` and decode them; a
    larger object is decoded from the reader directly, leaving the bytes tier
    alone. The result is the new bytes tier and the decoder's outcome, or the
    read error.
   */
  function Decode<O, E>(cfg: AssetCacheConfig, dec: Decoder<O, E>, bytes: seq<Entry<Key, Bytes>>, key: Key, reader: Reader, size: nat)
    : Result<(seq<Entry<Key, Bytes>>, Result<O, E>), IoError>
  {
    if size <= cfg.maxSingleObjectBytesCost then
      match ValueOf(bytes, key)
      case Some(x) => Success((Touch(bytes, key), dec.decode(Success(x))))
      case None =>
        match reader.body
        case Failure(e) => Failure(e)
        case Success(dest) => Success((Put(bytes, key, dest, size, cfg.maxBytesCost), dec.decode(Success(dest))))
    else Success((bytes, dec.decode(reader.body)))
  }

  /**
    The load path of `find_or_decode_postchecked`, once the search missed:
    open the key, ask its size, decode, and store the outcome. Any Vfs failure
    is a Vfs error.
   */
  function Load<O, E>(cfg: AssetCacheConfig, vfs: Vfs, dec: Decoder<O, E>, t: Tiers<O>, key: Key)
    : (Tiers<O>, Result<O, CacheError<E>>)
  {
    match vfs.open(key)
    case Failure(e) => (t, Failure(VfsError(e)))
    case Success(reader) =>
      match reader.size
      case Failure(e) => (t, Failure(VfsError(e)))
      case Success(size) =>
        match Decode(cfg, dec, t.bytes, key, reader, size)
        case Failure(e) => (t, Failure(VfsError(e)))
        case Success(d) => Store(cfg, dec, t.(bytes := d.0), key, d.1)
  }

  /** `find_or_decode_postchecked`: search once more, and load on a miss. */
  function Postchecked<O, E>(cfg: AssetCacheConfig, vfs: Vfs, dec: Decoder<O, E>, live: set<Key>, t: Tiers<O>, key: Key)
    : (Tiers<O>, Result<O, CacheError<E>>)
  {
    var s := Search(t, live, key);
    match s.1
    case Some(x) => (s.0, Success(x))
    case None => Load(cfg, vfs, dec, s.0, key)
  }

  /** `get`, that is `find_or_decode`: search, and on a miss run the post-checked path. */
  function Fetch<O, E>(cfg: AssetCacheConfig, vfs: Vfs, dec: Decoder<O, E>, live: set<Key>, t: Tiers<O>, key: Key)
    : (Tiers<O>, Result<O, CacheError<E>>)
  {
    var s := Search(t, live, key);
    match s.1
    case Some(x) => (s.0, Success(x))
    case None => Postchecked(cfg, vfs, dec, live, s.0, key)
  }

  /** `cache_always`: pin the object, and remember it weakly too. */
  function Pin<O>(t: Tiers<O>, key: Key, value: O): Tiers<O>
  {
    t.(pinned := t.pinned[key := value], weak := t.weak[key := value])
  }

  /** `remove`: forget the key everywhere. */
  function Forget<O>(t: Tiers<O>, key: Key): Tiers<O>
  {
    Tiers(t.pinned - {key}, Without(t.bytes, key), Without(t.decoded, key), t.weak - {key})
  }

  // ---------------------------------------------------------------------------
  // Searching

  /**
    The lookup order: a pinned object wins over the decoded tier, which wins
    over the weak map; the search changes no tier's contents, only the recency
    of a decoded hit.
   */
  lemma SearchOrder<O>(t: Tiers<O>, live: set<Key>, key: Key)
    requires DistinctKeys(t.decoded)
    ensures key in t.pinned ==> Search(t, live, key) == (t, Some(t.pinned[key]))
    ensures key !in t.pinned && Holds(t.decoded, key) ==> Search(t, live, key).1 == ValueOf(t.decoded, key)
    ensures key !in t.pinned && !Holds(t.decoded, key) ==>
      Search(t, live, key) == (t, if key in t.weak && key in live then Some(t.weak[key]) else None)
    ensures var u := Search(t, live, key).0;
      && u.pinned == t.pinned && u.bytes == t.bytes && u.weak == t.weak
      && DistinctKeys(u.decoded) && TotalCost(u.decoded) == TotalCost(t.decoded)
      && forall k :: ValueOf(u.decoded, k) == ValueOf(t.decoded, k)
    ensures key !in t.pinned ==> Search(t, live, key).0.decoded == Touch(t.decoded, key)
    ensures key !in t.pinned && Holds(t.decoded, key) ==> Search(t, live, key).0.decoded[0].key == key
    ensures multiset(Search(t, live, key).0.decoded) == multiset(t.decoded)
  {
    TouchSpec(t.decoded, key);
    TouchPermutes(t.decoded, key);
  }

  /** A search that misses finds nothing and changes nothing, so a second search misses too. */
  lemma SearchMiss<O>(t: Tiers<O>, live: set<Key>, key: Key)
    requires Search(t, live, key).1.None?
    ensures Search(t, live, key).0 == t
    ensures Search(Search(t, live, key).0, live, key) == (t, None)
  {
  }

  /** On a hit, `get` returns the object found, whatever the Vfs and the decoder would do. */
  lemma HitSkipsLoad<O, E>(cfg: AssetCacheConfig, vfs: Vfs, dec: Decoder<O, E>, live: set<Key>, t: Tiers<O>, key: Key)
    requires Search(t, live, key).1.Some?
    ensures Fetch(cfg, vfs, dec, live, t, key) == (Search(t, live, key).0, Success(Search(t, live, key).1.value))
  {
  }

  /** On a miss, `get` is exactly one load from the unchanged cache. */
  lemma MissLoads<O, E>(cfg: AssetCacheConfig, vfs: Vfs, dec: Decoder<O, E>, live: set<Key>, t: Tiers<O>, key: Key)
    requires Search(t, live, key).1.None?
    ensures Fetch(cfg, vfs, dec, live, t, key) == Load(cfg, vfs, dec, t, key)
  {
    SearchMiss(t, live, key);
  }

  // ---------------------------------------------------------------------------
  // Loading

  /** Store keeps the pinned objects and the bytes tier, and caches and remembers exactly what it returns. */
  lemma StoreSpec<O, E>(cfg: AssetCacheConfig, dec: Decoder<O, E>, t: Tiers<O>, key: Key, decoded: Result<O, E>)
    requires ConfigOk(cfg) && DistinctKeys(t.decoded) && TotalCost(t.decoded) <= cfg.maxDecodedCost
    ensures var (u, r) := Store(cfg, dec, t, key, decoded);
      && u.pinned == t.pinned && u.bytes == t.bytes
      && DistinctKeys(u.decoded) && TotalCost(u.decoded) <= cfg.maxDecodedCost
      && (r.Failure? ==> r.error.DecoderError? && u == t)
      && (r.Success? ==>
            && decoded == Success(r.value) && dec.estimateCost(r.value).Success?
            && u.weak == t.weak[key := r.value]
            && (!Holds(t.decoded, key) ==>
                  (Holds(u.decoded, key) <==> dec.estimateCost(r.value).value <= cfg.maxSingleObjectDecodedCost))
            && (dec.estimateCost(r.value).value <= cfg.maxSingleObjectDecodedCost ==> ValueOf(u.decoded, key) == Some(r.value))
            && forall k :: k != key && Holds(u.decoded, k) ==> ValueOf(u.decoded, k) == ValueOf(t.decoded, k))
  {
    if decoded.Success? && dec.estimateCost(decoded.value).Success? {
      var obj, cost := decoded.value, dec.estimateCost(decoded.value).value;
      if cost <= cfg.maxSingleObjectDecodedCost {
        PutSpec(t.decoded, key, obj, cost, cfg.maxDecodedCost);
        forall k | k != key
          ensures Holds(Put(t.decoded, key, obj, cost, cfg.maxDecodedCost), k) ==>
            ValueOf(Put(t.decoded, key, obj, cost, cfg.maxDecodedCost), k) == ValueOf(t.decoded, k)
        {
          PutOthers(t.decoded, key, obj, cost, cfg.maxDecodedCost, k);
        }
      }
    }
  }

  /**
    The bytes tier after a load: an object whose reported size is over the
    single-object limit never touches it; a smaller one it already holds is
    moved to the front; a smaller one it lacks is read and cached under its
    reported size, and nothing is cached when the read fails.
   */
  lemma LoadBytes<O, E>(cfg: AssetCacheConfig, vfs: Vfs, dec: Decoder<O, E>, t: Tiers<O>, key: Key)
    requires ConfigOk(cfg) && TiersOk(cfg, t)
    requires vfs.open(key).Success? && vfs.open(key).value.size.Success?
    ensures var reader := vfs.open(key).value;
      var size := reader.size.value;
      var u := Load(cfg, vfs, dec, t, key).0;
      && (size > cfg.maxSingleObjectBytesCost ==> u.bytes == t.bytes)
      && (size <= cfg.maxSingleObjectBytesCost && Holds(t.bytes, key) ==> u.bytes == Touch(t.bytes, key))
      && (size <= cfg.maxSingleObjectBytesCost && !Holds(t.bytes, key) && reader.body.Failure? ==> u == t)
      && (size <= cfg.maxSingleObjectBytesCost && !Holds(t.bytes, key) && reader.body.Success? ==>
            && u.bytes[0] == Entry(key, reader.body.value, size)
            && u.bytes == Put(t.bytes, key, reader.body.value, size, cfg.maxBytesCost))
  {
    var reader := vfs.open(key).value;
    var size := reader.size.value;
    if size <= cfg.maxSingleObjectBytesCost && !Holds(t.bytes, key) && reader.body.Success? {
      var b := Put(t.bytes, key, reader.body.value, size, cfg.maxBytesCost);
      PutSpec(t.bytes, key, reader.body.value, size, cfg.maxBytesCost);
      StoreSpec(cfg, dec, t.(bytes := b), key, dec.decode(Success(reader.body.value)));
    } else if size <= cfg.maxSingleObjectBytesCost && Holds(t.bytes, key) {
      StoreSpec(cfg, dec, t.(bytes := Touch(t.bytes, key)), key, dec.decode(Success(ValueOf(t.bytes, key).value)));
    } else if size > cfg.maxSingleObjectBytesCost {
      StoreSpec(cfg, dec, t, key, dec.decode(reader.body));
    }
  }

  /**
    When the bytes tier already holds a small enough object, the load decodes
    the cached bytes: what the reader would yield does not matter, so it is
    never read.
   */
  lemma CachedBytesUsed<O, E>(cfg: AssetCacheConfig, vfs: Vfs, vfs2: Vfs, dec: Decoder<O, E>, t: Tiers<O>, key: Key)
    requires vfs.open(key).Success? && vfs.open(key).value.size.Success?
    requires vfs2.open(key).Success? && vfs2.open(key).value.size == vfs.open(key).value.size
    requires vfs.open(key).value.size.value <= cfg.maxSingleObjectBytesCost && Holds(t.bytes, key)
    ensures Load(cfg, vfs, dec, t, key) == Load(cfg, vfs2, dec, t, key)
    ensures Load(cfg, vfs, dec, t, key)
         == Store(cfg, dec, t.(bytes := Touch(t.bytes, key)), key, dec.decode(Success(ValueOf(t.bytes, key).value)))
  {
  }

  /** Whether a load fails in the Vfs: `open` or `get_size` fails, or the read it needs fails. */
  predicate VfsFails(cfg: AssetCacheConfig, vfs: Vfs, bytes: seq<Entry<Key, Bytes>>, key: Key)
  {
    || vfs.open(key).Failure?
    || vfs.open(key).value.size.Failure?
    || (&& vfs.open(key).value.size.value <= cfg.maxSingleObjectBytesCost
        && !Holds(bytes, key)
        && vfs.open(key).value.body.Failure?)
  }

  /**
    Each Vfs failure is reported as a Vfs error carrying the I/O error, and
    changes nothing; and a Vfs error is reported only for a Vfs failure.
   */
  lemma LoadVfsErrors<O, E>(cfg: AssetCacheConfig, vfs: Vfs, dec: Decoder<O, E>, t: Tiers<O>, key: Key)
    ensures vfs.open(key).Failure? ==> Load(cfg, vfs, dec, t, key) == (t, Failure(VfsError(vfs.open(key).error)))
    ensures vfs.open(key).Success? && vfs.open(key).value.size.Failure? ==>
      Load(cfg, vfs, dec, t, key) == (t, Failure(VfsError(vfs.open(key).value.size.error)))
    ensures VfsFails(cfg, vfs, t.bytes, key) && vfs.open(key).Success? && vfs.open(key).value.size.Success? ==>
      Load(cfg, vfs, dec, t, key) == (t, Failure(VfsError(vfs.open(key).value.body.error)))
    ensures !VfsFails(cfg, vfs, t.bytes, key) ==> !(Load(cfg, vfs, dec, t, key).1.Failure? && Load(cfg, vfs, dec, t, key).1.error.VfsError?)
  {
  }

  /**
    Unless the Vfs fails, a load hands Store a bytes tier that is still well
    formed and within budget, together with the decoder's outcome.
   */
  lemma LoadStages<O, E>(cfg: AssetCacheConfig, vfs: Vfs, dec: Decoder<O, E>, t: Tiers<O>, key: Key)
    returns (b: seq<Entry<Key, Bytes>>, decoded: Result<O, E>)
    requires ConfigOk(cfg) && TiersOk(cfg, t)
    requires !VfsFails(cfg, vfs, t.bytes, key)
    ensures Load(cfg, vfs, dec, t, key) == Store(cfg, dec, t.(bytes := b), key, decoded)
    ensures DistinctKeys(b) && TotalCost(b) <= cfg.maxBytesCost
  {
    var reader := vfs.open(key).value;
    var size := reader.size.value;
    if size <= cfg.maxSingleObjectBytesCost {
      if Holds(t.bytes, key) {
        TouchSpec(t.bytes, key);
        b, decoded := Touch(t.bytes, key), dec.decode(Success(ValueOf(t.bytes, key).value));
      } else {
        PutSpec(t.bytes, key, reader.body.value, size, cfg.maxBytesCost);
        b, decoded := Put(t.bytes, key, reader.body.value, size, cfg.maxBytesCost), dec.decode(Success(reader.body.value));
      }
    } else {
      b, decoded := t.bytes, dec.decode(reader.body);
    }
  }

  /**
    What a load leaves behind: the tiers stay well formed and within budget and
    the pinned objects are untouched. A Vfs error leaves the cache as it was; a
    decode or cost-estimate failure is a decoder error, and leaves everything
    but the bytes tier as it was (the bytes were cached before decoding). A
    success is remembered weakly, and is cached in the decoded tier exactly when
    its cost is within the single-object limit. No other key's decoded object
    changes.
   */
  lemma LoadOutcome<O, E>(cfg: AssetCacheConfig, vfs: Vfs, dec: Decoder<O, E>, t: Tiers<O>, key: Key)
    requires ConfigOk(cfg) && TiersOk(cfg, t)
    ensures var (u, r) := Load(cfg, vfs, dec, t, key);
      && TiersOk(cfg, u) && u.pinned == t.pinned
      && (r.Failure? && r.error.VfsError? ==> u == t)
      && (r.Failure? && r.error.DecoderError? ==> u.decoded == t.decoded && u.weak == t.weak)
      && (r.Success? ==>
            && dec.estimateCost(r.value).Success?
            && u.weak == t.weak[key := r.value]
            && (!Holds(t.decoded, key) ==>
                  (Holds(u.decoded, key) <==> dec.estimateCost(r.value).value <= cfg.maxSingleObjectDecodedCost))
            && (dec.estimateCost(r.value).value <= cfg.maxSingleObjectDecodedCost ==> ValueOf(u.decoded, key) == Some(r.value)))
      && (forall k :: k != key && Holds(u.decoded, k) ==> ValueOf(u.decoded, k) == ValueOf(t.decoded, k))
  {
    if !VfsFails(cfg, vfs, t.bytes, key) {
      var b, decoded := LoadStages(cfg, vfs, dec, t, key);
      StoreSpec(cfg, dec, t.(bytes := b), key, decoded);
    }
  }

  /**
    A cold `get` (the key is not pinned, not in the decoded tier, not in the
    bytes tier and not alive in the weak map) of a readable object, when both
    tiers have room for what they would take, evicts nothing: the bytes go in
    front of the bytes tier exactly when the reported size is within the bytes
    limit, the object goes in front of the decoded tier exactly when its cost
    is within the decoded limit, and the object is returned and remembered.
   */
  lemma ColdFetch<O, E>(cfg: AssetCacheConfig, vfs: Vfs, dec: Decoder<O, E>, live: set<Key>, t: Tiers<O>, key: Key,
                        n: nat, b: Bytes, o: O, m: nat)
    requires key !in t.pinned && !Holds(t.decoded, key) && !Holds(t.bytes, key) && !(key in t.weak && key in live)
    requires vfs.open(key) == Success(Reader(Success(n), Success(b)))
    requires dec.decode(Success(b)) == Success(o) && dec.estimateCost(o) == Success(m)
    requires n <= cfg.maxSingleObjectBytesCost ==> TotalCost(t.bytes) + n <= cfg.maxBytesCost
    requires m <= cfg.maxSingleObjectDecodedCost ==> TotalCost(t.decoded) + m <= cfg.maxDecodedCost
    ensures Fetch(cfg, vfs, dec, live, t, key) == (
      Tiers(t.pinned,
            if n <= cfg.maxSingleObjectBytesCost then [Entry(key, b, n)] + t.bytes else t.bytes,
            if m <= cfg.maxSingleObjectDecodedCost then [Entry(key, o, m)] + t.decoded else t.decoded,
            t.weak[key := o]),
      Success(o))
  {
    MissLoads(cfg, vfs, dec, live, t, key);
    if n <= cfg.maxSingleObjectBytesCost {
      PutFits(t.bytes, key, b, n, cfg.maxBytesCost);
    }
    if m <= cfg.maxSingleObjectDecodedCost {
      PutFits(t.decoded, key, o, m, cfg.maxDecodedCost);
    }
  }

  /** `get` keeps every tier well formed and within budget, and never changes the pinned objects. */
  lemma FetchKeepsOk<O, E>(cfg: AssetCacheConfig, vfs: Vfs, dec: Decoder<O, E>, live: set<Key>, t: Tiers<O>, key: Key)
    requires ConfigOk(cfg) && TiersOk(cfg, t)
    ensures TiersOk(cfg, Fetch(cfg, vfs, dec, live, t, key).0)
    ensures Fetch(cfg, vfs, dec, live, t, key).0.pinned == t.pinned
  {
    SearchOrder(t, live, key);
    if Search(t, live, key).1.None? {
      MissLoads(cfg, vfs, dec, live, t, key);
      LoadOutcome(cfg, vfs, dec, t, key);
    }
  }

  // ---------------------------------------------------------------------------
  // Pinning and removal

  /** After `cache_always(k, v)` a search for `k` finds `v`, whatever the tiers and the weak references hold. */
  lemma PinFound<O>(t: Tiers<O>, key: Key, value: O, live: set<Key>)
    ensures Search(Pin(t, key, value), live, key) == (Pin(t, key, value), Some(value))
  {
  }

  /** After `remove(k)` nothing is found for `k`, and every other key is found as before. */
  lemma ForgetSpec<O>(t: Tiers<O>, key: Key, live: set<Key>)
    requires DistinctKeys(t.bytes) && DistinctKeys(t.decoded)
    ensures Search(Forget(t, key), live, key).1 == None
    ensures !Holds(Forget(t, key).bytes, key) && !Holds(Forget(t, key).decoded, key)
    ensures forall k :: k != key ==> Search(Forget(t, key), live, k).1 == Search(t, live, k).1
    ensures forall k :: k != key ==> ValueOf(Forget(t, key).bytes, k) == ValueOf(t.bytes, k)
  {
    WithoutSpec(t.bytes, key);
    WithoutSpec(t.decoded, key);
  }

  /** `remove` keeps every tier well formed and within budget. */
  lemma ForgetKeepsOk<O>(cfg: AssetCacheConfig, t: Tiers<O>, key: Key)
    requires TiersOk(cfg, t)
    ensures TiersOk(cfg, Forget(t, key))
  {
    WithoutSpec(t.bytes, key);
    WithoutSpec(t.decoded, key);
  }

  // ---------------------------------------------------------------------------
  // Sequences of calls

  /** A call on the cache's public interface; a `get` names which weak references are alive at that moment. */
  datatype Call<O> = Get(key: Key, live: set<Key>) | CacheAlways(key: Key, value: O) | Remove(key: Key)

  /** The cache after a sequence of calls, in order. */
  function Run<O, E>(cfg: AssetCacheConfig, vfs: Vfs, dec: Decoder<O, E>, t: Tiers<O>, calls: seq<Call<O>>): Tiers<O>
    decreases |calls|
  {
    if calls == [] then t
    else
      var u := match calls[0]
        case Get(k, live) => Fetch(cfg, vfs, dec, live, t, k).0
        case CacheAlways(k, v) => Pin(t, k, v)
        case Remove(k) => Forget(t, k);
      Run(cfg, vfs, dec, u, calls[1..])
  }

  /**
    A pinned object stays pinned, and is what every search for its key finds,
    through any calls that neither remove nor re-pin that key: LRU eviction in
    either tier never reaches it.
   */
  lemma {:induction false} PinnedSurvives<O, E>(cfg: AssetCacheConfig, vfs: Vfs, dec: Decoder<O, E>, t: Tiers<O>, calls: seq<Call<O>>, key: Key, live: set<Key>)
    requires ConfigOk(cfg) && TiersOk(cfg, t) && key in t.pinned
    requires forall i :: 0 <= i < |calls| ==> calls[i].Get? || calls[i].key != key
    ensures TiersOk(cfg, Run(cfg, vfs, dec, t, calls))
    ensures key in Run(cfg, vfs, dec, t, calls).pinned
    ensures Search(Run(cfg, vfs, dec, t, calls), live, key).1 == Some(t.pinned[key])
    decreases |calls|
  {
    if calls != [] {
      var u := match calls[0]
        case Get(k, l) => Fetch(cfg, vfs, dec, l, t, k).0
        case CacheAlways(k, v) => Pin(t, k, v)
        case Remove(k) => Forget(t, k);
      match calls[0] {
        case Get(k, l) => FetchKeepsOk(cfg, vfs, dec, l, t, k);
        case CacheAlways(k, v) =>
        case Remove(k) => ForgetKeepsOk(cfg, t, k);
      }
      assert key in u.pinned && u.pinned[key] == t.pinned[key];
      assert forall i :: 0 <= i < |calls[1..]| ==> calls[1..][i] == calls[i + 1];
      PinnedSurvives(cfg, vfs, dec, u, calls[1..], key, live);
    }
  }
}
