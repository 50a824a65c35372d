/**
  The two scenarios of the tests in src/asset_cache.rs, run on the cache
  object: the configuration of `build_cache` (budgets 50 and 60, single-object
  limits 10 and 12), a Vfs over a map whose sizes are the contents' lengths,
  and a decoder that reads the bytes as they are and costs an object by its
  length. Every search is made with an empty `live` set: the caller keeps no
  object it was handed, so only what the tiers themselves hold is found.
 */
module AssetScenarios {
  import opened Wrappers
  import opened LruSpec
  import opened AssetSpec
  import opened Assets

  /** The bytes of a text whose characters are ASCII. */
  function Text(s: string): Bytes
  {
    seq(|s|, i requires 0 <= i < |s| => ((s[i] as int) % 256) as bv8)
  }

  /** The test Vfs over a map: a missing key is NotFound, and the size is the content's length. */
  function MapVfs(files: map<Key, Bytes>): Vfs
  {
    Vfs(k => if k in files then Success(Reader(Success(|files[k]|), Success(files[k]))) else Failure(NotFound))
  }

  /** The test decoder: the object is the bytes read, and costs its length. */
  function TextDecoder(): Decoder<Bytes, IoError>
  {
    Decoder((s: Stream) => s, (b: Bytes) => Success(|b|))
  }

  function TestConfig(): AssetCacheConfig
  {
    AssetCacheConfig(50, 60, 10, 12)
  }

  const Abc: Bytes := Text("abc")
  const Def: Bytes := Text("def")
  const BasicVfs: Vfs := MapVfs(map["a" := Abc, "b" := Def])
  const BasicA: Tiers<Bytes> := Tiers(map[], [Entry("a", Abc, 3)], [Entry("a", Abc, 3)], map["a" := Abc])
  const BasicAB: Tiers<Bytes> := Tiers(map[],
    [Entry("b", Def, 3)] + BasicA.bytes, [Entry("b", Def, 3)] + BasicA.decoded, BasicA.weak["b" := Def])

  /** Both loads of `basic_ops` are cold and fit in both tiers. */
  lemma BasicLoads()
    ensures Fetch(TestConfig(), BasicVfs, TextDecoder(), {}, Empty(), "a") == (BasicA, Success(Abc))
    ensures Fetch(TestConfig(), BasicVfs, TextDecoder(), {}, BasicA, "b") == (BasicAB, Success(Def))
  {
    ColdFetch(TestConfig(), BasicVfs, TextDecoder(), {}, Empty(), "a", 3, Abc, Abc, 3);
    assert [Entry("a", Abc, 3)] + [] == [Entry("a", Abc, 3)];
    TotalCostCons(Entry("a", Abc, 3), []);
    ColdFetch(TestConfig(), BasicVfs, TextDecoder(), {}, BasicA, "b", 3, Def, Def, 3);
  }

  /** The searches of `basic_ops`: both keys found; after removing `b`, `b` is gone and `a` is found. */
  lemma BasicSearches()
    ensures var u1 := Search(BasicAB, {}, "a");
      var u2 := Search(u1.0, {}, "b");
      var u3 := Search(Forget(u2.0, "b"), {}, "b");
      var u4 := Search(u3.0, {}, "a");
      u1.1 == Some(Abc) && u2.1 == Some(Def) && u3.1 == None && u4.1 == Some(Abc)
  {
    var d := BasicAB.decoded;
    assert d == [Entry("b", Def, 3), Entry("a", Abc, 3)];
    FindDistinct(d, "a", 1);
    SearchDecodedOnly(BasicAB, "a");
    var u1 := Search(BasicAB, {}, "a");
    SearchDecodedOnly(u1.0, "b");
    var u2 := Search(u1.0, {}, "b");
    ForgetSpec(u2.0, "b", {});
    SearchDecodedOnly(Forget(u2.0, "b"), "b");
    var u3 := Search(Forget(u2.0, "b"), {}, "b");
    SearchDecodedOnly(u3.0, "a");
  }

  /**
    `basic_ops`: both objects decode, both are then found; after `remove("b")`
    only `a` is found.
   */
  method BasicOps() returns (a: Result<Bytes, CacheError<IoError>>, b: Result<Bytes, CacheError<IoError>>,
                             foundA: Option<Bytes>, foundB: Option<Bytes>, goneB: Option<Bytes>, keptA: Option<Bytes>)
    ensures a == Success(Abc) && b == Success(Def)
    ensures foundA == Some(Abc) && foundB == Some(Def)
    ensures goneB == None && keptA == Some(Abc)
  {
    var cache := new AssetCache(BasicVfs, TextDecoder(), TestConfig());
    BasicLoads();
    a := cache.Get("a", {});
    b := cache.Get("b", {});
    BasicSearches();
    foundA := cache.SearchForItem("a", {});
    foundB := cache.SearchForItem("b", {});
    cache.Remove("b");
    goneB := cache.SearchForItem("b", {});
    keptA := cache.SearchForItem("a", {});
  }

  const Small: Bytes := Text("abc")
  const MaxBytes: Bytes := Text("abcdefghij")
  const NoCacheBytes: Bytes := Text("abcdefghijk")
  const MaxDecoded: Bytes := Text("abcdefghijkl")
  const NoCache: Bytes := Text("abcdefghijklm")

  const LimitsVfs: Vfs := MapVfs(map["small" := Small, "max_bytes" := MaxBytes, "no_cache_bytes" := NoCacheBytes,
                                     "max_decoded" := MaxDecoded, "no_cache" := NoCache])

  /** The cache after loading, in order, the objects of 3, 10, 12, 13 and 11 bytes. */
  const Loaded1: Tiers<Bytes> := Tiers(map[], [Entry("small", Small, 3)], [Entry("small", Small, 3)], map["small" := Small])
  const Loaded2: Tiers<Bytes> := Tiers(map[],
    [Entry("max_bytes", MaxBytes, 10)] + Loaded1.bytes,
    [Entry("max_bytes", MaxBytes, 10)] + Loaded1.decoded,
    Loaded1.weak["max_bytes" := MaxBytes])
  const Loaded3: Tiers<Bytes> := Tiers(map[], Loaded2.bytes,
    [Entry("max_decoded", MaxDecoded, 12)] + Loaded2.decoded,
    Loaded2.weak["max_decoded" := MaxDecoded])
  const Loaded4: Tiers<Bytes> := Tiers(map[], Loaded3.bytes, Loaded3.decoded, Loaded3.weak["no_cache" := NoCache])
  const Loaded5: Tiers<Bytes> := Tiers(map[], Loaded4.bytes,
    [Entry("no_cache_bytes", NoCacheBytes, 11)] + Loaded4.decoded,
    Loaded4.weak["no_cache_bytes" := NoCacheBytes])

  lemma LoadFirstTwo()
    ensures Fetch(TestConfig(), LimitsVfs, TextDecoder(), {}, Empty(), "small") == (Loaded1, Success(Small))
    ensures Fetch(TestConfig(), LimitsVfs, TextDecoder(), {}, Loaded1, "max_bytes") == (Loaded2, Success(MaxBytes))
  {
    ColdFetch(TestConfig(), LimitsVfs, TextDecoder(), {}, Empty(), "small", 3, Small, Small, 3);
    assert [Entry("small", Small, 3)] + [] == [Entry("small", Small, 3)];
    TotalCostCons(Entry("small", Small, 3), []);
    assert !Holds(Loaded1.decoded, "max_bytes") && !Holds(Loaded1.bytes, "max_bytes");
    ColdFetch(TestConfig(), LimitsVfs, TextDecoder(), {}, Loaded1, "max_bytes", 10, MaxBytes, MaxBytes, 10);
  }

  /** The 12-byte object skips the bytes tier, the 13-byte one both tiers. */
  lemma LoadMiddleTwo()
    ensures Fetch(TestConfig(), LimitsVfs, TextDecoder(), {}, Loaded2, "max_decoded") == (Loaded3, Success(MaxDecoded))
    ensures Fetch(TestConfig(), LimitsVfs, TextDecoder(), {}, Loaded3, "no_cache") == (Loaded4, Success(NoCache))
  {
    TotalCostCons(Entry("small", Small, 3), []);
    TotalCostCons(Entry("max_bytes", MaxBytes, 10), Loaded1.decoded);
    TotalCostCons(Entry("max_decoded", MaxDecoded, 12), Loaded2.decoded);
    assert !Holds(Loaded2.decoded, "max_decoded") && !Holds(Loaded2.bytes, "max_decoded");
    ColdFetch(TestConfig(), LimitsVfs, TextDecoder(), {}, Loaded2, "max_decoded", 12, MaxDecoded, MaxDecoded, 12);
    assert !Holds(Loaded3.decoded, "no_cache") && !Holds(Loaded3.bytes, "no_cache");
    ColdFetch(TestConfig(), LimitsVfs, TextDecoder(), {}, Loaded3, "no_cache", 13, NoCache, NoCache, 13);
  }

  /** The 11-byte object skips the bytes tier but is cached decoded. */
  lemma LoadLast()
    ensures Fetch(TestConfig(), LimitsVfs, TextDecoder(), {}, Loaded4, "no_cache_bytes") == (Loaded5, Success(NoCacheBytes))
  {
    TotalCostCons(Entry("small", Small, 3), []);
    TotalCostCons(Entry("max_bytes", MaxBytes, 10), Loaded1.decoded);
    TotalCostCons(Entry("max_decoded", MaxDecoded, 12), Loaded2.decoded);
    assert !Holds(Loaded4.decoded, "no_cache_bytes") && !Holds(Loaded4.bytes, "no_cache_bytes");
    ColdFetch(TestConfig(), LimitsVfs, TextDecoder(), {}, Loaded4, "no_cache_bytes", 11, NoCacheBytes, NoCacheBytes, 11);
  }

  /** With nothing pinned and nothing alive, a search finds what the decoded tier holds and changes no value. */
  lemma SearchDecodedOnly(t: Tiers<Bytes>, key: Key)
    requires t.pinned == map[] && DistinctKeys(t.decoded)
    ensures Search(t, {}, key).1 == ValueOf(t.decoded, key)
    ensures var u := Search(t, {}, key).0;
      u.pinned == map[] && DistinctKeys(u.decoded) && forall k :: ValueOf(u.decoded, k) == ValueOf(t.decoded, k)
  {
    SearchOrder(t, {}, key);
  }

  /** The decoded tier of the loaded cache, newest first. */
  lemma LoadedDecoded()
    ensures Loaded5.decoded == [Entry("no_cache_bytes", NoCacheBytes, 11), Entry("max_decoded", MaxDecoded, 12),
                                Entry("max_bytes", MaxBytes, 10), Entry("small", Small, 3)]
    ensures DistinctKeys(Loaded5.decoded)
  {
  }

  /** What the decoded tier of the loaded cache holds. */
  lemma LoadedValues()
    ensures DistinctKeys(Loaded5.decoded)
    ensures ValueOf(Loaded5.decoded, "small") == Some(Small)
    ensures ValueOf(Loaded5.decoded, "max_bytes") == Some(MaxBytes)
    ensures ValueOf(Loaded5.decoded, "max_decoded") == Some(MaxDecoded)
    ensures ValueOf(Loaded5.decoded, "no_cache_bytes") == Some(NoCacheBytes)
    ensures ValueOf(Loaded5.decoded, "no_cache") == None
  {
    LoadedDecoded();
    var d := Loaded5.decoded;
    FindDistinct(d, "small", 3);
    FindDistinct(d, "max_bytes", 2);
    FindDistinct(d, "max_decoded", 1);
  }

  /** What the loaded cache holds, whatever the recency order of its decoded tier. */
  predicate HoldsLoaded(t: Tiers<Bytes>)
  {
    && t.pinned == map[] && DistinctKeys(t.decoded)
    && ValueOf(t.decoded, "small") == Some(Small)
    && ValueOf(t.decoded, "max_bytes") == Some(MaxBytes)
    && ValueOf(t.decoded, "max_decoded") == Some(MaxDecoded)
    && ValueOf(t.decoded, "no_cache_bytes") == Some(NoCacheBytes)
    && ValueOf(t.decoded, "no_cache") == None
  }

  /** A search with no object alive finds what the decoded tier holds, and keeps what the loaded cache holds. */
  lemma SearchHoldsLoaded(t: Tiers<Bytes>, key: Key)
    requires HoldsLoaded(t)
    ensures Search(t, {}, key).1 == ValueOf(t.decoded, key)
    ensures HoldsLoaded(Search(t, {}, key).0)
  {
    SearchDecodedOnly(t, key);
  }

  /**
    `test_single_object_limits`: five objects of 3, 10, 12, 13 and 11 bytes
    are loaded. Those of 3 and 10 bytes have their bytes cached; the others
    are over the bytes limit of 10. All but the 13-byte object are cached
    decoded (their costs are within 12), so only that one is not found
    afterwards.
   */
  method SingleObjectLimits() returns (loaded: seq<Result<Bytes, CacheError<IoError>>>, cachedBytes: seq<(Key, Bytes)>, found: seq<Option<Bytes>>)
    ensures loaded == [Success(Small), Success(MaxBytes), Success(MaxDecoded), Success(NoCache), Success(NoCacheBytes)]
    ensures cachedBytes == [("max_bytes", MaxBytes), ("small", Small)]
    ensures found == [Some(Small), Some(MaxBytes), Some(MaxDecoded), Some(NoCacheBytes), None]
  {
    var cache := new AssetCache(LimitsVfs, TextDecoder(), TestConfig());
    loaded := LoadAll(cache);
    cachedBytes := cache.bytesCache.Iter();
    found := SearchAll(cache);
  }

  /** The five searches of `test_single_object_limits`, after loading. */
  method SearchAll(cache: AssetCache<Bytes, IoError>) returns (found: seq<Option<Bytes>>)
    requires cache.Valid() && cache.Abs() == Loaded5
    modifies cache.decodedCache
    ensures found == [Some(Small), Some(MaxBytes), Some(MaxDecoded), Some(NoCacheBytes), None]
  {
    LoadedValues();
    SearchHoldsLoaded(cache.Abs(), "small");
    var s1 := cache.SearchForItem("small", {});
    SearchHoldsLoaded(cache.Abs(), "max_bytes");
    var s2 := cache.SearchForItem("max_bytes", {});
    SearchHoldsLoaded(cache.Abs(), "max_decoded");
    var s3 := cache.SearchForItem("max_decoded", {});
    SearchHoldsLoaded(cache.Abs(), "no_cache_bytes");
    var s4 := cache.SearchForItem("no_cache_bytes", {});
    SearchHoldsLoaded(cache.Abs(), "no_cache");
    var s5 := cache.SearchForItem("no_cache", {});
    found := [s1, s2, s3, s4, s5];
  }

  /** The loop of `test_single_object_limits` that loads the five objects. */
  method LoadAll(cache: AssetCache<Bytes, IoError>) returns (loaded: seq<Result<Bytes, CacheError<IoError>>>)
    requires cache.Valid() && cache.Abs() == Empty()
    requires cache.vfs == LimitsVfs && cache.decoder == TextDecoder() && cache.config == TestConfig()
    modifies cache, cache.bytesCache, cache.decodedCache
    ensures cache.Valid() && cache.Abs() == Loaded5
    ensures loaded == [Success(Small), Success(MaxBytes), Success(MaxDecoded), Success(NoCache), Success(NoCacheBytes)]
  {
    LoadFirstTwo();
    LoadMiddleTwo();
    LoadLast();
    var r1 := cache.Get("small", {});
    var r2 := cache.Get("max_bytes", {});
    var r3 := cache.Get("max_decoded", {});
    var r4 := cache.Get("no_cache", {});
    var r5 := cache.Get("no_cache_bytes", {});
    loaded := [r1, r2, r3, r4, r5];
  }
}
