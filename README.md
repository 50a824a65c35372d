# asset_lru in Dafny

A verified model of the core of `asset_lru`, a Rust library with two parts.

## What is modelled

- **`CostBasedLru` (src/cost_based_lru.rs).** An LRU cache bounded by the total cost of its entries, not by their number.
  - Module `CostLru` models it as a class with the source's fields:
    - the slot vector `entries`, a growable `Vec` of `Occupied` / `Empty` slots, as a `seq` field;
    - the key→slot `index`;
    - `entriesHead`, `entriesTail`, `emptyHead`, `currentCost` and `maxCost`.
  - Every method relinks those fields in place, statement for statement as the Rust code does, with one deliberate exception. `MakeMostRecent` also sets the moved entry's `prev` to `None`, which src/cost_based_lru.rs:116-128 never does (see Findings). So the class is the corrected cache, and every property proved about it is about the corrected code.
  - Two ghost fields tie the raw links to a value:
    - `order`, the slots of the recency list, most recent first;
    - `free`, the free list.
  - `Wellformed()` states the structural invariant:
    - every slot is on exactly one of the two lists;
    - prev/next links agree with `order`;
    - the head's `prev` and the tail's `next` are `None`;
    - every free slot is `Empty`;
    - `index` maps each key to the occupied slot holding it;
    - `currentCost` is the sum of the entries' costs.
  - `Valid()` adds `currentCost <= maxCost`.
  - `Contents()` is the cache as a list of `Entry(key, value, cost)`, most recent first.
  - Each public method is proved against a function of module `LruSpec`:
    - `get` against `Touch` and `ValueOf`;
    - `remove` against `Without`;
    - `insert` against `Put`;
    - `maybe_evict` against `Evict`.
  - `LruSpec`'s lemmas prove what those functions promise: cost bounds, distinct keys, survival of the new entry, and unchanged other keys.
- **Conformance with a bounded LRU.** Module `LruReference` models the property test at src/cost_based_lru.rs:266-291.
  - It gives an independent model of the `lru` crate's `LruCache`: a capacity, a recency list of keys and a key→value map.
  - It proves that, with every cost 1 and `max_cost` equal to the capacity, the corrected cache of `CostLru` and `LruCache` answer every sequence of put/get/delete commands identically.
  - The code as written does not have this property. After the seven calls of `LruFinding.StaleTailCounterexample` with bound 2, a `get(3)` returns `None` where `LruCache` returns `Some(30)`.
- **The sequential logic of `AssetCache` (src/asset_cache.rs).**
  - Module `AssetSpec` states the behaviour on values:
    - the lookup order: pinned, then the decoded tier, then weak references;
    - the decode-on-miss path through the bytes tier;
    - the two single-object limits;
    - the mapping of errors to `CacheError`;
    - `cache_always` and `remove`.
  - Module `Assets` is the cache as a class that owns two `CostBasedLru` objects. Each method there is proved to compute exactly the `AssetSpec` function of the old contents.
  - The Vfs is a total function from key to the outcome of `open`:
    - `Reader(size, body)` gives the outcome of `get_size` and of reading the whole stream.
    - The decoder is a pair of total functions, `decode` and `estimateCost`, shaped like the test decoder.
- **Tests.** Modules `LruScenarios`, `LruFinding` and `AssetScenarios` restate the repository's tests as proved scenarios:
  - `test_eviction`;
  - `basic_ops`;
  - `test_single_object_limits`;
  - a counterexample to the code as written (see Findings).

## Behaviour worth knowing

- **Oversized insert.** An `insert` of an entry costlier than `max_cost` first removes the key's old entry (src/cost_based_lru.rs:177). It then links the new entry in front. The eviction loop then drops every entry, the new one included (src/cost_based_lru.rs:207-216), so the cache ends empty. `LruSpec.PutSpec` states this.
- **Bytes cached before decoding.** For an object within `max_single_object_bytes_cost` that the bytes tier lacks, the bytes read are inserted into the bytes tier before decoding (src/asset_cache.rs:123-130). A decoder failure therefore leaves those bytes cached. `AssetSpec.LoadOutcome` states that a decoder error changes only the bytes tier.
- **`get_size`.** src/traits.rs:38 declares it as returning an optional size, but src/asset_cache.rs:110-111 uses the result as a plain `u64`. The model follows the use in src/asset_cache.rs: a size or an I/O error.

## Model

| member | source | states |
|---|---|---|
| CostLru.CostBasedLru.constructor | src/cost_based_lru.rs:73-83 | a new cache is valid, empty, has the given budget and no slots |
| CostLru.CostBasedLru.UnlinkIndex | src/cost_based_lru.rs:87-113 | the slot leaves the recency list, the other links stay consistent with the shortened order, no slot's key, value or cost changes |
| CostLru.CostBasedLru.MakeMostRecent | src/cost_based_lru.rs:116-128 | the slot moves to the front of the recency list and the head's `prev` is `None` afterwards (the corrected version, see Findings) |
| CostLru.CostBasedLru.Get | src/cost_based_lru.rs:130-134 | returns the key's value or `None`; the contents become `Touch` of the old ones (a hit moves to the front, a miss changes nothing); validity kept |
| CostLru.CostBasedLru.BecomeEmpty | src/cost_based_lru.rs:137-154 | the entry leaves the contents, its value is returned, its slot heads the free list, its cost is subtracted, the structure stays well formed |
| CostLru.CostBasedLru.Remove | src/cost_based_lru.rs:156-160 | returns the old value or `None`; the contents become `Without(old, key)` |
| CostLru.CostBasedLru.FindEmpty | src/cost_based_lru.rs:163-172 | returns an empty slot on neither list: the first free slot when there is one, else a new slot appended to the vector; contents unchanged |
| CostLru.CostBasedLru.Insert | src/cost_based_lru.rs:175-204 | returns the key's previous value; the contents become `Put(old, key, value, cost, maxCost)`; the cache is valid, so within budget |
| CostLru.CostBasedLru.LinkAtHead | src/cost_based_lru.rs:178-200 | the new entry is linked in front in the given empty slot, indexed, and its cost added; the structure stays well formed |
| CostLru.CostBasedLru.MaybeEvict | src/cost_based_lru.rs:207-216 | from a well-formed state, evicting from the tail leaves `Evict(old, maxCost)`: within budget |
| CostLru.CostBasedLru.Iter | src/cost_based_lru.rs:219-227 | walking `next` from the head yields exactly the key/value pairs of the contents, most recent first |
| CostLru.IndexedDistinct | src/cost_based_lru.rs:59-62 | a consistent key→slot index makes the keys of the contents distinct |
| LruSpec.Evict | src/cost_based_lru.rs:207-216 | the result is the longest prefix of the list within budget: the least recent entries go, and keeping one more would exceed the budget |
| LruSpec.TotalCostRemoveAt | src/cost_based_lru.rs:149 | taking out an entry lowers the total cost by exactly its cost |
| LruSpec.WithoutSpec | src/cost_based_lru.rs:156-160 | after `remove(k)` keys stay distinct, `k` is absent, every other key keeps its value, the cost drops by `k`'s cost, and an absent `k` changes nothing |
| LruSpec.TouchPermutes | src/cost_based_lru.rs:130-134 | `get` only reorders: the entries form the same multiset |
| LruSpec.TouchSpec | src/cost_based_lru.rs:130-134 | `get(k)` keeps distinct keys, total cost and every key's value; on a hit `k`'s entry is first and the rest is `Without(s, k)`; a miss changes nothing |
| LruSpec.TouchFront | src/cost_based_lru.rs:116-128 | a `get` of the most recent key changes nothing |
| LruSpec.PutSpec | src/cost_based_lru.rs:175-216 | after `insert`: within budget, keys distinct, `k` present iff `cost <= maxCost` and then first with the new value; a costlier entry empties the cache; the rest is a prefix of the old list without `k` |
| LruSpec.PutFits | src/cost_based_lru.rs:175-204 | inserting a new key that fits the budget evicts nothing |
| LruSpec.PutOthers | src/cost_based_lru.rs:175-204 | an `insert` never changes the value of another key that survives it |
| LruReference.PutMatches | src/cost_based_lru.rs:282 | `LruCache.put` and the unit-cost `insert` return the same old value and leave the same entries |
| LruReference.GetMatches | src/cost_based_lru.rs:277-280 | `LruCache.get` and `get` return the same value and leave the same entries |
| LruReference.PopMatches | src/cost_based_lru.rs:283 | `LruCache.pop` and `remove` return the same value and leave the same entries |
| LruReference.RunsAgree | src/cost_based_lru.rs:266-291 | for every command sequence, the bounded LRU and the unit-cost cost-based LRU give the same answers |
| LruReference.Replay | src/cost_based_lru.rs:273-284 | running the commands on a `CostBasedLru` object gives the answers `RunSpec` predicts |
| LruReference.AgainstLruCache | src/cost_based_lru.rs:266-291 | for every bound of at least 1 and every command sequence, the object's answers equal the bounded LRU's |
| LruScenarios.FirstFour | src/cost_based_lru.rs:298-302 | inserts of costs 1 to 4 with budget 10 evict nothing |
| LruScenarios.LastInsert | src/cost_based_lru.rs:303 | the fifth insert, of cost 5, evicts entries 1, 2 and 3 |
| LruScenarios.FiveInserts | src/cost_based_lru.rs:297-303 | the five inserts leave entries 5 and 4 |
| LruScenarios.EvictionScenario | src/cost_based_lru.rs:297-310 | `test_eviction` on the object: `iter` yields `[(5, 5), (4, 4)]` |
| LruScenarios.StaleTailScenario | src/cost_based_lru.rs:116-128 | the counterexample's calls on the corrected object leave the two most recent entries, d then c |
| LruFinding.New | src/cost_based_lru.rs:73-83 | defines `new` on raw fields; used by `LruFinding.StaleTailCounterexample` |
| LruFinding.UnlinkIndex | src/cost_based_lru.rs:87-113 | defines `unlink_index` as written, `None` where it panics; its consequences are proved in `LruFinding.StaleTailCounterexample` |
| LruFinding.MakeMostRecent | src/cost_based_lru.rs:116-128 | defines `make_most_recent` as written, the moved entry keeping its `prev`; the stale tail it causes is proved in `LruFinding.StaleTailCounterexample` |
| LruFinding.Get | src/cost_based_lru.rs:130-134 | defines the state after `get` as written; used by `LruFinding.StaleTailCounterexample` |
| LruFinding.BecomeEmpty | src/cost_based_lru.rs:137-154 | defines `become_empty` as written; used by `LruFinding.StaleTailCounterexample` |
| LruFinding.Remove | src/cost_based_lru.rs:156-160 | defines the state after `remove` as written; used by `LruFinding.StaleTailCounterexample` |
| LruFinding.FindEmpty | src/cost_based_lru.rs:163-172 | defines `find_empty` as written: pop the free list, else push an empty slot; used by `LruFinding.StaleTailCounterexample` |
| LruFinding.Insert | src/cost_based_lru.rs:175-204 | defines the state after `insert` as written; used by `LruFinding.StaleTailCounterexample` |
| LruFinding.MaybeEvict | src/cost_based_lru.rs:207-216 | defines the eviction loop as written, evicting the slot named by the tail pointer, with a fuel bound; used by `LruFinding.StaleTailCounterexample` |
| LruFinding.Walk | src/cost_based_lru.rs:219-227 | defines the keys `iter` visits along the `next` links; the as-written end state is computed in `LruFinding.FinalWalk` |
| LruFinding.FinalWalk | src/cost_based_lru.rs:219-227 | in the as-written end state, `iter` visits d and then a |
| LruFinding.StaleTailCounterexample | src/cost_based_lru.rs:87-128 | as written, seven calls leave the tail naming a free slot, and a later eviction drops c rather than the least recent a |
| LruFinding.IntendedOutcome | src/cost_based_lru.rs:175-216 | the same calls on the abstract LRU evict a and keep d and c |
| AssetSpec.Empty | src/asset_cache.rs:57-66 | defines the contents `new` builds; the class constructor is proved to produce them |
| AssetSpec.Search | src/asset_cache.rs:70-91 | defines `search_for_item` on values; its promises are proved in `AssetSpec.SearchOrder` and `AssetSpec.SearchMiss`, and `Assets.AssetCache.SearchForItem` is proved equal to it |
| AssetSpec.Decode | src/asset_cache.rs:111-138 | defines the decoding step and its bytes-tier update; its promises are proved in `AssetSpec.LoadBytes` and `AssetSpec.CachedBytesUsed`, and `Assets.AssetCache.DecodeBytes` is proved equal to it |
| AssetSpec.Store | src/asset_cache.rs:140-157 | defines the cost estimate, the decoded-tier insert and the weak entry; its promises are proved in `AssetSpec.StoreSpec`, and `Assets.AssetCache.StoreDecoded` is proved equal to it |
| AssetSpec.Load | src/asset_cache.rs:109-158 | defines the miss path: open, size, decode, store, with the error mapping; its promises are proved in `AssetSpec.LoadVfsErrors`, `AssetSpec.LoadStages` and `AssetSpec.LoadOutcome` |
| AssetSpec.Postchecked | src/asset_cache.rs:97-158 | defines `find_or_decode_postchecked`: search, then load on a miss; `Assets.AssetCache.FindOrDecodePostchecked` is proved equal to it |
| AssetSpec.Fetch | src/asset_cache.rs:161-191 | defines `get` through `find_or_decode`; its promises are proved in `AssetSpec.HitSkipsLoad`, `AssetSpec.MissLoads`, `AssetSpec.ColdFetch` and `AssetSpec.FetchKeepsOk`, and `Assets.AssetCache.Get` is proved equal to it |
| AssetSpec.Pin | src/asset_cache.rs:194-201 | defines `cache_always` on values; its promises are proved in `AssetSpec.PinFound` and `AssetSpec.PinnedSurvives` |
| AssetSpec.Forget | src/asset_cache.rs:204-210 | defines `remove` on values; its promises are proved in `AssetSpec.ForgetSpec` and `AssetSpec.ForgetKeepsOk` |
| AssetSpec.SearchOrder | src/asset_cache.rs:70-91 | a pinned object wins and changes nothing; otherwise the decoded tier becomes `Touch` of the old one, so a hit is moved to the front and its value returned; on a decoded miss, the weak object if its key is alive; the other tiers unchanged; the decoded tier a permutation of the old one (same multiset) with the same values and total cost |
| AssetSpec.SearchMiss | src/asset_cache.rs:97-104 | a search that misses changes nothing, so the second search of the post-checked path misses too |
| AssetSpec.HitSkipsLoad | src/asset_cache.rs:161-167 | on a hit, `get` returns the object found, whatever the Vfs and the decoder would do |
| AssetSpec.MissLoads | src/asset_cache.rs:161-183 | on a miss, `get` is one load from the unchanged cache |
| AssetSpec.StoreSpec | src/asset_cache.rs:140-157 | a decode or estimate failure is a decoder error that changes nothing; otherwise the object is returned and remembered weakly; a key new to the decoded tier is cached there iff its cost is within the single-object limit, and within that limit it is found there with the new object; other keys keep their values; the decoded tier stays within budget |
| AssetSpec.LoadBytes | src/asset_cache.rs:109-138 | the bytes tier: untouched for objects over the limit; moved to the front (`Touch`) when it already holds the key; untouched when the read fails; otherwise the bytes read are cached at cost `size` |
| AssetSpec.CachedBytesUsed | src/asset_cache.rs:111-116 | when the bytes tier holds a small key, the load does not depend on the reader's contents |
| AssetSpec.LoadVfsErrors | src/asset_cache.rs:109-122 | each failure of `open`, `get_size` or the read is a Vfs error leaving the cache unchanged, and no other load yields a Vfs error |
| AssetSpec.LoadStages | src/asset_cache.rs:109-158 | a load without Vfs failure is a bytes-tier update that stays within budget, followed by the store step |
| AssetSpec.LoadOutcome | src/asset_cache.rs:109-158 | a load keeps both tiers within budget and the pinned objects; a Vfs error changes nothing; a decoder error changes only the bytes tier; success remembers the object returned and caches it decoded as `StoreSpec` says; other keys keep their decoded values |
| AssetSpec.ColdFetch | src/asset_cache.rs:161-191 | a cold `get` with room in both tiers returns the decoded object, puts the bytes in front of the bytes tier exactly when the size is within its limit, and the object in front of the decoded tier exactly when its cost is within its limit |
| AssetSpec.FetchKeepsOk | src/asset_cache.rs:186-191 | `get` keeps both tiers well formed and within budget and never changes the pinned objects |
| AssetSpec.PinFound | src/asset_cache.rs:194-201 | after `cache_always(k, v)`, a search for `k` finds `v` |
| AssetSpec.ForgetSpec | src/asset_cache.rs:204-210 | after `remove(k)` nothing is found for `k`, and every other key is found as before |
| AssetSpec.ForgetKeepsOk | src/asset_cache.rs:204-210 | `remove` keeps both tiers well formed and within budget |
| AssetSpec.PinnedSurvives | src/asset_cache.rs:11-12 | a pinned object is found after any sequence of `get` calls and of calls on other keys |
| Assets.AssetCache.AbsOk | src/asset_cache.rs:32-43 | a valid cache's two tiers have distinct keys and are within budget |
| Assets.AssetCache.constructor | src/asset_cache.rs:52-67 | a new cache is valid and empty, with two fresh tiers whose budgets come from the configuration |
| Assets.AssetCache.SearchForItem | src/asset_cache.rs:70-91 | the result and the new contents are those of `Search` |
| Assets.AssetCache.FindOrDecodePostchecked | src/asset_cache.rs:97-158 | the result and the new contents are those of `Postchecked` |
| Assets.AssetCache.DecodeBytes | src/asset_cache.rs:111-138 | the decoding step either yields `Decode`'s I/O error with the bytes tier unchanged, or its decoder outcome and new bytes tier |
| Assets.AssetCache.ReadAndCache | src/asset_cache.rs:117-131 | a failed read changes nothing; otherwise the bytes are inserted at cost `size` and decoded, and the `expect` cannot fail |
| Assets.AssetCache.StoreDecoded | src/asset_cache.rs:140-157 | the result and the new contents are those of `Store` |
| Assets.AssetCache.CacheDecoded | src/asset_cache.rs:144-148 | the object is inserted into the decoded tier and returned, and the `expect` cannot fail |
| Assets.AssetCache.Get | src/asset_cache.rs:161-191 | the result and the new contents are those of `Fetch` |
| Assets.AssetCache.CacheAlways | src/asset_cache.rs:194-201 | the new contents are `Pin` of the old |
| Assets.AssetCache.Remove | src/asset_cache.rs:204-210 | the new contents are `Forget` of the old |
| Assets.InsertedFound | src/asset_cache.rs:123-127 | an insert within budget makes a following `get` of the key return the inserted value and change nothing |
| AssetScenarios.BasicLoads | src/asset_cache.rs:296-297 | the two gets of `basic_ops` return "abc" and "def" and cache both |
| AssetScenarios.BasicSearches | src/asset_cache.rs:299-305 | both keys are found; after `remove("b")`, "b" is not found and "a" still is |
| AssetScenarios.BasicOps | src/asset_cache.rs:291-306 | `basic_ops` on the object: every value the test checks |
| AssetScenarios.LoadFirstTwo | src/asset_cache.rs:318-329 | the 3- and 10-byte objects are cached in both tiers |
| AssetScenarios.LoadMiddleTwo | src/asset_cache.rs:320-329 | the 12-byte object skips the bytes tier; the 13-byte object is cached nowhere |
| AssetScenarios.LoadLast | src/asset_cache.rs:320-329 | the 11-byte object skips the bytes tier and is cached decoded |
| AssetScenarios.LoadedValues | src/asset_cache.rs:332-343 | the decoded tier then holds every object but the 13-byte one |
| AssetScenarios.LoadAll | src/asset_cache.rs:327-330 | the loading loop of `test_single_object_limits` succeeds five times and leaves the expected contents |
| AssetScenarios.SearchAll | src/asset_cache.rs:332-343 | the five searches find the four cached objects and not the 13-byte one |
| AssetScenarios.SingleObjectLimits | src/asset_cache.rs:309-344 | `test_single_object_limits` on the object: the loads, the bytes tier holding only the 10- and 3-byte objects, and the five searches |

## Left out

- Integer width: costs and sizes are unbounded naturals. The `u64` overflow of `current_cost += cost` and of the sizes is not modelled.
- `Arc` sharing: keys and values are plain values. The identity of returned objects is not modelled, and neither are reference counts.
- The iterator machinery of `iter`: it is modelled as a method returning the pairs in order.
- Locking: the `Mutex`/`RwLock` wrappers and the per-key `decoding_guards` are left out, because they serve concurrency and the model has one sequential caller.
  - The second search in `find_or_decode_postchecked` therefore always repeats the first.
  - `remove`'s removal of the key's guard is not modelled.
- Weak-reference liveness depends on `Arc` counts outside the cache. Each search takes a parameter `live`, the set of keys whose weak reference still upgrades.
  - The weak map remembers the last object handed out for each key.
  - `test_weak_recovery` (src/asset_cache.rs:349-384) is covered only through this oracle and is not restated.
- Assets.AssetCache.constructor: requires each single-object limit to be within its tier's budget. Without this, the `expect` after an insert can fail and the source panics; the model does not cover that panic.
- The Vfs and the reader are values; `open`, `get_size` and reading are not I/O.
  - Reading is modelled as one outcome for the whole stream, so a decoder that reads part of a stream is not distinguished.
  - Closing readers is not modelled.
- The test decoder's UTF-8 check (`read_to_string`) is not modelled. The scenarios decode to the bytes themselves, which gives the same costs for the ASCII test data.
- Not part of this model:
  - src/filesystem_vfs.rs, which is real filesystem I/O;
  - src/lru_entry.rs, which uses a clock and is not compiled;
  - src/traits.rs, src/vfs.rs and src/estimate_cost.rs, which are interfaces only.
- LruReference covers the property test's range of capacities, at least 1.
- LruFinding's transcription of `maybe_evict` is bounded by a fuel argument, because the code as written has no invariant that bounds the loop. The counterexample gives enough fuel.

## Findings

| source | as written | input that shows it | evidently intended | confidence | as-written member | corrected member |
|---|---|---|---|---|---|---|
| src/cost_based_lru.rs:116-128 | `make_most_recent` links the moved entry in front but never resets its `prev`. After a `get` of a non-head entry, the head keeps a stale `prev`. A later `unlink_index` of that head, when it is also the tail, copies the stale `prev` into `entries_tail`, which then names a free slot. | With `max_cost` 2 and unit costs: insert a, insert b, get a, remove b, get a (the tail now names b's free slot), insert c (c takes that slot and becomes the tail), insert d. Eviction drops c and keeps the older a. | the moved entry's `prev` becomes `None`, so the tail is always the least recent entry and eviction always drops it | high; derived by proof, not executed | LruFinding.StaleTailCounterexample | CostLru.CostBasedLru.MakeMostRecent |
