/**
  The reference the cost-based LRU is held to in src/cost_based_lru.rs: the
  `lru` crate's `LruCache` with a fixed capacity. With every cost 1 and the
  budget equal to the capacity, the cost-based cache answers every `get`,
  `insert` and `remove` exactly as `LruCache` answers `get`, `put` and `pop`.

  `LruCache` is modelled in its own terms (a recency list of keys and a map of
  values, evicting by count), independently of module LruSpec; the lemmas here
  show that the two agree, and `AgainstLruCache` replays any command list on a
  fresh `CostBasedLru` and on a fresh `LruCache` and proves the answers equal.
 */
module LruReference {
  import opened Wrappers
  import Spec = LruSpec
  import C = CostLru

  /** `s` without any occurrence of `k`. */
  function Erase<K(==)>(s: seq<K>, k: K): (r: seq<K>)
    ensures forall x :: x in r ==> x in s && x != k
    ensures forall x :: x in s && x != k ==> x in r
  {
    if s == [] then [] else (if s[0] == k then [] else [s[0]]) + Erase(s[1..], k)
  }

  /**
    `lru::LruCache<K, V>`: `recency` holds the keys, most recently used first,
    and `values` the value of each key.
   */
  datatype LruCache<K(==), V> = LruCache(cap: nat, recency: seq<K>, values: map<K, V>)
  {
    ghost predicate Valid()
    {
      && C.Distinct(recency)
      && (forall k :: k in values ==> k in recency)
      && (forall i :: 0 <= i < |recency| ==> recency[i] in values)
      && |recency| <= cap
    }

    /** `get`: a hit moves the key to the front. */
    function Get(k: K): (LruCache<K, V>, Option<V>)
    {
      if k in values then (this.(recency := [k] + Erase(recency, k)), Some(values[k]))
      else (this, None)
    }

    /**
      `put`: an existing key gets the new value and moves to the front; a new key
      goes in front, after the least recently used key is dropped if the cache
      is full. Returns the value the key had.
     */
    function Put(k: K, v: V): (LruCache<K, V>, Option<V>)
    {
      if k in values then (this.(recency := [k] + Erase(recency, k), values := values[k := v]), Some(values[k]))
      else if |recency| == cap && recency != [] then
        var lru := recency[|recency| - 1];
        (this.(recency := [k] + recency[..|recency| - 1], values := (values - {lru})[k := v]), None)
      else (this.(recency := [k] + recency, values := values[k := v]), None)
    }

    /** `pop`: the key goes, and its value is returned. */
    function Pop(k: K): (LruCache<K, V>, Option<V>)
    {
      if k in values then (this.(recency := Erase(recency, k), values := values - {k}), Some(values[k]))
      else (this, None)
    }

    /** The cache as LruSpec entries, each with cost 1. */
    ghost function Abs(): (s: seq<Spec.Entry<K, V>>)
      requires Valid()
      ensures |s| == |recency|
    {
      Units(recency, values)
    }
  }

  /** The keys `keys` with their values in `values`, as unit-cost LruSpec entries. */
  ghost function Units<K, V>(keys: seq<K>, values: map<K, V>): (s: seq<Spec.Entry<K, V>>)
    requires forall i :: 0 <= i < |keys| ==> keys[i] in values
    ensures |s| == |keys|
    ensures forall i :: 0 <= i < |s| ==> s[i] == Spec.Entry(keys[i], values[keys[i]], 1)
  {
    seq(|keys|, i requires 0 <= i < |keys| => Spec.Entry(keys[i], values[keys[i]], 1))
  }

  lemma UnitsRemoveAt<K, V>(keys: seq<K>, values: map<K, V>, i: nat)
    requires (forall j :: 0 <= j < |keys| ==> keys[j] in values) && i < |keys|
    ensures Units(RemoveAt(keys, i), values) == RemoveAt(Units(keys, values), i)
  {
  }

  lemma UnitsCons<K, V>(k: K, keys: seq<K>, values: map<K, V>)
    requires k in values && forall j :: 0 <= j < |keys| ==> keys[j] in values
    ensures Units([k] + keys, values) == [Spec.Entry(k, values[k], 1)] + Units(keys, values)
  {
  }

  /** Values of keys not listed do not matter. */
  lemma UnitsFrame<K, V>(keys: seq<K>, values: map<K, V>, values2: map<K, V>)
    requires forall j :: 0 <= j < |keys| ==> keys[j] in values && keys[j] in values2 && values2[keys[j]] == values[keys[j]]
    ensures Units(keys, values2) == Units(keys, values)
  {
  }

  // ---------------------------------------------------------------------------
  // Lemmas about the reference on its own

  lemma {:induction false} EraseAt<K>(s: seq<K>, i: nat)
    requires C.Distinct(s) && i < |s|
    ensures Erase(s, s[i]) == RemoveAt(s, i)
    decreases |s|
  {
    C.DistinctTail(s);
    if i == 0 {
      forall j | 1 <= j < |s| ensures s[j] != s[0] {
        C.DistinctAt(s, 0, j);
      }
      assert s[0] !in s[1..];
      EraseAbsent(s[1..], s[0]);
      assert RemoveAt(s, 0) == s[1..];
    } else {
      EraseAt(s[1..], i - 1);
      assert s[1..][i - 1] == s[i];
      C.DistinctAt(s, 0, i);
      assert [s[0]] + RemoveAt(s[1..], i - 1) == RemoveAt(s, i);
    }
  }

  lemma {:induction false} EraseAbsent<K>(s: seq<K>, k: K)
    requires k !in s
    ensures Erase(s, k) == s
    decreases |s|
  {
    if s != [] {
      assert k !in s[1..];
      EraseAbsent(s[1..], k);
      assert [s[0]] + s[1..] == s;
    }
  }

  /** The element at `i` of a list without repeats occurs nowhere else. */
  lemma DistinctOnce<K>(s: seq<K>, i: nat)
    requires C.Distinct(s) && i < |s|
    ensures s[i] !in RemoveAt(s, i)
  {
    forall j | 0 <= j < |s| - 1 ensures RemoveAt(s, i)[j] != s[i] {
      C.DistinctAt(s, if j < i then j else j + 1, i);
    }
  }

  lemma DistinctPrefix<K>(s: seq<K>, n: nat)
    requires C.Distinct(s) && n < |s|
    ensures C.Distinct(s[..n]) && s[n] !in s[..n]
  {
    forall a, b | 0 <= a < b < n ensures C.Apart(s[..n], a, b) {
      C.DistinctAt(s, a, b);
    }
    forall j | 0 <= j < n ensures s[..n][j] != s[n] {
      C.DistinctAt(s, j, n);
    }
  }

  /** Moving the `i`-th key to the front, with value `v`, keeps the reference invariant. */
  lemma MoveFrontValid<K, V>(c: LruCache<K, V>, i: nat, v: V)
    requires c.Valid() && i < |c.recency|
    ensures var k := c.recency[i];
            LruCache(c.cap, [k] + RemoveAt(c.recency, i), c.values[k := v]).Valid()
  {
    var k := c.recency[i];
    var r := RemoveAt(c.recency, i);
    C.DistinctRemoveAt(c.recency, i);
    DistinctOnce(c.recency, i);
    C.DistinctCons(k, r);
    forall x | x in c.values[k := v] ensures x in [k] + r {
      if x != k {
        var j :| 0 <= j < |c.recency| && c.recency[j] == x;
        assert r[if j < i then j else j - 1] == x;
      }
    }
  }

  /** Dropping the `i`-th key keeps the reference invariant. */
  lemma DropValid<K, V>(c: LruCache<K, V>, i: nat)
    requires c.Valid() && i < |c.recency|
    ensures LruCache(c.cap, RemoveAt(c.recency, i), c.values - {c.recency[i]}).Valid()
  {
    var k := c.recency[i];
    var r := RemoveAt(c.recency, i);
    C.DistinctRemoveAt(c.recency, i);
    DistinctOnce(c.recency, i);
    forall x | x in c.values - {k} ensures x in r {
      var j :| 0 <= j < |c.recency| && c.recency[j] == x;
      assert r[if j < i then j else j - 1] == x;
    }
  }

  /** Adding a new key in front, after dropping the least recent if full, keeps the reference invariant. */
  lemma AddValid<K, V>(c: LruCache<K, V>, k: K, v: V)
    requires c.Valid() && c.cap >= 1 && k !in c.values
    ensures c.Put(k, v).0.Valid()
  {
    assert k !in c.recency;
    if |c.recency| == c.cap && c.recency != [] {
      var n := |c.recency| - 1;
      DistinctPrefix(c.recency, n);
      C.DistinctCons(k, c.recency[..n]);
      var c2 := c.Put(k, v).0;
      forall x | x in c2.values ensures x in c2.recency {
        if x != k {
          var j :| 0 <= j < |c.recency| && c.recency[j] == x;
          assert j < n && c.recency[..n][j] == x;
        }
      }
    } else {
      C.DistinctCons(k, c.recency);
    }
  }

  // ---------------------------------------------------------------------------
  // The reference and LruSpec agree when every cost is 1

  /** A list of unit-cost entries costs its length. */
  lemma {:induction false} UnitCost<K, V>(s: seq<Spec.Entry<K, V>>)
    requires forall i :: 0 <= i < |s| ==> s[i].cost == 1
    ensures Spec.TotalCost(s) == |s|
    decreases |s|
  {
    if s != [] {
      UnitCost(s[..|s| - 1]);
    }
  }

  lemma AbsFind<K, V>(c: LruCache<K, V>, k: K)
    requires c.Valid()
    ensures k in c.values <==> Spec.Find(c.Abs(), k).Some?
    ensures Spec.Find(c.Abs(), k).Some? ==> c.recency[Spec.Find(c.Abs(), k).value] == k
    ensures Spec.ValueOf(c.Abs(), k) == if k in c.values then Some(c.values[k]) else None
  {
    if k in c.values {
      assert k in c.recency;
    }
  }

  lemma AbsMoveFront<K, V>(c: LruCache<K, V>, i: nat, v: V)
    requires c.Valid() && i < |c.recency|
    ensures var k := c.recency[i];
            var c2 := LruCache(c.cap, [k] + RemoveAt(c.recency, i), c.values[k := v]);
            c2.Valid() && c2.Abs() == [Spec.Entry(k, v, 1)] + RemoveAt(c.Abs(), i)
  {
    var k := c.recency[i];
    var r := RemoveAt(c.recency, i);
    var values2 := c.values[k := v];
    MoveFrontValid(c, i, v);
    DistinctOnce(c.recency, i);
    UnitsCons(k, r, values2);
    UnitsFrame(r, c.values, values2);
    UnitsRemoveAt(c.recency, c.values, i);
  }

  lemma AbsDrop<K, V>(c: LruCache<K, V>, i: nat)
    requires c.Valid() && i < |c.recency|
    ensures var c2 := LruCache(c.cap, RemoveAt(c.recency, i), c.values - {c.recency[i]});
            c2.Valid() && c2.Abs() == RemoveAt(c.Abs(), i)
  {
    var r := RemoveAt(c.recency, i);
    DropValid(c, i);
    DistinctOnce(c.recency, i);
    UnitsFrame(r, c.values, c.values - {c.recency[i]});
    UnitsRemoveAt(c.recency, c.values, i);
  }

  /** Unit costs survive taking an entry out and putting a unit-cost entry in front. */
  lemma UnitsStayUnit<K, V>(x: Spec.Entry<K, V>, s: seq<Spec.Entry<K, V>>, n: nat)
    requires (forall j :: 0 <= j < |s| ==> s[j].cost == 1) && x.cost == 1 && n <= |s|
    ensures Spec.TotalCost([x] + s[..n]) == n + 1
  {
    var w := [x] + s[..n];
    assert forall j :: 0 <= j < |w| ==> w[j].cost == 1;
    UnitCost(w);
  }

  lemma UnitsReplaced<K, V>(x: Spec.Entry<K, V>, s: seq<Spec.Entry<K, V>>, i: nat)
    requires (forall j :: 0 <= j < |s| ==> s[j].cost == 1) && x.cost == 1 && i < |s|
    ensures Spec.TotalCost([x] + RemoveAt(s, i)) == |s|
  {
    var r := RemoveAt(s, i);
    UnitsStayUnit(x, r, |r|);
    assert r[..|r|] == r;
  }

  lemma NoEviction<K, V>(w: seq<Spec.Entry<K, V>>, cap: nat)
    requires Spec.TotalCost(w) <= cap
    ensures Spec.Evict(w, cap) == w
  {
  }

  lemma OneEviction<K, V>(w: seq<Spec.Entry<K, V>>, cap: nat)
    requires w != [] && Spec.TotalCost(w) > cap && Spec.TotalCost(w[..|w| - 1]) <= cap
    ensures Spec.Evict(w, cap) == w[..|w| - 1]
  {
  }

  /** With unit costs and at most `cap` entries, a put of a present key evicts nothing. */
  lemma UnitPutPresent<K, V>(s: seq<Spec.Entry<K, V>>, k: K, v: V, cap: nat, i: nat)
    requires (forall j :: 0 <= j < |s| ==> s[j].cost == 1) && |s| <= cap
    requires Spec.Find(s, k) == Some(i)
    ensures Spec.Put(s, k, v, 1, cap) == [Spec.Entry(k, v, 1)] + RemoveAt(s, i)
  {
    UnitsReplaced(Spec.Entry(k, v, 1), s, i);
    PutWithin(s, k, v, cap, i);
  }

  lemma PutWithin<K, V>(s: seq<Spec.Entry<K, V>>, k: K, v: V, cap: nat, i: nat)
    requires Spec.Find(s, k) == Some(i)
    requires Spec.TotalCost([Spec.Entry(k, v, 1)] + RemoveAt(s, i)) <= cap
    ensures Spec.Put(s, k, v, 1, cap) == [Spec.Entry(k, v, 1)] + RemoveAt(s, i)
  {
    NoEviction([Spec.Entry(k, v, 1)] + RemoveAt(s, i), cap);
    assert Spec.Without(s, k) == RemoveAt(s, i);
  }

  /** With unit costs and at most `cap` entries, a put of a new key evicts the last entry exactly when full. */
  lemma UnitPutAbsent<K, V>(s: seq<Spec.Entry<K, V>>, k: K, v: V, cap: nat)
    requires (forall j :: 0 <= j < |s| ==> s[j].cost == 1) && |s| <= cap && cap >= 1
    requires Spec.Find(s, k) == None
    ensures Spec.Put(s, k, v, 1, cap)
         == if |s| == cap then [Spec.Entry(k, v, 1)] + s[..|s| - 1] else [Spec.Entry(k, v, 1)] + s
  {
    var x := Spec.Entry(k, v, 1);
    UnitsStayUnit(x, s, |s|);
    assert s[..|s|] == s;
    if |s| == cap {
      UnitsStayUnit(x, s, |s| - 1);
      PutEvictsOne(s, k, v, cap);
    } else {
      PutAbsentWithin(s, k, v, cap);
    }
  }

  lemma PutAbsentWithin<K, V>(s: seq<Spec.Entry<K, V>>, k: K, v: V, cap: nat)
    requires Spec.Find(s, k) == None
    requires Spec.TotalCost([Spec.Entry(k, v, 1)] + s) <= cap
    ensures Spec.Put(s, k, v, 1, cap) == [Spec.Entry(k, v, 1)] + s
  {
    NoEviction([Spec.Entry(k, v, 1)] + s, cap);
  }

  lemma PutEvictsOne<K, V>(s: seq<Spec.Entry<K, V>>, k: K, v: V, cap: nat)
    requires Spec.Find(s, k) == None && s != []
    requires Spec.TotalCost([Spec.Entry(k, v, 1)] + s) > cap
    requires Spec.TotalCost([Spec.Entry(k, v, 1)] + s[..|s| - 1]) <= cap
    ensures Spec.Put(s, k, v, 1, cap) == [Spec.Entry(k, v, 1)] + s[..|s| - 1]
  {
    var w := [Spec.Entry(k, v, 1)] + s;
    assert w[..|w| - 1] == [Spec.Entry(k, v, 1)] + s[..|s| - 1];
    OneEviction(w, cap);
  }

  /** A new key put into a full cache: its entries are the new one and all but the least recent. */
  lemma AbsAddFull<K, V>(c: LruCache<K, V>, k: K, v: V)
    requires c.Valid() && k !in c.values && |c.recency| == c.cap >= 1
    ensures c.Put(k, v).0.Valid()
    ensures c.Put(k, v).0.Abs() == [Spec.Entry(k, v, 1)] + c.Abs()[..|c.recency| - 1]
  {
    AddValid(c, k, v);
    var n := |c.recency| - 1;
    var lru := c.recency[n];
    assert c.recency[..n] == RemoveAt(c.recency, n);
    AbsDrop(c, n);
    var dropped := LruCache(c.cap, c.recency[..n], c.values - {lru});
    assert k !in dropped.recency;
    UnitsCons(k, dropped.recency, dropped.values[k := v]);
    UnitsFrame(dropped.recency, dropped.values, dropped.values[k := v]);
  }

  /** A new key put into a cache with room: its entries are the new one and all the old ones. */
  lemma AbsAddRoom<K, V>(c: LruCache<K, V>, k: K, v: V)
    requires c.Valid() && k !in c.values && |c.recency| < c.cap
    ensures c.Put(k, v).0.Valid()
    ensures c.Put(k, v).0.Abs() == [Spec.Entry(k, v, 1)] + c.Abs()
  {
    AddValid(c, k, v);
    assert k !in c.recency;
    UnitsCons(k, c.recency, c.values[k := v]);
    UnitsFrame(c.recency, c.values, c.values[k := v]);
  }

  /** `put` agrees with LruSpec.Put, in the value returned and in the new contents. */
  lemma PutMatches<K, V>(c: LruCache<K, V>, k: K, v: V)
    requires c.Valid() && c.cap >= 1
    ensures c.Put(k, v).0.Valid()
    ensures c.Put(k, v).1 == Spec.ValueOf(c.Abs(), k)
    ensures c.Put(k, v).0.Abs() == Spec.Put(c.Abs(), k, v, 1, c.cap)
  {
    AbsFind(c, k);
    match Spec.Find(c.Abs(), k)
    case Some(i) =>
      EraseAt(c.recency, i);
      AbsMoveFront(c, i, v);
      UnitPutPresent(c.Abs(), k, v, c.cap, i);
    case None =>
      UnitPutAbsent(c.Abs(), k, v, c.cap);
      if |c.recency| == c.cap {
        AbsAddFull(c, k, v);
      } else {
        AbsAddRoom(c, k, v);
      }
  }

  /** `get` agrees with LruSpec.Touch and LruSpec.ValueOf. */
  lemma GetMatches<K, V>(c: LruCache<K, V>, k: K)
    requires c.Valid()
    ensures c.Get(k).0.Valid()
    ensures c.Get(k).1 == Spec.ValueOf(c.Abs(), k)
    ensures c.Get(k).0.Abs() == Spec.Touch(c.Abs(), k)
  {
    AbsFind(c, k);
    match Spec.Find(c.Abs(), k)
    case None =>
    case Some(i) =>
      EraseAt(c.recency, i);
      AbsMoveFront(c, i, c.values[k]);
      assert c.values[k := c.values[k]] == c.values;
  }

  /** `pop` agrees with LruSpec.Without and LruSpec.ValueOf. */
  lemma PopMatches<K, V>(c: LruCache<K, V>, k: K)
    requires c.Valid()
    ensures c.Pop(k).0.Valid()
    ensures c.Pop(k).1 == Spec.ValueOf(c.Abs(), k)
    ensures c.Pop(k).0.Abs() == Spec.Without(c.Abs(), k)
  {
    AbsFind(c, k);
    match Spec.Find(c.Abs(), k)
    case None =>
    case Some(i) =>
      EraseAt(c.recency, i);
      AbsDrop(c, i);
  }

  // ---------------------------------------------------------------------------
  // Replaying commands on both caches

  datatype CacheCommand<K, V> = Put(key: K, value: V) | Get(key: K) | Delete(key: K)

  /** The answers `LruCache` gives to `cmds`. */
  function RunReference<K(==), V>(c: LruCache<K, V>, cmds: seq<CacheCommand<K, V>>): (r: seq<Option<V>>)
    ensures |r| == |cmds|
    decreases |cmds|
  {
    if cmds == [] then []
    else
      var (c2, out) :=
        match cmds[0]
        case Put(k, v) => c.Put(k, v)
        case Get(k) => c.Get(k)
        case Delete(k) => c.Pop(k);
      [out] + RunReference(c2, cmds[1..])
  }

  /** The answers the cost-based cache gives to `cmds` with unit costs, by LruSpec. */
  function RunSpec<K(==), V>(s: seq<Spec.Entry<K, V>>, max: nat, cmds: seq<CacheCommand<K, V>>): (r: seq<Option<V>>)
    ensures |r| == |cmds|
    decreases |cmds|
  {
    if cmds == [] then []
    else
      match cmds[0]
      case Put(k, v) => [Spec.ValueOf(s, k)] + RunSpec(Spec.Put(s, k, v, 1, max), max, cmds[1..])
      case Get(k) => [Spec.ValueOf(s, k)] + RunSpec(Spec.Touch(s, k), max, cmds[1..])
      case Delete(k) => [Spec.ValueOf(s, k)] + RunSpec(Spec.Without(s, k), max, cmds[1..])
  }

  /** Whatever the commands, the two caches give the same answers. */
  lemma {:induction false} RunsAgree<K, V>(c: LruCache<K, V>, cmds: seq<CacheCommand<K, V>>)
    requires c.Valid() && c.cap >= 1
    ensures RunSpec(c.Abs(), c.cap, cmds) == RunReference(c, cmds)
    decreases |cmds|
  {
    if cmds != [] {
      match cmds[0]
      case Put(k, v) =>
        PutMatches(c, k, v);
        RunsAgree(c.Put(k, v).0, cmds[1..]);
      case Get(k) =>
        GetMatches(c, k);
        RunsAgree(c.Get(k).0, cmds[1..]);
      case Delete(k) =>
        PopMatches(c, k);
        RunsAgree(c.Pop(k).0, cmds[1..]);
    }
  }

  lemma AppendAssoc<T>(a: seq<T>, b: seq<T>, c: seq<T>)
    ensures (a + b) + c == a + (b + c)
  {
  }

  /** Runs `cmds` on `lru`: `insert` with cost 1 for a put, `get`, and `remove` for a delete. */
  method Replay<K(==), V>(lru: C.CostBasedLru<K, V>, cmds: seq<CacheCommand<K, V>>) returns (outs: seq<Option<V>>)
    requires lru.Valid()
    modifies lru
    ensures outs == RunSpec(old(lru.Contents()), lru.maxCost, cmds)
  {
    ghost var start := lru.Contents();
    outs := [];
    var n := 0;
    while n < |cmds|
      invariant 0 <= n <= |cmds| && lru.Valid()
      invariant RunSpec(start, lru.maxCost, cmds) == outs + RunSpec(lru.Contents(), lru.maxCost, cmds[n..])
      decreases |cmds| - n
    {
      ghost var before := lru.Contents();
      var out;
      match cmds[n] {
        case Put(k, v) =>
          out := lru.Insert(k, v, 1);
        case Get(k) =>
          out := lru.Get(k);
        case Delete(k) =>
          out := lru.Remove(k);
      }
      ghost var after := lru.Contents();
      ghost var rest := RunSpec(after, lru.maxCost, cmds[n + 1..]);
      assert cmds[n..][1..] == cmds[n + 1..];
      assert RunSpec(before, lru.maxCost, cmds[n..]) == [out] + rest;
      AppendAssoc(outs, [out], rest);
      outs := outs + [out];
      n := n + 1;
    }
  }

  /**
    The bounded comparison against `LruCache`: a fresh cost-based cache with
    budget `bound`, fed unit costs, answers every command as a fresh
    `LruCache` of capacity `bound` does.
   */
  method AgainstLruCache<K(==), V>(bound: nat, cmds: seq<CacheCommand<K, V>>) returns (ours: seq<Option<V>>, theirs: seq<Option<V>>)
    requires bound >= 1
    ensures ours == theirs
    ensures theirs == RunReference(LruCache(bound, [], map[]), cmds)
  {
    var lru := new C.CostBasedLru<K, V>(bound);
    ours := Replay(lru, cmds);
    var known := LruCache(bound, [], map[]);
    theirs := RunReference(known, cmds);
    assert known.Abs() == [];
    RunsAgree(known, cmds);
  }
}
