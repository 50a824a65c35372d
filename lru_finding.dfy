/**
  The cost-based LRU exactly as src/cost_based_lru.rs writes it, on values.

  Every function here follows the Rust code statement by statement, on the raw
  slots and pointers and with no invariant assumed, and returns `None` where the
  Rust code panics (`as_occupied` on an empty slot, `expect`, the eviction
  loop with no tail). The only deliberate difference from CostLru is in
  `MakeMostRecent`: here, as in the source, the moved entry keeps its old `prev`
  link. The counterexample at the end shows that this leaves a stale tail pointer
  and makes a later eviction drop the wrong entry.
 */
module LruFinding {
  import opened Wrappers
  import opened LruSpec
  import opened CostLru

  /** All fields of `CostBasedLru`, with the cost as an unbounded integer. */
  datatype Raw<K, V> = Raw(
    entries: seq<Slot<K, V>>,
    index: map<K, nat>,
    maxCost: nat,
    head: Option<nat>,
    tail: Option<nat>,
    emptyHead: Option<nat>,
    currentCost: int)

  predicate Occ<K, V>(e: seq<Slot<K, V>>, n: nat)
  {
    n < |e| && e[n].Occupied?
  }

  function New<K, V>(maxCost: nat): Raw<K, V>
  {
    Raw([], map[], maxCost, None, None, None, 0)
  }

  /** `unlink_index`. */
  function UnlinkIndex<K, V>(r: Raw<K, V>, ind: nat): Option<Raw<K, V>>
  {
    if !Occ(r.entries, ind) then None
    else
      var x := r.entries[ind];
      var tail := if r.tail == Some(ind) then x.prev else r.tail;
      if r.head == Some(ind) then
        match x.next
        case None => Some(r.(tail := tail, head := None))
        case Some(n) =>
          if !Occ(r.entries, n) then None
          else Some(r.(tail := tail, head := x.next, entries := r.entries[n := r.entries[n].(prev := None)]))
      else
        match x.prev
        case None => None
        case Some(p) =>
          if !Occ(r.entries, p) then None
          else
            var e1 := r.entries[p := r.entries[p].(next := x.next)];
            match x.next
            case None => Some(r.(tail := tail, entries := e1))
            case Some(n) =>
              if !Occ(e1, n) then None
              else Some(r.(tail := tail, entries := e1[n := e1[n].(prev := Some(p))]))
  }

  /** `make_most_recent` as written: the moved entry's `prev` is never reset. */
  function MakeMostRecent<K, V>(r: Raw<K, V>, ind: nat): Option<Raw<K, V>>
  {
    match UnlinkIndex(r, ind)
    case None => None
    case Some(u) =>
      if !Occ(u.entries, ind) then None
      else
        var e1 := u.entries[ind := u.entries[ind].(next := u.head)];
        match u.head
        case Some(i) =>
          if !Occ(e1, i) then None
          else
            var e2 := e1[i := e1[i].(prev := Some(ind))];
            Some(u.(entries := e2, head := Some(ind), tail := if u.tail.None? then Some(ind) else u.tail))
        case None =>
          Some(u.(entries := e1, head := Some(ind), tail := if u.tail.None? then Some(ind) else u.tail))
  }

  /** The state after `get(k)`. */
  function Get<K, V>(r: Raw<K, V>, k: K): Option<Raw<K, V>>
  {
    if k !in r.index then Some(r) else MakeMostRecent(r, r.index[k])
  }

  /** `become_empty`. */
  function BecomeEmpty<K, V>(r: Raw<K, V>, ind: nat): Option<Raw<K, V>>
  {
    match UnlinkIndex(r, ind)
    case None => None
    case Some(u) =>
      if !Occ(u.entries, ind) then None
      else
        var x := u.entries[ind];
        Some(u.(entries := u.entries[ind := Empty(u.emptyHead)], emptyHead := Some(ind),
                index := u.index - {x.key}, currentCost := u.currentCost - x.cost))
  }

  /** The state after `remove(k)`. */
  function Remove<K, V>(r: Raw<K, V>, k: K): Option<Raw<K, V>>
  {
    if k !in r.index then Some(r) else BecomeEmpty(r.(index := r.index - {k}), r.index[k])
  }

  /** `find_empty`: the state and the slot handed out. */
  function FindEmpty<K, V>(r: Raw<K, V>): Option<(Raw<K, V>, nat)>
  {
    match r.emptyHead
    case Some(e) =>
      if e < |r.entries| && r.entries[e].Empty? then Some((r.(emptyHead := r.entries[e].nextEmpty), e))
      else None
    case None => Some((r.(entries := r.entries + [Empty(None)]), |r.entries|))
  }

  /**
    `maybe_evict`. Each pass that does not panic empties one occupied slot, so
    `fuel` = the number of slots is never the reason it stops.
   */
  function MaybeEvict<K, V>(r: Raw<K, V>, fuel: nat): Option<Raw<K, V>>
    decreases fuel
  {
    if r.currentCost <= r.maxCost then Some(r)
    else if fuel == 0 then None
    else
      match r.tail
      case None => None
      case Some(t) =>
        match BecomeEmpty(r, t)
        case None => None
        case Some(r2) => MaybeEvict(r2, fuel - 1)
  }

  /** The state after `insert(k, v, c)`. */
  function Insert<K, V>(r: Raw<K, V>, k: K, v: V, c: nat): Option<Raw<K, V>>
  {
    match Remove(r, k)
    case None => None
    case Some(r1) =>
      match FindEmpty(r1)
      case None => None
      case Some(found) =>
        var (r2, ind) := found;
        if ind >= |r2.entries| then None
        else
          var oldHead := r2.head;
          var e1 := r2.entries[ind := Occupied(k, v, None, r2.head, c)];
          var r3 := r2.(entries := e1, head := Some(ind), index := r2.index[k := ind],
                        currentCost := r2.currentCost + c);
          var r4 :=
            match oldHead
            case None => Some(r3)
            case Some(h) => if !Occ(e1, h) then None else Some(r3.(entries := e1[h := e1[h].(prev := Some(ind))]));
          match r4
          case None => None
          case Some(r5) =>
            var r6 := if r5.tail.None? then r5.(tail := Some(ind)) else r5;
            MaybeEvict(r6, |r6.entries|)
  }

  /** The keys `iter()` visits, walking `next` from `n` for at most `fuel` steps. */
  function Walk<K, V>(e: seq<Slot<K, V>>, n: Option<nat>, fuel: nat): seq<K>
    decreases fuel
  {
    match n
    case None => []
    case Some(i) =>
      if fuel == 0 || !Occ(e, i) then [] else [e[i].key] + Walk(e, e[i].next, fuel - 1)
  }

  // ---------------------------------------------------------------------------
  // The counterexample, with integer keys and values, unit costs and a budget of 2.
  // Key 1 plays a, 2 plays b, 3 plays c and 4 plays d.

  /** After `insert(a)`. */
  const S1: Raw<int, int> := Raw([Occupied(1, 10, None, None, 1)], map[1 := 0], 2, Some(0), Some(0), None, 1)

  /** After `insert(b)`: b (slot 1) in front of a (slot 0). */
  const S2: Raw<int, int> :=
    Raw([Occupied(1, 10, Some(1), None, 1), Occupied(2, 20, None, Some(0), 1)],
        map[1 := 0, 2 := 1], 2, Some(1), Some(0), None, 2)

  /** After `get(a)`: a is the head but keeps `prev = Some(1)`. */
  const S3: Raw<int, int> :=
    Raw([Occupied(1, 10, Some(1), Some(1), 1), Occupied(2, 20, Some(0), None, 1)],
        map[1 := 0, 2 := 1], 2, Some(0), Some(1), None, 2)

  /** After `remove(b)`: a is alone, still with `prev = Some(1)`; slot 1 is free. */
  const S4: Raw<int, int> :=
    Raw([Occupied(1, 10, Some(1), None, 1), Empty(None)], map[1 := 0], 2, Some(0), Some(0), Some(1), 1)

  /** After `get(a)` again: the tail now names the free slot 1. */
  const S5: Raw<int, int> :=
    Raw([Occupied(1, 10, Some(1), None, 1), Empty(None)], map[1 := 0], 2, Some(0), Some(1), Some(1), 1)

  /** After `insert(c)`: c takes slot 1, so the tail names c although a is least recent. */
  const S6: Raw<int, int> :=
    Raw([Occupied(1, 10, Some(1), None, 1), Occupied(3, 30, None, Some(0), 1)],
        map[1 := 0, 3 := 1], 2, Some(1), Some(1), None, 2)

  /** After `insert(d)` but before eviction: d, c, a with a total cost of 3. */
  const S7Full: Raw<int, int> :=
    Raw([Occupied(1, 10, Some(1), None, 1), Occupied(3, 30, Some(2), Some(0), 1), Occupied(4, 40, None, Some(1), 1)],
        map[1 := 0, 3 := 1, 4 := 2], 2, Some(2), Some(1), None, 3)

  /** After `insert(d)`: eviction followed the stale tail and dropped c instead of a. */
  const S7: Raw<int, int> :=
    Raw([Occupied(1, 10, Some(2), None, 1), Empty(None), Occupied(4, 40, None, Some(0), 1)],
        map[1 := 0, 4 := 2], 2, Some(2), Some(2), Some(1), 2)

  lemma Step1()
    ensures Insert(New<int, int>(2), 1, 10, 1) == Some(S1)
  {
    var s0 := New<int, int>(2);
    assert Remove(s0, 1) == Some(s0);
    assert s0.entries + [Empty(None)] == [Empty(None)];
    assert FindEmpty(s0) == Some((s0.(entries := [Empty(None)]), 0));
    assert [Empty(None)][0 := Occupied(1, 10, None, None, 1)] == S1.entries;
    assert MaybeEvict(S1, 1) == Some(S1);
  }

  lemma Step2()
    ensures Insert(S1, 2, 20, 1) == Some(S2)
  {
    assert Remove(S1, 2) == Some(S1);
    var grown: seq<Slot<int, int>> := S1.entries + [Empty(None)];
    assert FindEmpty(S1) == Some((S1.(entries := grown), 1));
    var e1: seq<Slot<int, int>> := grown[1 := Occupied(2, 20, None, Some(0), 1)];
    assert e1 == [Occupied(1, 10, None, None, 1), Occupied(2, 20, None, Some(0), 1)];
    assert e1[0 := e1[0].(prev := Some(1))] == S2.entries;
    assert MaybeEvict(S2, 2) == Some(S2);
  }

  lemma Step3()
    ensures Get(S2, 1) == Some(S3)
  {
    var e1: seq<Slot<int, int>> := S2.entries[1 := S2.entries[1].(next := None)];
    var u: Raw<int, int> := S2.(tail := Some(1), entries := e1);
    assert UnlinkIndex(S2, 0) == Some(u);
    var e2: seq<Slot<int, int>> := e1[0 := e1[0].(next := Some(1))];
    assert e2[1 := e2[1].(prev := Some(0))] == S3.entries;
  }

  lemma Step4()
    ensures Remove(S3, 2) == Some(S4)
  {
    var r: Raw<int, int> := S3.(index := map[1 := 0]);
    assert S3.index - {2} == map[1 := 0];
    var e1: seq<Slot<int, int>> := r.entries[0 := r.entries[0].(next := None)];
    var u: Raw<int, int> := r.(tail := Some(0), entries := e1);
    assert UnlinkIndex(r, 1) == Some(u);
    assert u.entries[1 := Empty(None)] == S4.entries;
    assert map[1 := 0] - {2} == map[1 := 0];
  }

  lemma Step5()
    ensures Get(S4, 1) == Some(S5)
  {
    var u: Raw<int, int> := S4.(tail := Some(1), head := None);
    assert UnlinkIndex(S4, 0) == Some(u);
    assert u.entries[0 := u.entries[0].(next := None)] == S5.entries;
  }

  lemma Step6()
    ensures Insert(S5, 3, 30, 1) == Some(S6)
  {
    assert Remove(S5, 3) == Some(S5);
    assert FindEmpty(S5) == Some((S5.(emptyHead := None), 1));
    var e1: seq<Slot<int, int>> := S5.entries[1 := Occupied(3, 30, None, Some(0), 1)];
    assert e1[0 := e1[0].(prev := Some(1))] == S6.entries;
    assert S5.index[3 := 1] == S6.index;
    assert MaybeEvict(S6, 2) == Some(S6);
  }

  lemma Step7()
    ensures Insert(S6, 4, 40, 1) == Some(S7)
  {
    assert Remove(S6, 4) == Some(S6);
    var grown: seq<Slot<int, int>> := S6.entries + [Empty(None)];
    assert FindEmpty(S6) == Some((S6.(entries := grown), 2));
    var e1: seq<Slot<int, int>> := grown[2 := Occupied(4, 40, None, Some(1), 1)];
    assert e1[1 := e1[1].(prev := Some(2))] == S7Full.entries;
    assert S6.index[4 := 2] == S7Full.index;
    var e2: seq<Slot<int, int>> := S7Full.entries[2 := S7Full.entries[2].(next := Some(0))];
    var e3: seq<Slot<int, int>> := e2[0 := e2[0].(prev := Some(2))];
    var u: Raw<int, int> := S7Full.(tail := Some(2), entries := e3);
    assert UnlinkIndex(S7Full, 1) == Some(u);
    assert e3[1 := Empty(None)] == S7.entries;
    assert S7Full.index - {3} == S7.index;
    assert BecomeEmpty(S7Full, 1) == Some(S7);
    assert MaybeEvict(S7, 2) == Some(S7);
    assert MaybeEvict(S7Full, 3) == Some(S7);
  }

  lemma IntendedFirstTwo()
    ensures Put(Put([], 1, 10, 1, 2), 2, 20, 1, 2) == [Entry(2, 20, 1), Entry(1, 10, 1)]
  {
    PutFits([], 1, 10, 1, 2);
    assert [Entry(1, 10, 1)] + [] == [Entry(1, 10, 1)];
    PutFits([Entry(1, 10, 1)], 2, 20, 1, 2);
  }

  lemma IntendedMiddle()
    ensures Touch(Without(Touch([Entry(2, 20, 1), Entry(1, 10, 1)], 1), 2), 1) == [Entry(1, 10, 1)]
  {
    var a, b := Entry(1, 10, 1), Entry(2, 20, 1);
    assert Find([b, a], 1) == Some(1);
    assert Touch([b, a], 1) == [a, b];
    assert Find([a, b], 2) == Some(1);
    assert Without([a, b], 2) == [a];
    assert Find([a], 1) == Some(0);
  }

  lemma IntendedLastTwo()
    ensures Put(Put([Entry(1, 10, 1)], 3, 30, 1, 2), 4, 40, 1, 2) == [Entry(4, 40, 1), Entry(3, 30, 1)]
  {
    var a, c, d := Entry(1, 10, 1), Entry(3, 30, 1), Entry(4, 40, 1);
    PutFits([a], 3, 30, 1, 2);
    assert [c] + [a] == [c, a];
    assert Find([c, a], 4) == None;
    assert Without([c, a], 4) == [c, a];
    TotalCostCons(d, [c, a]);
    assert [d] + [c, a] == [d, c, a] && [d, c, a][..2] == [d, c];
    assert TotalCost([d, c, a]) == 3;
    assert Evict([d, c, a], 2) == Evict([d, c], 2);
    assert Evict([d, c], 2) == [d, c];
  }

  /**
    The same seven calls on the abstract lists: after `insert(d)` the least
    recent entry a is the one evicted, leaving d and c.
   */
  lemma IntendedOutcome()
    ensures var s5 := Touch(Without(Touch(Put(Put([], 1, 10, 1, 2), 2, 20, 1, 2), 1), 2), 1);
            Put(Put(s5, 3, 30, 1, 2), 4, 40, 1, 2) == [Entry(4, 40, 1), Entry(3, 30, 1)]
  {
    IntendedFirstTwo();
    IntendedMiddle();
    IntendedLastTwo();
  }

  lemma FinalWalk()
    ensures Walk(S7.entries, S7.head, |S7.entries|) == [4, 1]
  {
    assert Walk(S7.entries, Some(0), 1) == [1] + Walk(S7.entries, None, 0);
  }

  /**
    As written, the same calls end with d and a: `insert(d)` evicted c, the more
    recent entry, because the tail pointer had gone stale at the second `get(a)`,
    where it came to name the free slot 1.
   */
  lemma StaleTailCounterexample()
    ensures var s0 := New<int, int>(2);
            Insert(s0, 1, 10, 1) == Some(S1) && Insert(S1, 2, 20, 1) == Some(S2) &&
            Get(S2, 1) == Some(S3) && Remove(S3, 2) == Some(S4) && Get(S4, 1) == Some(S5) &&
            Insert(S5, 3, 30, 1) == Some(S6) && Insert(S6, 4, 40, 1) == Some(S7)
    ensures S5.head == Some(0) && S5.tail == Some(1) && S5.entries[1].Empty?
    ensures Walk(S7.entries, S7.head, |S7.entries|) == [4, 1]
    ensures 3 !in S7.index && 1 in S7.index
  {
    Step1();
    Step2();
    Step3();
    Step4();
    Step5();
    Step6();
    Step7();
    FinalWalk();
  }
}
