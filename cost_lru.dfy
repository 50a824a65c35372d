/**
  `CostBasedLru` from src/cost_based_lru.rs: an LRU cache bounded by the total
  cost of its entries. The entries live in a growable vector of slots; occupied
  slots form a doubly linked recency list (head = most recently used), empty
  slots form a singly linked free list, and a key-to-slot index finds entries.

  Two ghost fields describe the shape: `order` lists the occupied slots from
  head to tail and `free` lists the empty slots from `emptyHead` on. Wellformed()
  ties every pointer, the index and the running cost to them, and Contents() is
  the abstract value: the entries in recency order, as module LruSpec defines it.
 */
module CostLru {
  import opened Wrappers
  import opened LruSpec

  /** `CacheEntry`: an empty slot with its free-list link, or an occupied one with its recency links. */
  datatype Slot<K, V> =
    | Empty(nextEmpty: Option<nat>)
    | Occupied(key: K, item: V, prev: Option<nat>, next: Option<nat>, cost: nat)

  function EntryOf<K, V>(s: Slot<K, V>): Entry<K, V>
    requires s.Occupied?
  {
    Entry(s.key, s.item, s.cost)
  }

  /** The link a list in order `o` should hold before and after its `i`-th element. */
  function PrevIn(o: seq<nat>, i: nat): Option<nat>
    requires i < |o|
  {
    if i == 0 then None else Some(o[i - 1])
  }

  function NextIn(o: seq<nat>, i: nat): Option<nat>
    requires i < |o|
  {
    if i + 1 == |o| then None else Some(o[i + 1])
  }

  /** Positions `i` and `j` of `o` hold different slots. */
  ghost predicate Apart<T>(o: seq<T>, i: nat, j: nat)
    requires i < |o| && j < |o|
  {
    o[i] != o[j]
  }

  /** No element (here: no slot) is listed twice. Stated through Apart, so that it is used only where a proof asks for it. */
  ghost predicate Distinct<T>(o: seq<T>)
  {
    forall i, j :: 0 <= i < j < |o| ==> Apart(o, i, j)
  }

  /** Every slot listed in `o` exists and is occupied. */
  ghost predicate InSlots<K, V>(e: seq<Slot<K, V>>, o: seq<nat>)
  {
    forall i :: 0 <= i < |o| ==> o[i] < |e| && e[o[i]].Occupied?
  }

  ghost predicate LinkedAt<K, V>(e: seq<Slot<K, V>>, o: seq<nat>, i: nat)
    requires InSlots(e, o) && i < |o|
  {
    e[o[i]].prev == PrevIn(o, i) && e[o[i]].next == NextIn(o, i)
  }

  /**
    The recency list: the head has no `prev`, the tail has no `next`, and the
    `prev` and `next` links of consecutive slots point at each other.
   */
  ghost predicate Linked<K, V>(e: seq<Slot<K, V>>, o: seq<nat>, head: Option<nat>, tail: Option<nat>)
  {
    && InSlots(e, o)
    && Distinct(o)
    && head == First(o)
    && tail == Last(o)
    && forall i :: 0 <= i < |o| ==> LinkedAt(e, o, i)
  }

  ghost predicate FreeAt<K, V>(e: seq<Slot<K, V>>, f: seq<nat>, i: nat)
    requires i < |f|
  {
    f[i] < |e| && e[f[i]] == Empty(NextIn(f, i))
  }

  /** The free list: every slot on it is empty and links to the next one. */
  ghost predicate FreeChain<K, V>(e: seq<Slot<K, V>>, f: seq<nat>, emptyHead: Option<nat>)
  {
    && Distinct(f)
    && emptyHead == First(f)
    && forall i :: 0 <= i < |f| ==> FreeAt(e, f, i)
  }

  /** The key of the `i`-th listed slot is indexed to that slot. */
  ghost predicate KeyAt<K, V>(e: seq<Slot<K, V>>, o: seq<nat>, index: map<K, nat>, i: nat)
    requires InSlots(e, o) && i < |o|
  {
    e[o[i]].key in index && index[e[o[i]].key] == o[i]
  }

  /** An indexed key points at a listed slot that holds that key. */
  ghost predicate SlotOf<K, V>(e: seq<Slot<K, V>>, o: seq<nat>, index: map<K, nat>, k: K)
    requires InSlots(e, o) && k in index
  {
    index[k] in o && e[index[k]].key == k
  }

  /** The index maps the key of every listed slot to that slot, and nothing else. */
  ghost predicate Indexed<K, V>(e: seq<Slot<K, V>>, o: seq<nat>, index: map<K, nat>)
    requires InSlots(e, o)
  {
    && (forall i :: 0 <= i < |o| ==> KeyAt(e, o, index, i))
    && (forall k {:trigger SlotOf(e, o, index, k)} :: k in index ==> SlotOf(e, o, index, k))
  }

  /** The entries of the slots in `o`, in that order. */
  ghost function View<K, V>(e: seq<Slot<K, V>>, o: seq<nat>): (s: seq<Entry<K, V>>)
    requires InSlots(e, o)
    ensures |s| == |o|
  {
    seq(|o|, i requires 0 <= i < |o| => EntryOf(e[o[i]]))
  }

  /** Relinking changes `prev`/`next` fields only: keys, values, costs and empty slots stay. */
  ghost predicate SamePayload<K, V>(e: seq<Slot<K, V>>, e2: seq<Slot<K, V>>)
  {
    && |e2| == |e|
    && forall x :: 0 <= x < |e| ==>
         && (e[x].Empty? ==> e2[x] == e[x])
         && (e[x].Occupied? ==> e2[x].Occupied? && EntryOf(e2[x]) == EntryOf(e[x]))
  }

  // ---------------------------------------------------------------------------
  // Lemmas about the slot vector

  lemma DistinctAt<T>(o: seq<T>, a: nat, b: nat)
    requires Distinct(o) && a < |o| && b < |o| && a != b
    ensures o[a] != o[b]
  {
    if a < b {
      assert Apart(o, a, b);
    } else {
      assert Apart(o, b, a);
    }
  }

  lemma DistinctRemoveAt<T>(o: seq<T>, i: nat)
    requires Distinct(o) && i < |o|
    ensures Distinct(RemoveAt(o, i))
  {
    var o2 := RemoveAt(o, i);
    forall a, b | 0 <= a < b < |o2| ensures Apart(o2, a, b) {
      DistinctAt(o, if a < i then a else a + 1, if b < i then b else b + 1);
    }
  }

  lemma DistinctTail<T>(o: seq<T>)
    requires Distinct(o) && o != []
    ensures Distinct(o[1..])
  {
    forall a, b | 0 <= a < b < |o| - 1 ensures Apart(o[1..], a, b) {
      DistinctAt(o, a + 1, b + 1);
    }
  }

  lemma DistinctCons<T>(x: T, o: seq<T>)
    requires Distinct(o) && forall j :: 0 <= j < |o| ==> o[j] != x
    ensures Distinct([x] + o)
  {
    var o2 := [x] + o;
    forall a, b | 0 <= a < b < |o2| ensures Apart(o2, a, b) {
      assert o2[b] == o[b - 1];
      if a > 0 {
        DistinctAt(o, a - 1, b - 1);
      }
    }
  }

  /** What `unlink_index` does to the links leaves a well linked list without the `i`-th slot. */
  lemma UnlinkRelinks<K, V>(e: seq<Slot<K, V>>, o: seq<nat>, i: nat, e2: seq<Slot<K, V>>)
    requires Linked(e, o, First(o), Last(o)) && i < |o|
    requires |e2| == |e|
    requires i > 0 ==> e2[o[i - 1]] == e[o[i - 1]].(next := NextIn(o, i))
    requires i + 1 < |o| ==> e2[o[i + 1]] == e[o[i + 1]].(prev := PrevIn(o, i))
    requires forall x :: 0 <= x < |e| && (i == 0 || x != o[i - 1]) && (i + 1 == |o| || x != o[i + 1]) ==> e2[x] == e[x]
    ensures Linked(e2, RemoveAt(o, i), First(RemoveAt(o, i)), Last(RemoveAt(o, i)))
    ensures SamePayload(e, e2)
    ensures First(RemoveAt(o, i)) == if i == 0 then NextIn(o, i) else First(o)
    ensures Last(RemoveAt(o, i)) == if i + 1 == |o| then PrevIn(o, i) else Last(o)
  {
    var o2 := RemoveAt(o, i);
    DistinctRemoveAt(o, i);
    if 0 < i < |o| - 1 {
      DistinctAt(o, i - 1, i + 1);
    }
    forall x | 0 <= x < |e|
      ensures (e[x].Empty? ==> e2[x] == e[x])
      ensures (e[x].Occupied? ==> e2[x].Occupied? && EntryOf(e2[x]) == EntryOf(e[x]))
    {
    }
    assert InSlots(e2, o2);
    forall j | 0 <= j < |o2|
      ensures LinkedAt(e2, o2, j)
    {
      var jj := if j < i then j else j + 1;
      assert o2[j] == o[jj];
      assert LinkedAt(e, o, jj);
      if i > 0 && jj == i - 1 {
        assert e2[o2[j]].prev == e[o[jj]].prev;
      } else if i + 1 < |o| && jj == i + 1 {
        assert e2[o2[j]].next == e[o[jj]].next;
      } else {
        if i > 0 {
          DistinctAt(o, jj, i - 1);
        }
        if i + 1 < |o| {
          DistinctAt(o, jj, i + 1);
        }
        assert e2[o2[j]] == e[o[jj]];
      }
    }
  }

  /** What `make_most_recent` and `insert` do after unlinking: slot `x` becomes the new head. */
  lemma PushFrontLinks<K, V>(e: seq<Slot<K, V>>, o: seq<nat>, x: nat, e2: seq<Slot<K, V>>)
    requires Linked(e, o, First(o), Last(o))
    requires x < |e| && forall j :: 0 <= j < |o| ==> o[j] != x
    requires |e2| == |e|
    requires e2[x].Occupied? && e2[x].prev == None && e2[x].next == First(o)
    requires o != [] ==> e2[o[0]] == e[o[0]].(prev := Some(x))
    requires forall y :: 0 <= y < |e| && y != x && (o == [] || y != o[0]) ==> e2[y] == e[y]
    ensures Linked(e2, [x] + o, Some(x), Last([x] + o))
    ensures forall y :: 0 <= y < |e| && y != x ==>
      (e[y].Empty? ==> e2[y] == e[y]) && (e[y].Occupied? ==> e2[y].Occupied? && EntryOf(e2[y]) == EntryOf(e[y]))
  {
    var o2 := [x] + o;
    assert forall j :: 0 < j < |o2| ==> o2[j] == o[j - 1];
    assert InSlots(e2, o2);
    DistinctCons(x, o);
    forall j | 0 <= j < |o2|
      ensures LinkedAt(e2, o2, j)
    {
      if j > 0 {
        assert LinkedAt(e, o, j - 1);
        if j == 1 {
          assert e2[o2[j]].next == e[o[0]].next;
        } else {
          DistinctAt(o, j - 1, 0);
          assert e2[o2[j]] == e[o[j - 1]];
        }
      }
    }
  }

  lemma ViewSamePayload<K, V>(e: seq<Slot<K, V>>, e2: seq<Slot<K, V>>, o: seq<nat>)
    requires InSlots(e, o) && SamePayload(e, e2)
    ensures InSlots(e2, o) && View(e2, o) == View(e, o)
  {
  }

  lemma ViewRemoveAt<K, V>(e: seq<Slot<K, V>>, o: seq<nat>, i: nat)
    requires InSlots(e, o) && i < |o|
    ensures InSlots(e, RemoveAt(o, i))
    ensures View(e, RemoveAt(o, i)) == RemoveAt(View(e, o), i)
  {
  }

  lemma ViewCons<K, V>(e: seq<Slot<K, V>>, x: nat, o: seq<nat>)
    requires InSlots(e, o) && x < |e| && e[x].Occupied?
    ensures InSlots(e, [x] + o)
    ensures View(e, [x] + o) == [EntryOf(e[x])] + View(e, o)
  {
    assert forall j :: 0 < j < |[x] + o| ==> ([x] + o)[j] == o[j - 1];
  }

  /** Slots that the list does not use may change without affecting the list or its view. */
  lemma LinkedFrame<K, V>(e: seq<Slot<K, V>>, e2: seq<Slot<K, V>>, o: seq<nat>, head: Option<nat>, tail: Option<nat>)
    requires Linked(e, o, head, tail)
    requires |e2| >= |e| && forall j :: 0 <= j < |o| ==> e2[o[j]] == e[o[j]]
    ensures Linked(e2, o, head, tail)
    ensures View(e2, o) == View(e, o)
  {
    forall j | 0 <= j < |o| ensures LinkedAt(e2, o, j) {
      assert LinkedAt(e, o, j);
    }
  }

  /** Relinking leaves the free list alone. */
  lemma FreeChainSamePayload<K, V>(e: seq<Slot<K, V>>, e2: seq<Slot<K, V>>, f: seq<nat>, emptyHead: Option<nat>)
    requires FreeChain(e, f, emptyHead) && SamePayload(e, e2)
    ensures FreeChain(e2, f, emptyHead)
  {
    forall j | 0 <= j < |f| ensures FreeAt(e2, f, j) {
      assert FreeAt(e, f, j);
    }
  }

  /** Empty slots are never on the recency list, and occupied ones never on the free list. */
  lemma FreeNotListed<K, V>(e: seq<Slot<K, V>>, o: seq<nat>, f: seq<nat>, emptyHead: Option<nat>)
    requires InSlots(e, o) && FreeChain(e, f, emptyHead)
    ensures forall a, b :: 0 <= a < |o| && 0 <= b < |f| ==> o[a] != f[b]
  {
    forall a, b | 0 <= a < |o| && 0 <= b < |f| ensures o[a] != f[b] {
      assert FreeAt(e, f, b);
    }
  }

  /** The index gives every key one slot, so the view has distinct keys. */
  lemma IndexedDistinct<K, V>(e: seq<Slot<K, V>>, o: seq<nat>, index: map<K, nat>)
    requires InSlots(e, o) && Distinct(o) && Indexed(e, o, index)
    ensures DistinctKeys(View(e, o))
  {
    var s := View(e, o);
    forall a, b | 0 <= a < b < |s| ensures s[a].key != s[b].key {
      assert KeyAt(e, o, index, a) && KeyAt(e, o, index, b);
      DistinctAt(o, a, b);
    }
  }

  /** The position on the list of the slot an indexed key points at. */
  lemma Located<K, V>(e: seq<Slot<K, V>>, o: seq<nat>, index: map<K, nat>, k: K) returns (a: nat)
    requires InSlots(e, o) && Indexed(e, o, index) && k in index
    ensures a < |o| && o[a] == index[k] && e[o[a]].key == k
  {
    assert SlotOf(e, o, index, k);
    a :| 0 <= a < |o| && o[a] == index[k];
  }

  /** Slots the list does not use may change without affecting the index. */
  lemma IndexedFrame<K, V>(e: seq<Slot<K, V>>, e2: seq<Slot<K, V>>, o: seq<nat>, index: map<K, nat>)
    requires InSlots(e, o) && Indexed(e, o, index)
    requires |e2| >= |e| && forall j :: 0 <= j < |o| ==> e2[o[j]] == e[o[j]]
    ensures InSlots(e2, o) && Indexed(e2, o, index)
  {
    forall j | 0 <= j < |o| ensures KeyAt(e2, o, index, j) {
      assert KeyAt(e, o, index, j);
    }
    forall k | k in index ensures SlotOf(e2, o, index, k) {
      var a := Located(e, o, index, k);
    }
  }

  /** Where the index points, the view holds that key. */
  lemma IndexedFind<K, V>(e: seq<Slot<K, V>>, o: seq<nat>, index: map<K, nat>, k: K) returns (i: nat)
    requires InSlots(e, o) && Distinct(o) && Indexed(e, o, index)
    ensures k in index ==> i < |o| && o[i] == index[k] && Find(View(e, o), k) == Some(i)
    ensures k !in index ==> Find(View(e, o), k) == None
  {
    IndexedDistinct(e, o, index);
    if k in index {
      i := Located(e, o, index, k);
      FindDistinct(View(e, o), k, i);
    } else {
      forall j | 0 <= j < |o| ensures View(e, o)[j].key != k {
        assert KeyAt(e, o, index, j);
      }
      i := 0;
    }
  }

  // ---------------------------------------------------------------------------

  class CostBasedLru<K(==), V> {
    var entries: seq<Slot<K, V>>
    /** Points at the slot of each key. */
    var index: map<K, nat>
    /** At what cost eviction starts. */
    const maxCost: nat
    var entriesHead: Option<nat>
    var entriesTail: Option<nat>
    var emptyHead: Option<nat>
    /** Current cost of the items in the cache. */
    var currentCost: nat

    ghost var order: seq<nat>
    ghost var free: seq<nat>

    /**
      The structural invariant, which holds between operations and inside
      `insert` before eviction. Every slot is on exactly one of the two lists:
      both lists are without repeats and disjoint (listed slots are occupied,
      free ones empty), and together they are as long as the slot vector.
     */
    ghost predicate Wellformed()
      reads this
    {
      && Linked(entries, order, entriesHead, entriesTail)
      && FreeChain(entries, free, emptyHead)
      && Indexed(entries, order, index)
      && currentCost == TotalCost(View(entries, order))
      && |entries| == |order| + |free|
    }

    /** The invariant of every public operation: well formed and within budget. */
    ghost predicate Valid()
      reads this
    {
      Wellformed() && currentCost <= maxCost
    }

    /** The cached entries, most recently used first. */
    ghost function Contents(): seq<Entry<K, V>>
      reads this
      requires InSlots(entries, order)
    {
      View(entries, order)
    }

    constructor (maxCost: nat)
      ensures Valid() && this.maxCost == maxCost
      ensures Contents() == []
      ensures entries == [] && free == []
    {
      this.maxCost := maxCost;
      entries := [];
      index := map[];
      entriesHead := None;
      entriesTail := None;
      emptyHead := None;
      currentCost := 0;
      order := [];
      free := [];
    }

    /** Entirely unlink the occupied slot `ind`, the `i`-th of the list. Its own links stay as they were. */
    method UnlinkIndex(ind: nat, ghost i: nat)
      requires Linked(entries, order, entriesHead, entriesTail)
      requires i < |order| && order[i] == ind
      modifies this`entries, this`entriesHead, this`entriesTail, this`order
      ensures order == old(RemoveAt(order, i))
      ensures Linked(entries, order, entriesHead, entriesTail)
      ensures SamePayload(old(entries), entries)
      ensures entries[ind] == old(entries[ind])
    {
      ghost var e0, o0 := entries, order;
      if i != 0 {
        DistinctAt(o0, i, 0);
      }
      if i != |o0| - 1 {
        DistinctAt(o0, i, |o0| - 1);
      }
      assert LinkedAt(e0, o0, i);
      if i > 0 {
        assert LinkedAt(e0, o0, i - 1);
      }
      if i + 1 < |o0| {
        assert LinkedAt(e0, o0, i + 1);
        if i > 0 {
          DistinctAt(o0, i - 1, i + 1);
        }
      }
      if Some(ind) == entriesTail {
        entriesTail := entries[ind].prev;
      }

      if Some(ind) == entriesHead {
        entriesHead := entries[ind].next;
        if entriesHead.Some? {
          var n := entriesHead.value;
          entries := entries[n := entries[n].(prev := None)];
        }
        order := order[1..];
        assert order == RemoveAt(o0, i);
        UnlinkRelinks(e0, o0, i, entries);
        return;
      }

      var oldPrev := entries[ind].prev.value;
      var oldNext := entries[ind].next;
      entries := entries[oldPrev := entries[oldPrev].(next := oldNext)];
      if oldNext.Some? {
        var n := oldNext.value;
        entries := entries[n := entries[n].(prev := Some(oldPrev))];
      }
      order := RemoveAt(order, i);
      UnlinkRelinks(e0, o0, i, entries);
    }

    /** Make the occupied slot `ind`, the `i`-th of the list, the most recent one. */
    method MakeMostRecent(ind: nat, ghost i: nat)
      requires Linked(entries, order, entriesHead, entriesTail)
      requires i < |order| && order[i] == ind
      modifies this`entries, this`entriesHead, this`entriesTail, this`order
      ensures order == MoveToFront(old(order), i)
      ensures Linked(entries, order, entriesHead, entriesTail)
      ensures SamePayload(old(entries), entries)
    {
      ghost var e0 := entries;
      UnlinkIndex(ind, i);
      ghost var e1, o1 := entries, order;
      forall j | 0 <= j < |o1| ensures o1[j] != ind {
        DistinctAt(old(order), if j < i then j else j + 1, i);
      }
      // The new head must not keep the `prev` it had in the middle of the list.
      entries := entries[ind := entries[ind].(prev := None, next := entriesHead)];
      if entriesHead.Some? {
        var h := entriesHead.value;
        entries := entries[h := entries[h].(prev := Some(ind))];
      }
      entriesHead := Some(ind);

      if entriesTail.None? {
        entriesTail := Some(ind);
      }
      order := [ind] + order;
      PushFrontLinks(e1, o1, ind, entries);
    }

    /** `get`: on a hit the entry becomes the most recent and its value is returned; a miss changes nothing. */
    method Get(key: K) returns (r: Option<V>)
      requires Valid()
      modifies this`entries, this`entriesHead, this`entriesTail, this`order
      ensures Valid()
      ensures r == ValueOf(old(Contents()), key)
      ensures Contents() == Touch(old(Contents()), key)
    {
      ghost var i := IndexedFind(entries, order, index, key);
      if key !in index {
        return None;
      }
      var ind := index[key];
      ghost var e0, o0 := entries, order;
      MakeMostRecent(ind, i);
      r := Some(entries[ind].item);
      ghost var c0 := View(e0, o0);
      assert FreeChain(entries, free, emptyHead) by {
        FreeChainSamePayload(e0, entries, free, emptyHead);
      }
      assert InSlots(entries, order) && View(entries, order) == Touch(c0, key) by {
        GetKeepsView(e0, o0, i, entries);
      }
      assert Indexed(entries, order, index) by {
        GetKeepsIndex(e0, o0, i, entries, index);
      }
      assert currentCost == TotalCost(View(entries, order)) by {
        TouchCost(c0, key);
      }
    }

    /**
      `become_empty`: free the `i`-th listed slot `ind`, push it on the free list
      and subtract its cost. The index may already miss the slot's key (as when
      `remove` has taken it out first).
     */
    method BecomeEmpty(ind: nat, ghost i: nat) returns (item: V)
      requires Linked(entries, order, entriesHead, entriesTail)
      requires FreeChain(entries, free, emptyHead)
      requires i < |order| && order[i] == ind
      requires Indexed(entries, order, index[entries[ind].key := ind])
      requires currentCost == TotalCost(Contents())
      requires |entries| == |order| + |free|
      modifies this`entries, this`entriesHead, this`entriesTail, this`order,
        this`emptyHead, this`free, this`index, this`currentCost
      ensures Wellformed()
      ensures item == old(Contents())[i].value
      ensures Contents() == old(RemoveAt(Contents(), i))
      ensures free == [ind] + old(free)
    {
      ghost var k := entries[ind].key;
      ghost var e0, o0, f0, i0 := entries, order, free, index[k := ind];
      UnlinkIndex(ind, i);
      ghost var e1 := entries;
      var gone := entries[ind];
      entries := entries[ind := Empty(emptyHead)];
      emptyHead := Some(ind);
      free := [ind] + free;
      RemoveUpdated(index, k, ind);
      index := index - {gone.key};
      BecomeEmptyStep(e0, o0, f0, old(emptyHead), i, i0, e1, entries, order);
      currentCost := currentCost - gone.cost;
      item := gone.item;
    }

    /** `remove`: take out the entry for `key` and return its value; an absent key changes nothing. */
    method Remove(key: K) returns (r: Option<V>)
      requires Valid()
      modifies this`entries, this`entriesHead, this`entriesTail, this`order,
        this`emptyHead, this`free, this`index, this`currentCost
      ensures Valid()
      ensures r == ValueOf(old(Contents()), key)
      ensures Contents() == Without(old(Contents()), key)
    {
      ghost var i := IndexedFind(entries, order, index, key);
      if key !in index {
        return None;
      }
      var ind := index[key];
      index := index - {key};
      assert index[key := ind] == old(index);
      var item := BecomeEmpty(ind, i);
      r := Some(item);
      TotalCostRemoveAt(old(Contents()), i);
    }

    /** `find_empty`: reuse the first free slot, or grow the vector by one empty slot when none is free. */
    method FindEmpty() returns (ind: nat)
      requires Wellformed()
      modifies this`entries, this`emptyHead, this`free
      ensures ind < |entries| && entries[ind].Empty?
      ensures old(free) != [] ==> ind == old(free[0]) && free == old(free[1..]) && entries == old(entries)
      ensures old(free) == [] ==> ind == old(|entries|) && entries == old(entries) + [Empty(None)] && free == []
      ensures Linked(entries, order, entriesHead, entriesTail)
      ensures FreeChain(entries, free, emptyHead)
      ensures Indexed(entries, order, index)
      ensures Contents() == old(Contents())
      ensures forall j :: 0 <= j < |order| ==> order[j] != ind
      ensures forall j :: 0 <= j < |free| ==> free[j] != ind
      ensures |entries| == |order| + |free| + 1
    {
      FreeNotListed(entries, order, free, emptyHead);
      if emptyHead.Some? {
        var e := emptyHead.value;
        assert FreeAt(entries, free, 0);
        emptyHead := entries[e].nextEmpty;
        free := free[1..];
        forall j | 0 <= j < |free| ensures FreeAt(entries, free, j) && free[j] != e {
          assert FreeAt(entries, old(free), j + 1);
          DistinctAt(old(free), j + 1, 0);
        }
        DistinctTail(old(free));
        return e;
      }
      ghost var e0 := entries;
      entries := entries + [Empty(None)];
      LinkedFrame(e0, entries, order, entriesHead, entriesTail);
      IndexedFrame(e0, entries, order, index);
      ind := |entries| - 1;
    }

    /** `insert`: replace any entry for `key` by a new most recent one, then evict; returns the old value. */
    method Insert(key: K, value: V, cost: nat) returns (r: Option<V>)
      requires Valid()
      modifies this
      ensures Valid()
      ensures r == ValueOf(old(Contents()), key)
      ensures Contents() == Put(old(Contents()), key, value, cost, maxCost)
    {
      ghost var c := Contents();
      IndexedDistinct(entries, order, index);
      r := Remove(key);
      assert !Holds(Contents(), key) by {
        WithoutSpec(c, key);
      }
      var ind := FindEmpty();
      LinkAtHead(ind, key, value, cost);
      MaybeEvict();
    }

    /**
      The middle of `insert`: occupy the empty slot `ind` with the new entry,
      make it the head, index it and add its cost. Eviction comes after.
     */
    method LinkAtHead(ind: nat, key: K, value: V, cost: nat)
      requires Linked(entries, order, entriesHead, entriesTail)
      requires FreeChain(entries, free, emptyHead) && Indexed(entries, order, index)
      requires currentCost == TotalCost(Contents())
      requires ind < |entries| && entries[ind].Empty?
      requires forall j :: 0 <= j < |free| ==> free[j] != ind
      requires !Holds(Contents(), key)
      requires |entries| == |order| + |free| + 1
      modifies this`entries, this`entriesHead, this`entriesTail, this`order, this`index, this`currentCost
      ensures Wellformed()
      ensures Contents() == [Entry(key, value, cost)] + old(Contents())
    {
      ghost var e1, o1, i1, t1 := entries, order, index, entriesTail;
      var oldHead := entriesHead;

      entries := entries[ind := Occupied(key, value, None, entriesHead, cost)];
      entriesHead := Some(ind);
      index := index[key := ind];
      currentCost := currentCost + cost;

      if oldHead.Some? {
        var h := oldHead.value;
        entries := entries[h := entries[h].(prev := entriesHead)];
      }

      if entriesTail.None? {
        entriesTail := Some(ind);
      }
      order := [ind] + order;
      InsertKeepsShape(e1, o1, t1, free, emptyHead, i1, ind, key, value, cost, entries, order, entriesTail);
    }

    /** `maybe_evict`: evict the tail, the least recently used entry, while over budget. */
    method MaybeEvict()
      requires Wellformed()
      modifies this`entries, this`entriesHead, this`entriesTail, this`order,
        this`emptyHead, this`free, this`index, this`currentCost
      ensures Valid()
      ensures Contents() == Evict(old(Contents()), maxCost)
    {
      while currentCost > maxCost
        invariant Wellformed()
        invariant Evict(Contents(), maxCost) == Evict(old(Contents()), maxCost)
        decreases |order|
      {
        TailEvictable(entries, order, index, entriesHead, entriesTail, currentCost, maxCost);
        var cur := entriesTail.value;
        var _ := BecomeEmpty(cur, |order| - 1);
      }
    }

    /** `iter`: the key/value pairs, walked from the head along the `next` links. */
    method Iter() returns (r: seq<(K, V)>)
      requires Valid()
      ensures |r| == |Contents()|
      ensures forall i :: 0 <= i < |r| ==> r[i] == (Contents()[i].key, Contents()[i].value)
    {
      var ind := entriesHead;
      r := [];
      ghost var n := 0;
      while ind.Some?
        invariant 0 <= n <= |order| && |r| == n
        invariant ind == if n < |order| then Some(order[n]) else None
        invariant forall i :: 0 <= i < n ==> r[i] == (Contents()[i].key, Contents()[i].value)
        decreases |order| - n
      {
        assert LinkedAt(entries, order, n);
        var slot := entries[ind.value];
        r := r + [(slot.key, slot.item)];
        ind := slot.next;
        n := n + 1;
      }
    }
  }

  // ---------------------------------------------------------------------------
  // Shape preservation, one lemma per mutating step

  /** The order `get` leaves: slot `o[i]` moved to the front. */
  function MoveToFront(o: seq<nat>, i: nat): (o2: seq<nat>)
    requires i < |o|
    ensures |o2| == |o| && o2[0] == o[i]
    ensures forall j :: 0 < j <= i ==> o2[j] == o[j - 1]
    ensures forall j :: i < j < |o| ==> o2[j] == o[j]
  {
    [o[i]] + RemoveAt(o, i)
  }

  lemma GetKeepsIndex<K, V>(e0: seq<Slot<K, V>>, o0: seq<nat>, i: nat, e: seq<Slot<K, V>>, index: map<K, nat>)
    requires InSlots(e0, o0) && Indexed(e0, o0, index) && i < |o0|
    requires InSlots(e, MoveToFront(o0, i)) && SamePayload(e0, e)
    ensures Indexed(e, MoveToFront(o0, i), index)
  {
    var o := MoveToFront(o0, i);
    forall j | 0 <= j < |o| ensures KeyAt(e, o, index, j) {
      var jj := if j == 0 then i else if j <= i then j - 1 else j;
      assert o[j] == o0[jj];
      assert KeyAt(e0, o0, index, jj);
    }
    forall k | k in index ensures SlotOf(e, o, index, k) {
      var a := Located(e0, o0, index, k);
      var b := if a == i then 0 else if a < i then a + 1 else a;
      assert o[b] == o0[a];
    }
  }

  lemma GetKeepsView<K, V>(e0: seq<Slot<K, V>>, o0: seq<nat>, i: nat, e: seq<Slot<K, V>>)
    requires InSlots(e0, o0) && i < |o0| && SamePayload(e0, e)
    ensures InSlots(e, MoveToFront(o0, i))
    ensures View(e, MoveToFront(o0, i)) == [View(e0, o0)[i]] + RemoveAt(View(e0, o0), i)
  {
    ViewSamePayload(e0, e, o0);
    ViewRemoveAt(e, o0, i);
    ViewCons(e, o0[i], RemoveAt(o0, i));
  }

  /** Once slot `o[i]` leaves the list, it is no longer listed anywhere. */
  lemma RemovedUnlisted(o: seq<nat>, i: nat)
    requires Distinct(o) && i < |o|
    ensures Distinct(RemoveAt(o, i))
    ensures forall j :: 0 <= j < |o| - 1 ==> RemoveAt(o, i)[j] != o[i]
  {
    DistinctRemoveAt(o, i);
    forall j | 0 <= j < |o| - 1 ensures RemoveAt(o, i)[j] != o[i] {
      DistinctAt(o, if j < i then j else j + 1, i);
    }
  }

  lemma BecomeEmptyFree<K, V>(e0: seq<Slot<K, V>>, o0: seq<nat>, f0: seq<nat>, i: nat, e1: seq<Slot<K, V>>)
    requires InSlots(e0, o0) && FreeChain(e0, f0, First(f0)) && i < |o0| && SamePayload(e0, e1)
    ensures FreeChain(e1[o0[i] := Empty(First(f0))], [o0[i]] + f0, Some(o0[i]))
  {
    var ind := o0[i];
    var e := e1[ind := Empty(First(f0))];
    var f := [ind] + f0;
    FreeNotListed(e0, o0, f0, First(f0));
    assert forall j :: 0 < j < |f| ==> f[j] == f0[j - 1];
    DistinctCons(ind, f0);
    forall j | 0 <= j < |f| ensures FreeAt(e, f, j) {
      if j > 0 {
        assert FreeAt(e0, f0, j - 1);
      }
    }
  }

  lemma BecomeEmptyIndex<K, V>(e0: seq<Slot<K, V>>, o0: seq<nat>, index0: map<K, nat>, i: nat, e1: seq<Slot<K, V>>, x: Slot<K, V>)
    requires InSlots(e0, o0) && Indexed(e0, o0, index0) && i < |o0| && SamePayload(e0, e1)
    requires forall j :: 0 <= j < |o0| - 1 ==> RemoveAt(o0, i)[j] != o0[i]
    ensures InSlots(e1[o0[i] := x], RemoveAt(o0, i))
    ensures Indexed(e1[o0[i] := x], RemoveAt(o0, i), index0 - {e0[o0[i]].key})
  {
    var o := RemoveAt(o0, i);
    var e := e1[o0[i] := x];
    var index := index0 - {e0[o0[i]].key};
    assert KeyAt(e0, o0, index0, i);
    forall j | 0 <= j < |o| ensures KeyAt(e, o, index, j) {
      var jj := if j < i then j else j + 1;
      assert KeyAt(e0, o0, index0, jj);
    }
    forall k | k in index ensures SlotOf(e, o, index, k) {
      var a := Located(e0, o0, index0, k);
      assert o[if a < i then a else a - 1] == o0[a];
    }
  }

  /**
    While over budget, `maybe_evict` finds the tail: the list is not empty, the
    tail is its last slot and is indexed under its own key, and dropping it does
    not change the outcome of eviction.
   */
  lemma TailEvictable<K, V>(e: seq<Slot<K, V>>, o: seq<nat>, index: map<K, nat>, head: Option<nat>,
                            tail: Option<nat>, cost: nat, max: nat)
    requires Linked(e, o, head, tail) && Indexed(e, o, index)
    requires cost == TotalCost(View(e, o)) && cost > max
    ensures o != [] && tail == Some(o[|o| - 1])
    ensures index[e[o[|o| - 1]].key := o[|o| - 1]] == index
    ensures Evict(View(e, o), max) == Evict(RemoveAt(View(e, o), |o| - 1), max)
  {
    var c := View(e, o);
    assert c != [];
    assert KeyAt(e, o, index, |o| - 1);
    assert RemoveAt(c, |c| - 1) == c[..|c| - 1];
  }

  /** What `become_empty` does to the `i`-th listed slot, once it is unlinked. */
  /** Removing a key forgets whatever it was last updated to. */
  lemma RemoveUpdated<K, X>(m: map<K, X>, k: K, x: X)
    ensures m[k := x] - {k} == m - {k}
  {
  }

  lemma BecomeEmptyStep<K, V>(e0: seq<Slot<K, V>>, o0: seq<nat>, f0: seq<nat>, emptyHead: Option<nat>, i: nat,
                              index0: map<K, nat>, e1: seq<Slot<K, V>>, e: seq<Slot<K, V>>, o: seq<nat>)
    requires Linked(e0, o0, First(o0), Last(o0)) && FreeChain(e0, f0, emptyHead) && Indexed(e0, o0, index0)
    requires i < |o0| && o == RemoveAt(o0, i)
    requires Linked(e1, o, First(o), Last(o)) && SamePayload(e0, e1)
    requires e == e1[o0[i] := Empty(emptyHead)]
    ensures Linked(e, o, First(o), Last(o))
    ensures FreeChain(e, [o0[i]] + f0, Some(o0[i]))
    ensures Indexed(e, o, index0 - {e0[o0[i]].key})
    ensures View(e, o) == RemoveAt(View(e0, o0), i)
    ensures TotalCost(View(e, o)) + e0[o0[i]].cost == TotalCost(View(e0, o0))
  {
    RemovedUnlisted(o0, i);
    LinkedFrame(e1, e, o, First(o), Last(o));
    BecomeEmptyFree(e0, o0, f0, i, e1);
    BecomeEmptyIndex(e0, o0, index0, i, e1, Empty(emptyHead));
    ViewSamePayload(e0, e1, o0);
    ViewRemoveAt(e1, o0, i);
    TotalCostRemoveAt(View(e0, o0), i);
  }

  lemma InsertKeepsShape<K, V>(e1: seq<Slot<K, V>>, o1: seq<nat>, tail1: Option<nat>, f: seq<nat>, emptyHead: Option<nat>,
                               index: map<K, nat>, ind: nat, key: K, value: V, cost: nat,
                               e: seq<Slot<K, V>>, o: seq<nat>, tail: Option<nat>)
    requires Linked(e1, o1, First(o1), tail1) && FreeChain(e1, f, emptyHead) && Indexed(e1, o1, index)
    requires ind < |e1| && e1[ind].Empty?
    requires forall j :: 0 <= j < |f| ==> f[j] != ind
    requires !Holds(View(e1, o1), key)
    requires e == (var e2 := e1[ind := Occupied(key, value, None, First(o1), cost)];
                   if o1 == [] then e2 else e2[o1[0] := e2[o1[0]].(prev := Some(ind))])
    requires o == [ind] + o1 && tail == (if tail1.None? then Some(ind) else tail1)
    ensures Linked(e, o, Some(ind), tail)
    ensures FreeChain(e, f, emptyHead)
    ensures Indexed(e, o, index[key := ind])
    ensures View(e, o) == [Entry(key, value, cost)] + View(e1, o1)
    ensures TotalCost(View(e, o)) == cost + TotalCost(View(e1, o1))
  {
    assert forall j :: 0 < j < |o| ==> o[j] == o1[j - 1];
    forall j | 0 <= j < |o1| ensures e1[o1[j]].key != key {
      assert View(e1, o1)[j].key == e1[o1[j]].key;
    }
    PushFrontLinks(e1, o1, ind, e);
    FreeNotListed(e1, o1, f, emptyHead);
    forall j | 0 <= j < |f| ensures FreeAt(e, f, j) {
      assert FreeAt(e1, f, j);
    }
    if key in index {
      var a := Located(e1, o1, index, key);
      assert false;
    }
    var index2 := index[key := ind];
    forall j | 0 <= j < |o| ensures KeyAt(e, o, index2, j) {
      if j > 0 {
        assert KeyAt(e1, o1, index, j - 1);
      }
    }
    forall k | k in index2 ensures SlotOf(e, o, index2, k) {
      if k != key {
        var a := Located(e1, o1, index, k);
        assert o[a + 1] == o1[a];
      }
    }
    ViewCons(e, ind, o1);
    assert View(e, o1) == View(e1, o1);
    TotalCostCons(Entry(key, value, cost), View(e1, o1));
  }
}
