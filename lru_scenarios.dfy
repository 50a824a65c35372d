/**
  Concrete runs of the cost-based cache: the eviction example of
  src/cost_based_lru.rs (a budget of 10 and five inserts costing 1 to 5 leave
  only the two most recent entries), and the call sequence that exposes the
  stale tail pointer of the code as written, run on the corrected cache.
 */
module LruScenarios {
  import opened Wrappers
  import opened LruSpec
  import C = CostLru
  import LruFinding

  /** Total cost 15 exceeds 10, so the three least recent entries go, in order. */
  lemma FiveInserts()
    ensures Put(Put(Put(Put(Put([], 1, 1, 1, 10), 2, 2, 2, 10), 3, 3, 3, 10), 4, 4, 4, 10), 5, 5, 5, 10)
         == [Entry(5, 5, 5), Entry(4, 4, 4)]
  {
    FirstFour();
    LastInsert();
  }

  /** Costs 1 + 2 + 3 + 4 = 10 stay within the budget. */
  lemma FirstFour()
    ensures Put(Put(Put(Put([], 1, 1, 1, 10), 2, 2, 2, 10), 3, 3, 3, 10), 4, 4, 4, 10)
         == [Entry(4, 4, 4), Entry(3, 3, 3), Entry(2, 2, 2), Entry(1, 1, 1)]
  {
    var e1, e2, e3, e4 := Entry(1, 1, 1), Entry(2, 2, 2), Entry(3, 3, 3), Entry(4, 4, 4);
    PutFits([], 1, 1, 1, 10);
    assert [e1] + [] == [e1];
    assert TotalCost([e1]) == 1 by { TotalCostCons(e1, []); }
    PutFits([e1], 2, 2, 2, 10);
    assert TotalCost([e2, e1]) == 3 by { TotalCostCons(e2, [e1]); assert [e2] + [e1] == [e2, e1]; }
    PutFits([e2, e1], 3, 3, 3, 10);
    assert [e3] + [e2, e1] == [e3, e2, e1];
    assert TotalCost([e3, e2, e1]) == 6 by { TotalCostCons(e3, [e2, e1]); }
    PutFits([e3, e2, e1], 4, 4, 4, 10);
    assert [e4] + [e3, e2, e1] == [e4, e3, e2, e1];
  }

  lemma LastInsert()
    ensures Put([Entry(4, 4, 4), Entry(3, 3, 3), Entry(2, 2, 2), Entry(1, 1, 1)], 5, 5, 5, 10)
         == [Entry(5, 5, 5), Entry(4, 4, 4)]
  {
    var e1, e2, e3, e4, e5 := Entry(1, 1, 1), Entry(2, 2, 2), Entry(3, 3, 3), Entry(4, 4, 4), Entry(5, 5, 5);
    var s := [e4, e3, e2, e1];
    assert Find(s, 5) == None;
    var w := [e5] + s;
    assert w == [e5, e4, e3, e2, e1];
    assert w[..4] == [e5, e4, e3, e2] && w[..3] == [e5, e4, e3] && w[..2] == [e5, e4];
    assert TotalCost([e5, e4]) == 9 by {
      TotalCostCons(e5, [e4]);
      TotalCostCons(e4, []);
      assert [e4] + [] == [e4];
    }
    assert TotalCost([e5, e4, e3]) == 12 by { assert [e5, e4, e3][..2] == [e5, e4]; }
    assert TotalCost([e5, e4, e3, e2]) == 14 by { assert [e5, e4, e3, e2][..3] == [e5, e4, e3]; }
    assert TotalCost(w) == 15 by { assert w[..4] == [e5, e4, e3, e2]; }
    assert Evict(w, 10) == Evict([e5, e4, e3, e2], 10);
    assert Evict([e5, e4, e3, e2], 10) == Evict([e5, e4, e3], 10);
    assert Evict([e5, e4, e3], 10) == Evict([e5, e4], 10);
  }

  /** `test_eviction`: after the five inserts, `iter()` yields (5, 5) and then (4, 4). */
  method EvictionScenario() returns (state: seq<(int, int)>)
    ensures state == [(5, 5), (4, 4)]
  {
    var cache := new C.CostBasedLru<int, int>(10);
    InsertFirstFour(cache);
    var _ := cache.Insert(5, 5, 5);
    LastInsert();
    state := cache.Iter();
  }

  /** The first four inserts of `test_eviction`, which all fit in the budget. */
  method InsertFirstFour(cache: C.CostBasedLru<int, int>)
    requires cache.Valid() && cache.maxCost == 10 && cache.Contents() == []
    modifies cache
    ensures cache.Valid()
    ensures cache.Contents() == [Entry(4, 4, 4), Entry(3, 3, 3), Entry(2, 2, 2), Entry(1, 1, 1)]
  {
    var _ := cache.Insert(1, 1, 1);
    var _ := cache.Insert(2, 2, 2);
    var _ := cache.Insert(3, 3, 3);
    var _ := cache.Insert(4, 4, 4);
    FirstFour();
  }

  /**
    The calls of LruFinding.StaleTailCounterexample on the corrected cache:
    insert a, insert b, get a, remove b, get a, insert c, insert d with unit
    costs and a budget of 2 leave d and c, the two most recent entries.
   */
  method StaleTailScenario() returns (state: seq<(int, int)>)
    ensures state == [(4, 40), (3, 30)]
  {
    var cache := new C.CostBasedLru<int, int>(2);
    StaleTailFirstFive(cache);
    StaleTailLastTwo(cache);
    state := cache.Iter();
  }

  /** Insert a, insert b, get a, remove b, get a: only a is left. */
  method StaleTailFirstFive(cache: C.CostBasedLru<int, int>)
    requires cache.Valid() && cache.maxCost == 2 && cache.Contents() == []
    modifies cache
    ensures cache.Valid()
    ensures cache.Contents() == [Entry(1, 10, 1)]
  {
    var _ := cache.Insert(1, 10, 1);
    var _ := cache.Insert(2, 20, 1);
    LruFinding.IntendedFirstTwo();
    var _ := cache.Get(1);
    var _ := cache.Remove(2);
    var _ := cache.Get(1);
    LruFinding.IntendedMiddle();
  }

  /** Insert c, insert d: the budget of 2 evicts a, the least recent entry. */
  method StaleTailLastTwo(cache: C.CostBasedLru<int, int>)
    requires cache.Valid() && cache.maxCost == 2 && cache.Contents() == [Entry(1, 10, 1)]
    modifies cache
    ensures cache.Valid()
    ensures cache.Contents() == [Entry(4, 40, 1), Entry(3, 30, 1)]
  {
    var _ := cache.Insert(3, 30, 1);
    var _ := cache.Insert(4, 40, 1);
    LruFinding.IntendedLastTwo();
  }
}
