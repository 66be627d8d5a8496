/**
 * The scenarios of internal/cache/cache_lru/cache_lru_test.go, run against the
 * contracts of `LruCache` (the concurrent ones sequentially), plus the
 * refresh-then-evict scenario: after `Get` touches the oldest key, the next
 * eviction takes the second oldest instead.
 */
module CacheLruTests {
  import opened Wrappers
  import opened Repository
  import opened CacheLru

  /** A cache of capacity 3 after adding "one", "two", "three" in order. */
  method ThreeEntries() returns (lru: LruCache<string>)
    ensures fresh(lru) && lru.Valid() && lru.capacity == 3
    ensures lru.queue == [Item("three", "3"), Item("two", "2"), Item("one", "1")]
  {
    lru := new LruCache<string>("", 3);
    var _ := lru.Add("one", "1");
    assert lru.queue == [Item("one", "1")];
    var _ := lru.Add("two", "2");
    assert Find([Item("one", "1")], "two") == None;
    assert lru.queue == [Item("two", "2"), Item("one", "1")];
    var _ := lru.Add("three", "3");
    assert Find([Item("two", "2"), Item("one", "1")], "three") == None;
  }

  method AddNewElementAddedOnFront()
  {
    var lru := new LruCache<string>("", 3);
    var _ := lru.Add("one", "1");
    assert lru.queue == [Item("one", "1")];
    var _ := lru.Add("two", "2");
    assert Find([Item("one", "1")], "two") == None;
    var eviction := lru.Add("three", "3");
    assert Find([Item("two", "2"), Item("one", "1")], "three") == None;
    assert !eviction;
    assert lru.queue == [Item("three", "3"), Item("two", "2"), Item("one", "1")];
    assert lru.Len() == 3;
  }

  method AddNewElementFullCacheOldestRemoved()
  {
    var lru := ThreeEntries();
    assert Find([Item("three", "3"), Item("two", "2"), Item("one", "1")], "four") == None;
    var eviction := lru.Add("four", "4");
    assert eviction;
    assert lru.queue == [Item("four", "4"), Item("three", "3"), Item("two", "2")];
    assert Find([Item("four", "4"), Item("three", "3"), Item("two", "2")], "one") == None;
    FindMapOf(lru.queue, "one");
    assert "one" !in lru.values;
    assert lru.Len() == 3;
  }

  method AddExistElementMoveToFrontAndNewValue()
  {
    var lru := new LruCache<string>("", 3);
    var _ := lru.Add("one", "1");
    assert lru.queue == [Item("one", "1")];
    var _ := lru.Add("two", "2");
    assert Find([Item("one", "1")], "two") == None;
    assert lru.queue == [Item("two", "2"), Item("one", "1")];
    assert Find([Item("two", "2"), Item("one", "1")], "one") == Some("1");
    assert Without([Item("two", "2"), Item("one", "1")], "one") == [Item("two", "2")];
    var eviction := lru.Add("one", "uno");
    assert !eviction;
    assert lru.queue == [Item("one", "uno"), Item("two", "2")];
    assert lru.values["one"] == Item("one", "uno");
    assert lru.Len() == 2;
  }

  method AddExistElementFullCacheMoveToFrontAndNewValue()
  {
    var lru := ThreeEntries();
    assert Find([Item("three", "3"), Item("two", "2"), Item("one", "1")], "one") == Some("1");
    assert Without([Item("three", "3"), Item("two", "2"), Item("one", "1")], "one") == [Item("three", "3"), Item("two", "2")];
    var eviction := lru.Add("one", "uno");
    assert !eviction;
    assert lru.queue == [Item("one", "uno"), Item("three", "3"), Item("two", "2")];
    assert lru.Len() == 3;
  }

  method GetExistElementReturnWithoutError()
  {
    var lru := ThreeEntries();
    assert Find([Item("three", "3"), Item("two", "2"), Item("one", "1")], "one") == Some("1");
    assert Without([Item("three", "3"), Item("two", "2"), Item("one", "1")], "one") == [Item("three", "3"), Item("two", "2")];
    var r := lru.Get("one");
    assert r == Success("1");
    assert lru.queue == [Item("one", "1"), Item("three", "3"), Item("two", "2")];
    assert lru.Len() == 3;
  }

  method GetMissingElementReturnError()
  {
    var lru := ThreeEntries();
    assert Find([Item("three", "3"), Item("two", "2"), Item("one", "1")], "four") == None;
    var r := lru.Get("four");
    assert r == Failure(ErrElementNotInCache);
    assert lru.queue == [Item("three", "3"), Item("two", "2"), Item("one", "1")];
    assert lru.Len() == 3;
  }

  method DeleteExistElementRemovedAndReturnWithoutError()
  {
    var lru := ThreeEntries();
    assert Find([Item("three", "3"), Item("two", "2"), Item("one", "1")], "one") == Some("1");
    assert Without([Item("three", "3"), Item("two", "2"), Item("one", "1")], "one") == [Item("three", "3"), Item("two", "2")];
    var err := lru.Delete("one");
    assert err == None;
    assert lru.queue == [Item("three", "3"), Item("two", "2")];
    assert lru.Len() == 2;
  }

  method DeleteMissingElementReturnError()
  {
    var lru := ThreeEntries();
    assert Find([Item("three", "3"), Item("two", "2"), Item("one", "1")], "four") == None;
    var err := lru.Delete("four");
    assert err == Some(ErrElementNotInCache);
    assert lru.queue == [Item("three", "3"), Item("two", "2"), Item("one", "1")];
    assert lru.Len() == 3;
  }

  method GetRefreshesBeforeEviction()
  {
    var lru := new LruCache<string>("", 3);
    var _ := lru.Add("A", "a");
    assert lru.queue == [Item("A", "a")];
    var _ := lru.Add("B", "b");
    assert Find([Item("A", "a")], "B") == None;
    assert lru.queue == [Item("B", "b"), Item("A", "a")];
    var _ := lru.Add("C", "c");
    assert Find([Item("B", "b"), Item("A", "a")], "C") == None;
    assert lru.queue == [Item("C", "c"), Item("B", "b"), Item("A", "a")];
    assert Find([Item("C", "c"), Item("B", "b"), Item("A", "a")], "A") == Some("a");
    assert Without([Item("C", "c"), Item("B", "b"), Item("A", "a")], "A") == [Item("C", "c"), Item("B", "b")];
    var r := lru.Get("A");
    assert r == Success("a");
    assert lru.queue == [Item("A", "a"), Item("C", "c"), Item("B", "b")];
    assert Find([Item("A", "a"), Item("C", "c"), Item("B", "b")], "D") == None;
    var eviction := lru.Add("D", "d");
    assert eviction;
    assert lru.queue == [Item("D", "d"), Item("A", "a"), Item("C", "c")];
    assert Find([Item("D", "d"), Item("A", "a"), Item("C", "c")], "B") == None && Find([Item("D", "d"), Item("A", "a"), Item("C", "c")], "A") == Some("a");
    FindMapOf(lru.queue, "B");
    FindMapOf(lru.queue, "A");
    assert "B" !in lru.values && "A" in lru.values;
  }
}
