/**
 * The bounded LRU cache of internal/cache/cache_lru/cache_lru.go.
 *
 * The Go cache keeps a `container/list` of items, most recent at the front,
 * and a map from each key to its list element. Here the list is a
 * `seq<Item<V>>` (front first) and the map sends each key to its item. The
 * pure functions below describe what each operation does to the queue; the
 * class `LruCache` implements them in place and is proved against them.
 */
module CacheLru {
  import opened Wrappers
  import opened Repository

  /** One cache entry (the `Item` the list elements carry). */
  datatype Item<V> = Item(key: string, value: V)

  // ---------------------------------------------------------------------------
  // The queue, as a value

  /** The value of the first item with key k, if any. */
  function Find<V>(q: seq<Item<V>>, k: string): Option<V>
  {
    if q == [] then None
    else if q[0].key == k then Some(q[0].value)
    else Find(q[1..], k)
  }

  /** No key occurs twice in the queue. */
  predicate UniqueKeys<V>(q: seq<Item<V>>)
  {
    q == [] || (Find(q[1..], q[0].key).None? && UniqueKeys(q[1..]))
  }

  /** The queue with every item of key k removed, the others in their order. */
  function Without<V>(q: seq<Item<V>>, k: string): seq<Item<V>>
  {
    if q == [] then []
    else if q[0].key == k then Without(q[1..], k)
    else [q[0]] + Without(q[1..], k)
  }

  /** The map the Go cache keeps beside its list: key to item. */
  function MapOf<V>(q: seq<Item<V>>): map<string, Item<V>>
  {
    if q == [] then map[] else MapOf(q[1..])[q[0].key := q[0]]
  }

  /** list.MoveToFront after the item's value was overwritten. */
  function Promote<V>(q: seq<Item<V>>, k: string, v: V): seq<Item<V>>
  {
    [Item(k, v)] + Without(q, k)
  }

  /** What `Add` leaves: the new queue and whether an entry was evicted. */
  datatype Added<V> = Added(queue: seq<Item<V>>, eviction: bool)

  /** `Add(key, value)` on a cache holding q. */
  function AddSpec<V>(q: seq<Item<V>>, capacity: int, k: string, v: V): Added<V>
    requires capacity != 0
  {
    if Find(q, k).Some? then Added(Promote(q, k, v), false)
    else if |q| == capacity then Added([Item(k, v)] + q[..|q| - 1], true)
    else Added([Item(k, v)] + q, false)
  }

  /** What `Get` leaves: the new queue and the value or the error returned. */
  datatype Got<V> = Got(queue: seq<Item<V>>, result: Result<V, Error>)

  /** `Get(key)` on a cache holding q. */
  function GetSpec<V>(q: seq<Item<V>>, k: string): Got<V>
  {
    match Find(q, k)
    case Some(v) => Got(Promote(q, k, v), Success(v))
    case None => Got(q, Failure(ErrElementNotInCache))
  }

  /** What `Delete` leaves: the new queue and the error returned, if any. */
  datatype Deleted<V> = Deleted(queue: seq<Item<V>>, err: Option<Error>)

  /** `Delete(key)` on a cache holding q. */
  function DeleteSpec<V>(q: seq<Item<V>>, k: string): Deleted<V>
  {
    if Find(q, k).Some? then Deleted(Without(q, k), None)
    else Deleted(q, Some(ErrElementNotInCache))
  }

  // ---------------------------------------------------------------------------
  // Facts about the queue functions

  lemma {:induction false} FindMapOf<V>(q: seq<Item<V>>, k: string)
    ensures k in MapOf(q) <==> Find(q, k).Some?
    ensures k in MapOf(q) ==> MapOf(q)[k] == Item(k, Find(q, k).value)
  {
    if q != [] {
      FindMapOf(q[1..], k);
    }
  }

  lemma {:induction false} FindAt<V>(q: seq<Item<V>>, i: int)
    requires 0 <= i < |q|
    ensures Find(q, q[i].key).Some?
  {
    if i > 0 && q[0].key != q[i].key {
      FindAt(q[1..], i - 1);
    }
  }

  lemma {:induction false} FindAbsent<V>(q: seq<Item<V>>, k: string)
    requires Find(q, k).None?
    ensures forall i :: 0 <= i < |q| ==> q[i].key != k
  {
    forall i | 0 <= i < |q| ensures q[i].key != k {
      FindAt(q, i);
    }
  }

  lemma {:induction false} FindWithout<V>(q: seq<Item<V>>, k: string, x: string)
    ensures Find(Without(q, k), x) == if x == k then None else Find(q, x)
  {
    if q != [] {
      FindWithout(q[1..], k, x);
    }
  }

  lemma {:induction false} WithoutAbsent<V>(q: seq<Item<V>>, k: string)
    requires Find(q, k).None?
    ensures Without(q, k) == q
  {
    if q != [] {
      WithoutAbsent(q[1..], k);
      assert q == [q[0]] + q[1..];
    }
  }

  /** Moving the front item to the front again leaves a queue of unique keys as it was. */
  lemma PromoteFront<V>(q: seq<Item<V>>, k: string)
    requires UniqueKeys(q) && q != [] && q[0].key == k
    ensures Promote(q, k, q[0].value) == q
  {
    WithoutAbsent(q[1..], k);
    assert q == [q[0]] + q[1..];
  }

  lemma {:induction false} WithoutLength<V>(q: seq<Item<V>>, k: string)
    requires UniqueKeys(q)
    ensures |Without(q, k)| == if Find(q, k).Some? then |q| - 1 else |q|
  {
    if q != [] {
      WithoutLength(q[1..], k);
      if q[0].key == k {
        WithoutAbsent(q[1..], k);
      }
    }
  }

  lemma {:induction false} WithoutUnique<V>(q: seq<Item<V>>, k: string)
    requires UniqueKeys(q)
    ensures UniqueKeys(Without(q, k))
  {
    if q != [] {
      WithoutUnique(q[1..], k);
      if q[0].key != k {
        FindWithout(q[1..], k, q[0].key);
        assert ([q[0]] + Without(q[1..], k))[1..] == Without(q[1..], k);
      }
    }
  }

  lemma {:induction false} WithoutIdempotent<V>(q: seq<Item<V>>, k: string)
    ensures Without(Without(q, k), k) == Without(q, k)
  {
    FindWithout(q, k, k);
    WithoutAbsent(Without(q, k), k);
  }

  lemma {:induction false} WithoutCommute<V>(q: seq<Item<V>>, j: string, k: string)
    ensures Without(Without(q, j), k) == Without(Without(q, k), j)
  {
    if q != [] {
      WithoutCommute(q[1..], j, k);
    }
  }

  lemma {:induction false} WithoutDropLast<V>(q: seq<Item<V>>)
    requires UniqueKeys(q) && q != []
    ensures Without(q, q[|q| - 1].key) == q[..|q| - 1]
  {
    var last := q[|q| - 1];
    if |q| == 1 {
      assert Without(q[1..], last.key) == [];
    } else {
      assert q[1..][|q| - 2] == last;
      FindAbsent(q[1..], q[0].key);
      assert q[0].key != last.key;
      WithoutDropLast(q[1..]);
      assert q[1..][..|q| - 2] == q[1..|q| - 1];
      assert q[..|q| - 1] == [q[0]] + q[1..|q| - 1];
    }
  }

  lemma {:induction false} MapOfWithout<V>(q: seq<Item<V>>, k: string)
    ensures MapOf(Without(q, k)) == MapOf(q) - {k}
  {
    if q != [] {
      MapOfWithout(q[1..], k);
    }
  }

  lemma {:induction false} MapOfSize<V>(q: seq<Item<V>>)
    requires UniqueKeys(q)
    ensures |MapOf(q)| == |q|
  {
    if q != [] {
      MapOfSize(q[1..]);
      FindMapOf(q[1..], q[0].key);
    }
  }

  /**
   * The representation invariant the Go tests check: every queue node is in
   * the map under its own key with the same item, every map entry carries
   * its key, no key is queued twice, and the map has one entry per node.
   */
  lemma RepresentationInvariant<V>(q: seq<Item<V>>)
    requires UniqueKeys(q)
    ensures forall i :: 0 <= i < |q| ==> q[i].key in MapOf(q) && MapOf(q)[q[i].key] == q[i]
    ensures forall k :: k in MapOf(q) ==> MapOf(q)[k].key == k && Find(q, k) == Some(MapOf(q)[k].value)
    ensures forall i, j :: 0 <= i < j < |q| ==> q[i].key != q[j].key
    ensures |MapOf(q)| == |q|
  {
    MapOfSize(q);
    forall k | k in MapOf(q)
      ensures MapOf(q)[k].key == k && Find(q, k) == Some(MapOf(q)[k].value)
    {
      FindMapOf(q, k);
    }
    RepresentationAt(q);
  }

  lemma {:induction false} RepresentationAt<V>(q: seq<Item<V>>)
    requires UniqueKeys(q)
    ensures forall i :: 0 <= i < |q| ==> q[i].key in MapOf(q) && MapOf(q)[q[i].key] == q[i]
    ensures forall i, j :: 0 <= i < j < |q| ==> q[i].key != q[j].key
  {
    if q != [] {
      RepresentationAt(q[1..]);
      FindAbsent(q[1..], q[0].key);
      forall i | 0 <= i < |q|
        ensures q[i].key in MapOf(q) && MapOf(q)[q[i].key] == q[i]
      {
        if i > 0 {
          assert q[i] == q[1..][i - 1];
        }
      }
      forall i, j | 0 <= i < j < |q|
        ensures q[i].key != q[j].key
      {
        assert q[j] == q[1..][j - 1];
        if i > 0 {
          assert q[i] == q[1..][i - 1];
        }
      }
    }
  }

  // ---------------------------------------------------------------------------
  // What the operations promise

  /** Add keeps keys unique and, for a positive capacity, the size within it. */
  lemma AddKeepsInvariant<V>(q: seq<Item<V>>, capacity: int, k: string, v: V)
    requires capacity != 0
    requires UniqueKeys(q) && (capacity > 0 ==> |q| <= capacity)
    ensures UniqueKeys(AddSpec(q, capacity, k, v).queue)
    ensures capacity > 0 ==> |AddSpec(q, capacity, k, v).queue| <= capacity
  {
    if Find(q, k).Some? {
      WithoutUnique(q, k);
      FindWithout(q, k, k);
      WithoutLength(q, k);
    } else if |q| == capacity {
      WithoutDropLast(q);
      WithoutUnique(q, q[|q| - 1].key);
      FindWithout(q, q[|q| - 1].key, k);
    }
  }

  /**
   * Add evicts exactly when the key is new and the cache is full; then the
   * back (least recent) entry goes. Every other key keeps its value, and
   * the added key holds the new value.
   */
  lemma AddLookup<V>(q: seq<Item<V>>, capacity: int, k: string, v: V, x: string)
    requires capacity != 0 && UniqueKeys(q)
    ensures AddSpec(q, capacity, k, v).eviction <==> Find(q, k).None? && |q| == capacity
    ensures Find(AddSpec(q, capacity, k, v).queue, k) == Some(v)
    ensures x != k && AddSpec(q, capacity, k, v).eviction ==>
      Find(AddSpec(q, capacity, k, v).queue, x) == if x == q[|q| - 1].key then None else Find(q, x)
    ensures x != k && !AddSpec(q, capacity, k, v).eviction ==>
      Find(AddSpec(q, capacity, k, v).queue, x) == Find(q, x)
  {
    if Find(q, k).Some? {
      FindWithout(q, k, x);
    } else if |q| == capacity {
      WithoutDropLast(q);
      FindWithout(q, q[|q| - 1].key, x);
    }
  }

  /**
   * Add puts the key at the front and leaves the other keys in their
   * relative order; re-adding a present key keeps the size.
   */
  lemma AddOrder<V>(q: seq<Item<V>>, capacity: int, k: string, v: V)
    requires capacity != 0 && UniqueKeys(q)
    ensures AddSpec(q, capacity, k, v).queue[0] == Item(k, v)
    ensures Find(q, k).Some? ==>
      Without(AddSpec(q, capacity, k, v).queue, k) == Without(q, k)
      && |AddSpec(q, capacity, k, v).queue| == |q|
    ensures Find(q, k).None? && |q| != capacity ==>
      AddSpec(q, capacity, k, v).queue[1..] == q && |AddSpec(q, capacity, k, v).queue| == |q| + 1
    ensures Find(q, k).None? && |q| == capacity ==>
      AddSpec(q, capacity, k, v).queue[1..] == Without(q, q[|q| - 1].key)
  {
    if Find(q, k).Some? {
      WithoutIdempotent(q, k);
      WithoutLength(q, k);
    } else if |q| == capacity {
      WithoutDropLast(q);
    }
  }

  /**
   * Get returns the stored value and moves the entry to the front, leaving
   * the others in order; a miss reports ErrElementNotInCache and changes
   * nothing.
   */
  lemma GetMovesToFront<V>(q: seq<Item<V>>, k: string)
    requires UniqueKeys(q)
    ensures GetSpec(q, k).result.Success? <==> Find(q, k).Some?
    ensures Find(q, k).Some? ==>
      && GetSpec(q, k).result == Success(Find(q, k).value)
      && GetSpec(q, k).queue[0] == Item(k, Find(q, k).value)
      && Without(GetSpec(q, k).queue, k) == Without(q, k)
      && |GetSpec(q, k).queue| == |q|
      && MapOf(GetSpec(q, k).queue) == MapOf(q)
      && UniqueKeys(GetSpec(q, k).queue)
    ensures Find(q, k).None? ==>
      GetSpec(q, k).result == Failure(ErrElementNotInCache) && GetSpec(q, k).queue == q
  {
    if Find(q, k).Some? {
      var v := Find(q, k).value;
      WithoutIdempotent(q, k);
      WithoutLength(q, k);
      WithoutUnique(q, k);
      FindWithout(q, k, k);
      MapOfWithout(q, k);
      FindMapOf(q, k);
      assert MapOf(q) == (MapOf(q) - {k})[k := Item(k, v)];
    }
  }

  /**
   * Delete of a present key removes it, shrinks the size by one and keeps
   * the others in order; of an absent key it reports ErrElementNotInCache.
   */
  lemma DeleteRemoves<V>(q: seq<Item<V>>, k: string, x: string)
    requires UniqueKeys(q)
    ensures DeleteSpec(q, k).err.None? <==> Find(q, k).Some?
    ensures DeleteSpec(q, k).err.Some? ==> DeleteSpec(q, k).err == Some(ErrElementNotInCache)
    ensures Find(DeleteSpec(q, k).queue, x) == if x == k then None else Find(q, x)
    ensures |DeleteSpec(q, k).queue| == if Find(q, k).Some? then |q| - 1 else |q|
    ensures UniqueKeys(DeleteSpec(q, k).queue)
    ensures DeleteSpec(q, k).queue == Without(q, k)
  {
    FindWithout(q, k, x);
    WithoutLength(q, k);
    WithoutUnique(q, k);
    if Find(q, k).None? {
      WithoutAbsent(q, k);
    }
  }

  /** `Get(k)` immediately after `Add(k, v)` returns v. */
  lemma GetAfterAdd<V>(q: seq<Item<V>>, capacity: int, k: string, v: V)
    requires capacity != 0
    ensures GetSpec(AddSpec(q, capacity, k, v).queue, k).result == Success(v)
  {
  }

  // ---------------------------------------------------------------------------
  // Many adds in a row

  /** The queue after adding each key of ks in turn, and the evictions reported. */
  function AddAll<V>(q: seq<Item<V>>, capacity: int, ks: seq<string>, v: V): (r: (seq<Item<V>>, seq<bool>))
    requires capacity != 0
    ensures |r.1| == |ks|
    decreases |ks|
  {
    if ks == [] then (q, [])
    else
      var a := AddSpec(q, capacity, ks[0], v);
      var rest := AddAll(a.queue, capacity, ks[1..], v);
      (rest.0, [a.eviction] + rest.1)
  }

  predicate Distinct(ks: seq<string>)
  {
    forall i, j :: 0 <= i < j < |ks| ==> ks[i] != ks[j]
  }

  /** Keys of a queue, front first. */
  function KeysOf<V>(q: seq<Item<V>>): seq<string>
  {
    seq(|q|, i requires 0 <= i < |q| => q[i].key)
  }

  function Reverse(ks: seq<string>): seq<string>
  {
    if ks == [] then [] else Reverse(ks[1..]) + [ks[0]]
  }

  lemma {:induction false} FindKeysOf<V>(q: seq<Item<V>>, k: string)
    ensures Find(q, k).None? <==> k !in KeysOf(q)
  {
    if q != [] {
      FindKeysOf(q[1..], k);
      assert KeysOf(q) == [q[0].key] + KeysOf(q[1..]);
    }
  }

  lemma {:induction false} ReverseMembers(ks: seq<string>)
    ensures |Reverse(ks)| == |ks|
    ensures forall x :: x in Reverse(ks) <==> x in ks
  {
    if ks != [] {
      ReverseMembers(ks[1..]);
      assert ks == [ks[0]] + ks[1..];
    }
  }

  /** The later keys of a distinct list are still distinct. */
  lemma DistinctTail(ks: seq<string>)
    requires ks != [] && Distinct(ks)
    ensures Distinct(ks[1..])
  {
    forall i, j | 0 <= i < j < |ks[1..]| ensures ks[1..][i] != ks[1..][j] {
      assert ks[1..][i] == ks[i + 1] && ks[1..][j] == ks[j + 1];
    }
  }

  /** Once the first key is pushed, the later keys of a distinct list are still not found. */
  lemma FreshTail<V>(q: seq<Item<V>>, ks: seq<string>, v: V)
    requires ks != [] && Distinct(ks)
    requires forall i :: 0 <= i < |ks| ==> Find(q, ks[i]).None?
    ensures forall i :: 0 <= i < |ks[1..]| ==> Find([Item(ks[0], v)] + q, ks[1..][i]).None?
  {
    var q' := [Item(ks[0], v)] + q;
    forall i | 0 <= i < |ks[1..]| ensures Find(q', ks[1..][i]).None? {
      assert ks[1..][i] == ks[i + 1] != ks[0];
      assert q'[1..] == q;
    }
  }

  /**
   * Filling a cache of capacity C with fresh distinct keys never evicts
   * while it has room; the queue then holds the keys most recent first.
   */
  lemma {:induction false} FillWithoutEviction<V>(q: seq<Item<V>>, capacity: int, ks: seq<string>, v: V)
    requires capacity > 0 && Distinct(ks)
    requires |q| + |ks| <= capacity
    requires forall i :: 0 <= i < |ks| ==> Find(q, ks[i]).None?
    ensures KeysOf(AddAll(q, capacity, ks, v).0) == Reverse(ks) + KeysOf(q)
    ensures forall i :: 0 <= i < |ks| ==> !AddAll(q, capacity, ks, v).1[i]
    decreases |ks|
  {
    if ks != [] {
      var q' := [Item(ks[0], v)] + q;
      assert AddSpec(q, capacity, ks[0], v) == Added(q', false) by {
        assert Find(q, ks[0]).None?;
      }
      FreshTail(q, ks, v);
      DistinctTail(ks);
      FillWithoutEviction(q', capacity, ks[1..], v);
      var r := AddAll(q, capacity, ks, v);
      var rest := AddAll(q', capacity, ks[1..], v);
      assert r == (rest.0, [false] + rest.1);
      assert KeysOf(q') == [ks[0]] + KeysOf(q);
      assert Reverse(ks) == Reverse(ks[1..]) + [ks[0]];
      assert Reverse(ks[1..]) + ([ks[0]] + KeysOf(q)) == (Reverse(ks[1..]) + [ks[0]]) + KeysOf(q);
      forall i | 0 <= i < |ks| ensures !r.1[i] {
        if i > 0 {
          assert r.1[i] == rest.1[i - 1];
        }
      }
    }
  }

  /**
   * Adding C+1 distinct keys to an empty cache of capacity C reports an
   * eviction exactly once, on the last add, and the key evicted is the
   * first one inserted.
   */
  lemma OverfillEvictsFirst<V>(capacity: int, ks: seq<string>, v: V)
    requires capacity > 0 && Distinct(ks) && |ks| == capacity + 1
    ensures forall i :: 0 <= i < |ks| ==> (AddAll([], capacity, ks, v).1[i] <==> i == capacity)
    ensures ks[0] !in KeysOf(AddAll([], capacity, ks, v).0)
    ensures forall i :: 0 < i < |ks| ==> ks[i] in KeysOf(AddAll([], capacity, ks, v).0)
  {
    var first := ks[..capacity];
    var e: seq<Item<V>> := [];
    assert Distinct(first);
    FillWithoutEviction(e, capacity, first, v);
    var q := AddAll(e, capacity, first, v).0;
    AddAllSplit(e, capacity, first, [ks[capacity]], v);
    assert first + [ks[capacity]] == ks;
    ReverseMembers(first);
    assert KeysOf(q) == Reverse(first);
    assert |q| == capacity;
    FindKeysOf(q, ks[capacity]);
    assert ks[capacity] !in first;
    var a := AddSpec(q, capacity, ks[capacity], v);
    assert a.eviction;
    assert AddAll(e, capacity, ks, v).1 == AddAll(e, capacity, first, v).1 + [true];
    ReverseLast(first);
    assert q[|q| - 1].key == ks[0];
    assert KeysOf(a.queue) == [ks[capacity]] + KeysOf(q)[..|q| - 1];
    assert KeysOf(q)[..|q| - 1] == Reverse(first[1..]);
    ReverseMembers(first[1..]);
    forall i | 0 < i < |ks| ensures ks[i] in KeysOf(a.queue) {
      if i < capacity {
        assert ks[i] == first[1..][i - 1];
      }
    }
    assert ks[0] !in first[1..];
  }

  lemma {:induction false} ReverseLast(ks: seq<string>)
    requires ks != []
    ensures |Reverse(ks)| == |ks|
    ensures Reverse(ks)[|ks| - 1] == ks[0]
    ensures Reverse(ks)[..|ks| - 1] == Reverse(ks[1..])
  {
    ReverseMembers(ks[1..]);
  }

  lemma {:induction false} AddAllSplit<V>(q: seq<Item<V>>, capacity: int, ks: seq<string>, ls: seq<string>, v: V)
    requires capacity != 0
    ensures AddAll(q, capacity, ks + ls, v).0 == AddAll(AddAll(q, capacity, ks, v).0, capacity, ls, v).0
    ensures AddAll(q, capacity, ks + ls, v).1 == AddAll(q, capacity, ks, v).1 + AddAll(AddAll(q, capacity, ks, v).0, capacity, ls, v).1
    decreases |ks|
  {
    if ks == [] {
      assert ks + ls == ls;
    } else {
      assert (ks + ls)[0] == ks[0] && (ks + ls)[1..] == ks[1..] + ls;
      var a := AddSpec(q, capacity, ks[0], v);
      var restWhole := AddAll(a.queue, capacity, ks[1..] + ls, v);
      var restHead := AddAll(a.queue, capacity, ks[1..], v);
      var tail := AddAll(restHead.0, capacity, ls, v);
      assert AddAll(q, capacity, ks + ls, v) == (restWhole.0, [a.eviction] + restWhole.1);
      assert AddAll(q, capacity, ks, v) == (restHead.0, [a.eviction] + restHead.1);
      AddAllSplit(a.queue, capacity, ks[1..], ls, v);
      assert [a.eviction] + (restHead.1 + tail.1) == ([a.eviction] + restHead.1) + tail.1;
    }
  }

  // ---------------------------------------------------------------------------
  // The cache object

  class LruCache<V> {
    const name: string
    const capacity: int
    /** The list, front (most recent) first. */
    var queue: seq<Item<V>>
    /** The key index kept beside the list. */
    var values: map<string, Item<V>>

    ghost predicate Valid()
      reads this
    {
      && UniqueKeys(queue)
      && values == MapOf(queue)
      && (capacity > 0 ==> |queue| <= capacity)
    }

    /** NewLRUCache(name, capacity). */
    constructor (name: string, capacity: int)
      ensures Valid()
      ensures this.name == name && this.capacity == capacity
      ensures queue == [] && values == map[]
    {
      this.name := name;
      this.capacity := capacity;
      queue := [];
      values := map[];
    }

    function Name(): string
      reads this
    {
      name
    }

    /** Inserts or overwrites key; reports whether the back entry was evicted. */
    method Add(key: string, value: V) returns (eviction: bool)
      requires Valid() && capacity != 0
      modifies this
      ensures Valid()
      ensures Added(queue, eviction) == AddSpec(old(queue), capacity, key, value)
      ensures !eviction ==> values == old(values)[key := Item(key, value)]
      ensures eviction ==> values == (old(values) - {old(queue)[|old(queue)| - 1].key})[key := Item(key, value)]
    {
      AddKeepsInvariant(queue, capacity, key, value);
      FindMapOf(queue, key);
      var item := Item(key, value);
      if key in values {
        MapOfWithout(queue, key);
        queue := [item] + Without(queue, key);
        values := values[key := item];
        eviction := false;
      } else {
        eviction := false;
        MapOfSize(queue);
        if |values| == capacity {
          eviction := true;
          var removeItem := queue[|queue| - 1];
          WithoutDropLast(queue);
          MapOfWithout(queue, removeItem.key);
          queue := queue[..|queue| - 1];
          values := values - {removeItem.key};
        }
        queue := [item] + queue;
        values := values[key := item];
      }
    }

    /** Returns the value stored under key and marks it most recent. */
    method Get(key: string) returns (r: Result<V, Error>)
      requires Valid()
      modifies this
      ensures Valid()
      ensures Got(queue, r) == GetSpec(old(queue), key)
      ensures values == old(values)
    {
      FindMapOf(queue, key);
      if key in values {
        var item := values[key];
        GetMovesToFront(queue, key);
        queue := Promote(queue, key, item.value);
        return Success(item.value);
      } else {
        return Failure(ErrElementNotInCache);
      }
    }

    /** The number of entries. */
    function Len(): (n: int)
      reads this
      requires Valid()
      ensures n == |queue|
      ensures capacity > 0 ==> n <= capacity
    {
      MapOfSize(queue);
      |values|
    }

    /** Removes key; ErrElementNotInCache when it is absent. */
    method Delete(key: string) returns (err: Option<Error>)
      requires Valid()
      modifies this
      ensures Valid()
      ensures Deleted(queue, err) == DeleteSpec(old(queue), key)
      ensures values == old(values) - {key}
    {
      FindMapOf(queue, key);
      DeleteRemoves(queue, key, key);
      if key in values {
        MapOfWithout(queue, key);
        values := values - {values[key].key};
        queue := Without(queue, key);
        return None;
      } else {
        assert values - {key} == values;
        return Some(ErrElementNotInCache);
      }
    }
  }
}
