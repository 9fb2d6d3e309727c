/**
 * The state and the operations that the FIFO and LRU engines share: a map
 * from key to item plus a list of keys whose front is the next victim. The
 * two engines differ only in `Get` (LRU promotes the key) and in what `Set`
 * returns at capacity 0; see modules Fifo and Lru.
 */
module OrderedCache {
  import opened Wrappers
  import opened CacheItem
  import Seqs

  datatype State = State(data: Data, order: seq<string>, capacity: int)

  /** A freshly constructed engine (`NewFIFOCacheApp`, `NewLRUCacheApp`). */
  function New(capacity: int): (c: State)
    ensures Len(c) == 0 && c.order == [] && c.capacity == capacity
    ensures Exact(c) && Keyed(c.data)
    ensures capacity >= 0 ==> Bounded(c)
  {
    State(map[], [], capacity)
  }

  /** `Len`: the number of entries of the mapping (the order list may hold more). */
  function Len(c: State): (r: nat)
    ensures r == 0 <==> c.data == map[]
  {
    |c.data|
  }

  /** Keys of the order list are exactly the keys of the mapping, each listed once. */
  ghost predicate Exact(c: State)
  {
    multiset(c.order) == multiset(c.data.Keys)
  }

  /** Every key of the mapping is listed in the order (stale or duplicate entries allowed). */
  ghost predicate Covered(c: State)
  {
    forall k | k in c.data :: k in c.order
  }

  /** The capacity bound. */
  ghost predicate Bounded(c: State)
  {
    Len(c) <= c.capacity
  }

  lemma ExactIsCovered(c: State)
    requires Exact(c)
    ensures Covered(c)
    ensures Len(c) == |c.order|
  {
    forall k | k in c.data
      ensures k in c.order
    {
      assert k in multiset(c.data.Keys);
    }
    assert |multiset(c.order)| == |multiset(c.data.Keys)|;
  }

  /**
   * The eviction step of `Set` once the mapping holds `capacity` entries or
   * more: the front of the list is unlinked and its key deleted from the
   * mapping, whether or not the mapping still holds that key.
   */
  function EvictFront(c: State): (r: State)
    ensures r.capacity == c.capacity
    ensures |c.order| == 0 ==> r == c
    ensures |c.order| > 0 ==> r.order == c.order[1..] && r.data == c.data - {c.order[0]}
  {
    if |c.order| == 0 then c
    else c.(data := c.data - {c.order[0]}, order := c.order[1..])
  }

  /**
   * `Set` of FIFO and LRU after the capacity-0 test: evict the front when the
   * mapping is full (without asking whether `item.key` is already present),
   * store the item, and append its key to the back of the list.
   */
  function Put(c: State, item: Item): (r: State)
    ensures r.capacity == c.capacity
    ensures item.key in r.data && r.data[item.key] == item
    ensures |r.order| > 0 && r.order[|r.order| - 1] == item.key
    ensures forall k | k in r.data && k != item.key :: k in c.data && r.data[k] == c.data[k]
    ensures Len(c) < c.capacity ==> r.data == c.data[item.key := item] && r.order == c.order + [item.key]
    ensures Len(c) >= c.capacity && |c.order| > 0 ==>
              r.data == (c.data - {c.order[0]})[item.key := item] && r.order == c.order[1..] + [item.key]
  {
    var c1 := if Len(c) >= c.capacity then EvictFront(c) else c;
    c1.(data := c1.data[item.key := item], order := c1.order + [item.key])
  }

  /** `Delete`: a miss changes nothing; a hit removes the key and its first list entry. */
  function Delete(c: State, key: string): (r: (State, Outcome<CacheError>))
    ensures key !in c.data ==> r == (c, Fail(ErrItemNotFound))
    ensures key in c.data ==> r.1 == Pass && r.0.data == c.data - {key} && Len(r.0) == Len(c) - 1
    ensures key in c.data ==> multiset(r.0.order) == multiset(c.order) - multiset{key}
    ensures key in c.data ==> r.0.order == Seqs.RemoveFirst(c.order, key)
    ensures r.0.capacity == c.capacity
  {
    if key !in c.data then (c, Fail(ErrItemNotFound))
    else (c.(data := c.data - {key}, order := Seqs.RemoveFirst(c.order, key)), Pass)
  }

  /** `Clear`: a fresh mapping and an emptied list; the capacity stays. */
  function Clear(c: State): (r: State)
    ensures Len(r) == 0 && r.order == [] && r.capacity == c.capacity
    ensures Exact(r) && Keyed(r.data)
    ensures c.capacity >= 0 ==> Bounded(r)
  {
    New(c.capacity)
  }

  // ---------------------------------------------------------------------
  // Invariants kept by the shared operations
  // ---------------------------------------------------------------------

  /** Evicting the front of an exact, non-empty order removes exactly one mapping entry. */
  lemma EvictFrontKeepsExact(c: State)
    requires Exact(c) && |c.order| > 0
    ensures Exact(EvictFront(c))
    ensures Len(EvictFront(c)) == Len(c) - 1
  {
    var front := c.order[0];
    assert front in multiset(c.order);
    assert c.order == [front] + c.order[1..];
    KeysRemove(c.data, front);
  }

  /** Putting an absent key keeps the order exact and the size within capacity. */
  lemma PutAbsentKeepsExact(c: State, item: Item)
    requires Exact(c) && Bounded(c) && c.capacity != 0
    requires item.key !in c.data
    ensures Exact(Put(c, item)) && Bounded(Put(c, item))
    ensures Len(Put(c, item)) == if Len(c) < c.capacity then Len(c) + 1 else Len(c)
  {
    ExactIsCovered(c);
    var c1 := if Len(c) >= c.capacity then EvictFront(c) else c;
    if Len(c) >= c.capacity {
      EvictFrontKeepsExact(c);
    }
    assert item.key !in c1.data;
    KeysAdd(c1.data, item);
    assert Put(c, item) == c1.(data := c1.data[item.key := item], order := c1.order + [item.key]);
  }

  /** Whatever the key, `Put` keeps every stored key listed and every item under its own key. */
  lemma PutKeepsCovered(c: State, item: Item)
    requires Covered(c) && Keyed(c.data)
    ensures Covered(Put(c, item)) && Keyed(Put(c, item).data)
  {
    var r := Put(c, item);
    forall k | k in r.data
      ensures k in r.order
    {
      if k != item.key && Len(c) >= c.capacity && |c.order| > 0 {
        assert k != c.order[0];
        assert k in c.order;
        assert c.order == [c.order[0]] + c.order[1..];
      }
    }
  }

  /**
   * Overwriting a present key appends a second list entry for it, unless the
   * key itself was the front victim. When the engine was full the victim is
   * some other entry, so an overwrite shrinks the cache by one.
   */
  lemma PutPresentDuplicates(c: State, item: Item)
    requires Exact(c) && c.capacity > 0
    requires item.key in c.data
    requires !(Len(c) >= c.capacity && c.order[0] == item.key)
    ensures multiset(Put(c, item).order)[item.key] == 2
    ensures !Exact(Put(c, item))
    ensures Len(Put(c, item)) == if Len(c) >= c.capacity then Len(c) - 1 else Len(c)
  {
    var r := Put(c, item);
    ExactIsCovered(c);
    assert multiset(c.order)[item.key] == 1;
    if Len(c) >= c.capacity {
      var front := c.order[0];
      assert front in multiset(c.order);
      assert c.order == [front] + c.order[1..];
      assert r.data.Keys == c.data.Keys - {front};
    } else {
      assert r.data.Keys == c.data.Keys;
    }
  }

  lemma DeleteKeepsInvariants(c: State, key: string)
    ensures Exact(c) ==> Exact(Delete(c, key).0)
    ensures Covered(c) ==> Covered(Delete(c, key).0)
    ensures Bounded(c) ==> Bounded(Delete(c, key).0)
    ensures Keyed(c.data) ==> Keyed(Delete(c, key).0.data)
  {
    var r := Delete(c, key).0;
    if key in c.data {
      assert r.data.Keys == c.data.Keys - {key};
      if Covered(c) {
        forall k | k in r.data
          ensures k in r.order
        {
          assert k in multiset(c.order);
          assert k in multiset(r.order);
        }
      }
    }
  }
}
