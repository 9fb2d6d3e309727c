/** `LRUCacheApp`: a successful read moves the key to the back; eviction takes the front. */
module Lru {
  import opened Wrappers
  import opened CacheItem
  import opened OrderedCache
  import Seqs

  /**
   * `Get`: on a hit the first list entry of the key (`GetListElement`) is
   * moved to the back; on a miss nothing changes.
   */
  function Get(c: State, key: string): (r: (State, Result<Item, CacheError>))
    ensures r.1.Success? <==> key in c.data
    ensures r.1.Success? ==> r.1.value == c.data[key]
    ensures r.1.Failure? ==> r.1.error == ErrItemNotFound
    ensures r.0.data == c.data && r.0.capacity == c.capacity
    ensures multiset(r.0.order) == multiset(c.order)
    ensures key in c.data && key in c.order ==> r.0.order == Seqs.RemoveFirst(c.order, key) + [key]
    ensures !(key in c.data && key in c.order) ==> r.0 == c
  {
    if key !in c.data then (c, Failure(ErrItemNotFound))
    else
      match Seqs.Find(c.order, key)
      case None => (c, Success(c.data[key]))
      case Some(i) =>
        Seqs.MoveToBackMultiset(c.order, i);
        (c.(order := Seqs.MoveToBack(c.order, i)), Success(c.data[key]))
  }

  /**
   * `Set`: at capacity 0 it reports `ErrItemNotFound` and changes nothing
   * (unlike the other three engines); otherwise it is the shared `Put`.
   */
  function Set(c: State, item: Item): (r: (State, Outcome<CacheError>))
    ensures r.1 == Fail(ErrItemNotFound) <==> c.capacity == 0
    ensures c.capacity == 0 ==> r.0 == c
    ensures c.capacity != 0 ==> item.key in r.0.data && r.0.data[item.key] == item
    ensures c.capacity != 0 ==> |r.0.order| > 0 && r.0.order[|r.0.order| - 1] == item.key
    ensures c.capacity != 0 && Len(c) < c.capacity ==>
              r.0.data == c.data[item.key := item] && r.0.order == c.order + [item.key]
    ensures c.capacity != 0 && Len(c) >= c.capacity && |c.order| > 0 ==>
              r.0.data == (c.data - {c.order[0]})[item.key := item] && r.0.order == c.order[1..] + [item.key]
    ensures forall k | k in r.0.data && k != item.key :: k in c.data && r.0.data[k] == c.data[k]
    ensures c.capacity != 0 ==> r.0 == Put(c, item)
  {
    if c.capacity == 0 then (c, Fail(ErrItemNotFound)) else (Put(c, item), Pass)
  }

  /** A read keeps every invariant of the engine. */
  lemma GetKeepsInvariants(c: State, key: string)
    ensures Exact(c) ==> Exact(Get(c, key).0)
    ensures Covered(c) ==> Covered(Get(c, key).0)
    ensures Bounded(c) ==> Bounded(Get(c, key).0)
  {
    var r := Get(c, key).0;
    if Covered(c) {
      forall k | k in r.data
        ensures k in r.order
      {
        assert k in multiset(c.order);
      }
    }
  }

  /** `Set` of an absent key keeps the order exact and the capacity bound. */
  lemma SetAbsentKeepsExact(c: State, item: Item)
    requires Exact(c) && Bounded(c) && item.key !in c.data
    ensures Exact(Set(c, item).0) && Bounded(Set(c, item).0)
  {
    if c.capacity != 0 {
      PutAbsentKeepsExact(c, item);
    }
  }

  /** Every `Set`, overwrites included, keeps each stored key listed. */
  lemma SetKeepsCovered(c: State, item: Item)
    requires Covered(c) && Keyed(c.data)
    ensures Covered(Set(c, item).0) && Keyed(Set(c, item).0.data)
  {
    if c.capacity != 0 {
      PutKeepsCovered(c, item);
    }
  }
}
