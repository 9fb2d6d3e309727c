/** `FIFOCacheApp`: eviction in insertion order, reads never reorder. */
module Fifo {
  import opened Wrappers
  import opened CacheItem
  import opened OrderedCache

  /** `Get`: a pure lookup that leaves the engine untouched. */
  function Get(c: State, key: string): (r: (State, Result<Item, CacheError>))
    ensures r.0 == c
    ensures r.1.Success? <==> key in c.data
    ensures r.1.Success? ==> r.1.value == c.data[key]
    ensures r.1.Failure? ==> r.1.error == ErrItemNotFound
    ensures Keyed(c.data) && r.1.Success? ==> r.1.value.key == key
  {
    (c, Lookup(c.data, key))
  }

  /**
   * `Set`: never fails; a no-op at capacity 0; otherwise evicts the front
   * when full and appends the key.
   */
  function Set(c: State, item: Item): (r: (State, Outcome<CacheError>))
    ensures r.1 == Pass
    ensures c.capacity == 0 ==> r.0 == c
    ensures c.capacity != 0 ==> item.key in r.0.data && r.0.data[item.key] == item
    ensures c.capacity != 0 ==> |r.0.order| > 0 && r.0.order[|r.0.order| - 1] == item.key
    ensures c.capacity != 0 && Len(c) < c.capacity ==>
              r.0.data == c.data[item.key := item] && r.0.order == c.order + [item.key]
    ensures c.capacity != 0 && Len(c) >= c.capacity && |c.order| > 0 ==>
              r.0.data == (c.data - {c.order[0]})[item.key := item] && r.0.order == c.order[1..] + [item.key]
    ensures forall k | k in r.0.data && k != item.key :: k in c.data && r.0.data[k] == c.data[k]
    ensures c.capacity != 0 ==> r.0 == Put(c, item)
  {
    if c.capacity == 0 then (c, Pass) else (Put(c, item), Pass)
  }

  /** `Set` of an absent key keeps the order exact and the capacity bound. */
  lemma SetAbsentKeepsExact(c: State, item: Item)
    requires Exact(c) && Bounded(c) && item.key !in c.data
    ensures Exact(Set(c, item).0) && Bounded(Set(c, item).0)
  {
    if c.capacity != 0 {
      PutAbsentKeepsExact(c, item);
    }
  }

  /** Every `Set`, overwrites included, keeps each stored key listed. */
  lemma SetKeepsCovered(c: State, item: Item)
    requires Covered(c) && Keyed(c.data)
    ensures Covered(Set(c, item).0) && Keyed(Set(c, item).0.data)
  {
    if c.capacity != 0 {
      PutKeepsCovered(c, item);
    }
  }
}
