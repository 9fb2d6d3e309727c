/**
 * `RandomCacheApp`: a bare mapping; when full, a uniformly drawn entry is
 * evicted. The draw is the parameter `randomIndex` (the value of
 * `rand.Intn(len(data))`), and the map's iteration order is an arbitrary
 * choice, so the victim can be any present key.
 */
module RandomCache {
  import opened Wrappers
  import opened CacheItem

  datatype State = State(data: Data, capacity: int)

  function New(capacity: int): (c: State)
    ensures Len(c) == 0 && c.capacity == capacity && Keyed(c.data)
    ensures capacity >= 0 ==> Bounded(c)
  {
    State(map[], capacity)
  }

  /** `Len`: the number of stored entries. */
  function Len(c: State): (r: nat)
    ensures r == 0 <==> c.data == map[]
  {
    |c.data|
  }

  ghost predicate Bounded(c: State)
  {
    Len(c) <= c.capacity
  }

  /** `Get`: a pure lookup that leaves the engine untouched. */
  function Get(c: State, key: string): (r: (State, Result<Item, CacheError>))
    ensures r.0 == c
    ensures r.1.Success? <==> key in c.data
    ensures r.1.Success? ==> r.1.value == c.data[key]
    ensures r.1.Failure? ==> r.1.error == ErrItemNotFound
    ensures Keyed(c.data) && r.1.Success? ==> r.1.value.key == key
  {
    (c, Lookup(c.data, key))
  }

  /**
   * `evictRandomKey`: walk the keys in iteration order and delete the one at
   * position `randomIndex`. `rand.Intn` panics on an empty map, hence the
   * precondition.
   */
  method EvictRandomKey(c: State, randomIndex: nat) returns (r: State, victim: string)
    requires randomIndex < Len(c)
    ensures victim in c.data
    ensures r.data == c.data - {victim} && r.capacity == c.capacity
    ensures Len(r) == Len(c) - 1
  {
    victim := "";
    var unvisited := c.data.Keys;
    var i := 0;
    var found := false;
    while unvisited != {} && !found
      invariant unvisited <= c.data.Keys
      invariant i + |unvisited| == Len(c)
      invariant !found ==> i <= randomIndex
      invariant found ==> victim in c.data
      decreases |unvisited| + (if found then 0 else 1)
    {
      var key :| key in unvisited;
      if i == randomIndex {
        victim := key;
        found := true;
      } else {
        unvisited := unvisited - {key};
        i := i + 1;
      }
    }
    KeysRemove(c.data, victim);
    r := c.(data := c.data - {victim});
  }

  /**
   * `Set`: never fails; a no-op at capacity 0; when full, exactly one present
   * entry is evicted before the item is stored.
   */
  method Set(c: State, item: Item, randomIndex: nat) returns (r: State, err: Outcome<CacheError>)
    requires c.capacity != 0 && Len(c) >= c.capacity ==> randomIndex < Len(c)
    ensures err == Pass
    ensures r.capacity == c.capacity
    ensures c.capacity == 0 ==> r == c
    ensures c.capacity != 0 ==> item.key in r.data && r.data[item.key] == item
    ensures c.capacity != 0 && Len(c) < c.capacity ==> r.data == c.data[item.key := item]
    ensures c.capacity != 0 && Len(c) >= c.capacity ==>
              exists victim :: victim in c.data && r.data == (c.data - {victim})[item.key := item]
    ensures forall k | k in r.data && k != item.key :: k in c.data && r.data[k] == c.data[k]
    ensures Bounded(c) ==> Bounded(r)
    ensures Keyed(c.data) ==> Keyed(r.data)
  {
    err := Pass;
    if c.capacity == 0 {
      r := c;
      return;
    }
    var c1 := c;
    if Len(c) >= c.capacity {
      var victim;
      c1, victim := EvictRandomKey(c, randomIndex);
    }
    assert |c1.data[item.key := item]| <= Len(c1) + 1 by {
      if item.key !in c1.data {
        KeysAdd(c1.data, item);
      } else {
        assert c1.data[item.key := item].Keys == c1.data.Keys;
      }
    }
    r := c1.(data := c1.data[item.key := item]);
  }

  /** `Delete`: a miss changes nothing; a hit removes exactly that key. */
  function Delete(c: State, key: string): (r: (State, Outcome<CacheError>))
    ensures key !in c.data ==> r == (c, Fail(ErrItemNotFound))
    ensures key in c.data ==> r.1 == Pass && r.0.data == c.data - {key} && Len(r.0) == Len(c) - 1
    ensures r.0.capacity == c.capacity
    ensures Bounded(c) ==> Bounded(r.0)
  {
    if key !in c.data then (c, Fail(ErrItemNotFound))
    else
      KeysRemove(c.data, key);
      (c.(data := c.data - {key}), Pass)
  }

  /** `Clear`: a fresh mapping; the capacity stays. */
  function Clear(c: State): (r: State)
    ensures Len(r) == 0 && r.capacity == c.capacity && Keyed(r.data)
    ensures c.capacity >= 0 ==> Bounded(r)
  {
    New(c.capacity)
  }
}
