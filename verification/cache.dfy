/**
 * The `Cache` interface: one engine of the four policies behind the uniform
 * Len / Get / Set / Delete / Clear surface, chosen once at construction.
 */
module Cache {
  import opened Wrappers
  import opened CacheItem
  import OrderedCache
  import Fifo
  import Lru
  import Lfu
  import RandomCache

  datatype Policy = FIFO | Random | LRU | LFU

  datatype Engine =
    | FifoEngine(fifo: OrderedCache.State)
    | RandomEngine(random: RandomCache.State)
    | LruEngine(lru: OrderedCache.State)
    | LfuEngine(lfu: Lfu.State)

  function PolicyOf(e: Engine): Policy
  {
    match e
    case FifoEngine(_) => FIFO
    case RandomEngine(_) => Random
    case LruEngine(_) => LRU
    case LfuEngine(_) => LFU
  }

  /** The engine's mapping. */
  function DataOf(e: Engine): Data
  {
    match e
    case FifoEngine(c) => c.data
    case RandomEngine(c) => c.data
    case LruEngine(c) => c.data
    case LfuEngine(c) => c.data
  }

  function CapacityOf(e: Engine): int
  {
    match e
    case FifoEngine(c) => c.capacity
    case RandomEngine(c) => c.capacity
    case LruEngine(c) => c.capacity
    case LfuEngine(c) => c.capacity
  }

  /** `Len`: the number of mapping entries, whatever the ordering structure holds. */
  function Len(e: Engine): (r: nat)
    ensures r == 0 <==> DataOf(e) == map[]
    ensures e.FifoEngine? ==> r == OrderedCache.Len(e.fifo)
    ensures e.RandomEngine? ==> r == RandomCache.Len(e.random)
    ensures e.LruEngine? ==> r == OrderedCache.Len(e.lru)
    ensures e.LfuEngine? ==> r == Lfu.Len(e.lfu)
  {
    |DataOf(e)|
  }

  /**
   * What every reachable engine satisfies: items sit under their own key and
   * every stored key appears in the ordering structure.
   */
  ghost predicate Covered(e: Engine)
  {
    && Keyed(DataOf(e))
    && match e
       case FifoEngine(c) => OrderedCache.Covered(c)
       case RandomEngine(_) => true
       case LruEngine(c) => OrderedCache.Covered(c)
       case LfuEngine(c) => Lfu.Covered(c)
  }

  /** The intended invariant: the ordering structure lists exactly the stored keys, once each. */
  ghost predicate Exact(e: Engine)
  {
    match e
    case FifoEngine(c) => OrderedCache.Exact(c)
    case RandomEngine(_) => true
    case LruEngine(c) => OrderedCache.Exact(c)
    case LfuEngine(c) => Lfu.Exact(c)
  }

  ghost predicate Bounded(e: Engine)
  {
    Len(e) <= CapacityOf(e)
  }

  /** Construction with an explicit policy (the tests' `constructCache`). */
  function New(policy: Policy, capacity: int): (e: Engine)
    ensures PolicyOf(e) == policy && CapacityOf(e) == capacity && Len(e) == 0
    ensures Covered(e) && Exact(e)
    ensures capacity >= 0 ==> Bounded(e)
  {
    match policy
    case FIFO => FifoEngine(OrderedCache.New(capacity))
    case Random => RandomEngine(RandomCache.New(capacity))
    case LRU => LruEngine(OrderedCache.New(capacity))
    case LFU => LfuEngine(Lfu.New(capacity))
  }

  /** `Get`: the stored item or `ErrItemNotFound`; LRU and LFU reorder, nothing else changes. */
  function Get(e: Engine, key: string): (r: (Engine, Result<Item, CacheError>))
    requires Covered(e)
    ensures r.1.Success? <==> key in DataOf(e)
    ensures r.1.Success? ==> r.1.value == DataOf(e)[key] && r.1.value.key == key
    ensures r.1.Failure? ==> r.1.error == ErrItemNotFound
    ensures DataOf(r.0) == DataOf(e) && CapacityOf(r.0) == CapacityOf(e) && PolicyOf(r.0) == PolicyOf(e)
    ensures Covered(r.0)
    ensures Exact(e) ==> Exact(r.0)
    ensures PolicyOf(e) in {FIFO, Random} ==> r.0 == e
  {
    match e
    case FifoEngine(c) =>
      var (c', res) := Fifo.Get(c, key); (FifoEngine(c'), res)
    case RandomEngine(c) =>
      var (c', res) := RandomCache.Get(c, key); (RandomEngine(c'), res)
    case LruEngine(c) =>
      Lru.GetKeepsInvariants(c, key);
      var (c', res) := Lru.Get(c, key); (LruEngine(c'), res)
    case LfuEngine(c) =>
      Lfu.GetKeepsInvariants(c, key);
      var (c', res) := Lfu.Get(c, key); (LfuEngine(c'), res)
  }

  /**
   * `Set`: only LRU at capacity 0 reports an error; capacity 0 never changes
   * the engine; below capacity the item is added and nothing is evicted; at
   * or over capacity at most one entry is evicted before the item is stored.
   * No other entry is created or altered. `randomIndex` is the Random
   * engine's draw. FIFO and LRU accept a negative capacity (they then evict
   * on every call); LFU and Random would panic on one.
   */
  method Set(e: Engine, item: Item, randomIndex: nat) returns (r: Engine, err: Outcome<CacheError>)
    requires Covered(e) && (PolicyOf(e) in {Random, LFU} ==> CapacityOf(e) >= 0)
    requires PolicyOf(e) == Random && CapacityOf(e) != 0 && Len(e) >= CapacityOf(e) ==> randomIndex < Len(e)
    ensures err.Fail? <==> PolicyOf(e) == LRU && CapacityOf(e) == 0
    ensures CapacityOf(e) == 0 ==> r == e
    ensures CapacityOf(e) != 0 ==> item.key in DataOf(r) && DataOf(r)[item.key] == item
    ensures CapacityOf(e) != 0 && Len(e) < CapacityOf(e) ==> DataOf(r) == DataOf(e)[item.key := item]
    ensures CapacityOf(e) != 0 && Len(e) >= CapacityOf(e) ==>
              exists victim :: DataOf(r) == (DataOf(e) - {victim})[item.key := item]
    ensures forall k | k in DataOf(r) && k != item.key :: k in DataOf(e) && DataOf(r)[k] == DataOf(e)[k]
    ensures e.FifoEngine? ==> r == FifoEngine(Fifo.Set(e.fifo, item).0)
    ensures e.LruEngine? ==> r == LruEngine(Lru.Set(e.lru, item).0)
    ensures e.LfuEngine? ==> r == LfuEngine(Lfu.Set(e.lfu, item).0)
    ensures CapacityOf(r) == CapacityOf(e) && PolicyOf(r) == PolicyOf(e)
    ensures Covered(r)
    ensures Exact(e) && Bounded(e) && item.key !in DataOf(e) ==> Exact(r) && Bounded(r)
    ensures PolicyOf(e) == Random && Bounded(e) ==> Bounded(r)
  {
    match e
    case FifoEngine(c) =>
      Fifo.SetKeepsCovered(c, item);
      if OrderedCache.Exact(c) && OrderedCache.Bounded(c) && item.key !in c.data {
        Fifo.SetAbsentKeepsExact(c, item);
      }
      var (c', res) := Fifo.Set(c, item);
      r, err := FifoEngine(c'), res;
      if c.capacity != 0 && OrderedCache.Len(c) >= c.capacity {
        OrderedVictim(c, item);
      }
    case RandomEngine(c) =>
      var c';
      c', err := RandomCache.Set(c, item, randomIndex);
      r := RandomEngine(c');
    case LruEngine(c) =>
      Lru.SetKeepsCovered(c, item);
      if OrderedCache.Exact(c) && OrderedCache.Bounded(c) && item.key !in c.data {
        Lru.SetAbsentKeepsExact(c, item);
      }
      var (c', res) := Lru.Set(c, item);
      r, err := LruEngine(c'), res;
      if c.capacity != 0 && OrderedCache.Len(c) >= c.capacity {
        OrderedVictim(c, item);
      }
    case LfuEngine(c) =>
      Lfu.CoveredMeetsPreconditions(c, item.key);
      Lfu.SetKeepsCovered(c, item);
      if Lfu.Exact(c) && Lfu.Bounded(c) && item.key !in c.data {
        Lfu.SetAbsentKeepsExact(c, item);
      }
      var (c', res) := Lfu.Set(c, item);
      r, err := LfuEngine(c'), res;
      if c.capacity != 0 && Lfu.Len(c) >= c.capacity {
        var victim := c.order[Lfu.LeastUsed(c.order)].key;
        assert c'.data == (c.data - {victim})[item.key := item];
      }
  }

  /** A FIFO or LRU store at or over capacity evicts at most the list front. */
  lemma OrderedVictim(c: OrderedCache.State, item: Item)
    requires OrderedCache.Len(c) >= c.capacity
    ensures exists victim :: OrderedCache.Put(c, item).data == (c.data - {victim})[item.key := item]
  {
    if |c.order| > 0 {
      assert OrderedCache.Put(c, item).data == (c.data - {c.order[0]})[item.key := item];
    } else {
      assert OrderedCache.Put(c, item).data == (c.data - {item.key})[item.key := item];
    }
  }

  /** `Delete`: a miss reports `ErrItemNotFound` and changes nothing; a hit removes exactly that key. */
  function Delete(e: Engine, key: string): (r: (Engine, Outcome<CacheError>))
    ensures key !in DataOf(e) ==> r == (e, Fail(ErrItemNotFound))
    ensures key in DataOf(e) ==> r.1 == Pass && DataOf(r.0) == DataOf(e) - {key} && Len(r.0) == Len(e) - 1
    ensures CapacityOf(r.0) == CapacityOf(e) && PolicyOf(r.0) == PolicyOf(e)
    ensures Covered(e) ==> Covered(r.0)
    ensures Exact(e) ==> Exact(r.0)
    ensures Bounded(e) ==> Bounded(r.0)
  {
    match e
    case FifoEngine(c) =>
      OrderedCache.DeleteKeepsInvariants(c, key);
      var (c', res) := OrderedCache.Delete(c, key); (FifoEngine(c'), res)
    case RandomEngine(c) =>
      var (c', res) := RandomCache.Delete(c, key); (RandomEngine(c'), res)
    case LruEngine(c) =>
      OrderedCache.DeleteKeepsInvariants(c, key);
      var (c', res) := OrderedCache.Delete(c, key); (LruEngine(c'), res)
    case LfuEngine(c) =>
      Lfu.DeleteKeepsInvariants(c, key);
      var (c', res) := Lfu.Delete(c, key); (LfuEngine(c'), res)
  }

  /** `Clear`: nothing is left, under any policy. */
  function Clear(e: Engine): (r: Engine)
    ensures Len(r) == 0 && CapacityOf(r) == CapacityOf(e) && PolicyOf(r) == PolicyOf(e)
    ensures Covered(r) && Exact(r)
    ensures CapacityOf(e) >= 0 ==> Bounded(r)
  {
    New(PolicyOf(e), CapacityOf(e))
  }
}
