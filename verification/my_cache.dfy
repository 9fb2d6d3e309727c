/**
 * `MyCache` of services/mycache.go: the cache service. It always runs the
 * LRU engine and translates the engine's results into gRPC status codes.
 */
module MyCache {
  import opened Wrappers
  import opened CacheItem
  import OrderedCache
  import Lru
  import opened Rpc

  datatype Server = Server(app: OrderedCache.State)

  /** `NewMyCache`: an empty LRU engine of the configured capacity. */
  function NewMyCache(capacity: int): (s: Server)
    ensures OrderedCache.Len(s.app) == 0 && s.app.capacity == capacity
    ensures OrderedCache.Exact(s.app) && Keyed(s.app.data)
  {
    Server(OrderedCache.New(capacity))
  }

  /**
   * `GetItem`: OK with the stored item, or NotFound with an empty response.
   * A hit also promotes the key in the LRU order.
   */
  function GetItem(s: Server, key: string): (r: (Server, Option<Item>, Error))
    ensures r.2 == Nil <==> key in s.app.data
    ensures r.2 == Nil ==> r.1 == Some(s.app.data[key])
    ensures r.2 != Nil ==> r.1 == None && r.2 == Status(NotFound)
    ensures r.0.app.data == s.app.data && r.0.app.capacity == s.app.capacity
    ensures key !in s.app.data ==> r.0 == s
  {
    var (app, res) := Lru.Get(s.app, key);
    match res
    case Success(item) => (Server(app), Some(item), StatusError(OK))
    case Failure(_) => (Server(app), None, StatusError(NotFound))
  }

  /**
   * `SetItem`: `Success: true` and OK when the engine accepts the item;
   * `Success: false` and Unknown when it reports an error, which the LRU
   * engine does exactly when its capacity is 0.
   */
  function SetItem(s: Server, item: Item): (r: (Server, bool, Error))
    ensures r.1 <==> r.2 == Nil
    ensures r.1 <==> s.app.capacity != 0
    ensures !r.1 ==> r.2 == Status(Unknown) && r.0 == s
    ensures r.1 ==> item.key in r.0.app.data && r.0.app.data[item.key] == item
    ensures forall k | k in r.0.app.data && k != item.key :: k in s.app.data && r.0.app.data[k] == s.app.data[k]
    ensures r.0.app.capacity == s.app.capacity
  {
    var (app, out) := Lru.Set(s.app, item);
    if out.Fail? then (Server(app), false, StatusError(Unknown))
    else (Server(app), true, StatusError(OK))
  }

  /** `DeleteItem`: OK when the key was stored and is now gone, NotFound otherwise. */
  function DeleteItem(s: Server, key: string): (r: (Server, Error))
    ensures r.1 == Nil <==> key in s.app.data
    ensures r.1 != Nil ==> r.1 == Status(NotFound) && r.0 == s
    ensures r.0.app.data == s.app.data - {key}
  {
    var (app, out) := OrderedCache.Delete(s.app, key);
    if out.Fail? then (Server(app), StatusError(NotFound))
    else (Server(app), StatusError(OK))
  }

  /**
   * A service configured with capacity 0 rejects every `SetItem` with
   * Unknown and stays empty, however many items are offered.
   */
  lemma {:induction false} ZeroCapacityRejectsEverySet(items: seq<Item>)
    ensures SetAll(NewMyCache(0), items) == (NewMyCache(0), |items|)
  {
    if |items| > 0 {
      ZeroCapacityRejectsEverySet(items[..|items| - 1]);
    }
  }

  /** Offers `items` in turn; returns the final server and how many calls answered Unknown. */
  function SetAll(s: Server, items: seq<Item>): (Server, nat)
  {
    if |items| == 0 then (s, 0)
    else
      var (s1, n) := SetAll(s, items[..|items| - 1]);
      var r := SetItem(s1, items[|items| - 1]);
      (r.0, if r.2 == Status(Unknown) then n + 1 else n)
  }
}
