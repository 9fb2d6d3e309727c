/**
 * The reservation service of services_lab3/reservation.go: reservations are
 * cached and stored under the query identifier of (restaurant, user), and a
 * popularity table counts the reservations made per restaurant.
 */
module Reservation {
  import opened Wrappers
  import opened CacheItem
  import opened Rpc
  import opened CacheAside
  import QueryId
  import opened Ranking
  import opened Seqs

  /** `GetReservationResponse`: the message that is cached and stored. */
  datatype ReservationMsg = ReservationMsg(userName: string, restaurantName: string, time: string)

  /**
   * `GetReservation`: the cache-aside read under the identifier of
   * (restaurant, user).
   */
  function GetReservation<S>(b: Backend<S>, codec: Codec<ReservationMsg>, sha: string -> string,
                             w: S, restaurantName: string, userName: string)
    : (r: (S, Proc<ReadResult<ReservationMsg>>, seq<Call>))
    ensures var id := QueryId.GetQueryUuid(sha, restaurantName, userName);
            && 1 <= |r.2| && r.2[0] == CacheGet(id)
            && (forall i | 0 <= i < |r.2| && r.2[i].StoreGet? :: r.2[i].key == id)
    ensures r.1.Returns? && r.1.value.Failure? ==> r.1.value.error in {NotFound, Canceled}
    ensures var id := QueryId.GetQueryUuid(sha, restaurantName, userName);
            b.cacheGet(w, id).1.code == OK ==> r.2 == [CacheGet(id)]
  {
    Read(b, codec, w, QueryId.GetQueryUuid(sha, restaurantName, userName))
  }

  /** `popularityTable[restaurantName]++`. */
  function Bump(t: Table, restaurantName: string): (r: Table)
    ensures Count(r, restaurantName) == Count(t, restaurantName) + 1
    ensures forall k | k != restaurantName :: Count(r, k) == Count(t, k)
    ensures r.Keys == t.Keys + {restaurantName}
  {
    t[restaurantName := Count(t, restaurantName) + 1]
  }

  /**
   * `MakeReservation`: counts the reservation in the popularity table, then
   * writes the encoded message to the cache and the store under the
   * identifier of (restaurant, user). The count is taken before either
   * write, so it stands whatever the writes return.
   */
  function MakeReservation<S>(b: Backend<S>, codec: Codec<ReservationMsg>, sha: string -> string,
                              t: Table, w: S, userName: string, restaurantName: string, time: string)
    : (r: (Table, S, Proc<WriteResult>, seq<Call>))
    ensures r.0 == Bump(t, restaurantName)
    ensures var id := QueryId.GetQueryUuid(sha, restaurantName, userName);
            var data := codec.marshal(ReservationMsg(userName, restaurantName, time));
            && 1 <= |r.3| <= 2
            && r.3[0] == CacheSet(id, data)
            && (|r.3| == 2 ==> r.3[1] == StoreSet(id, data))
            && (r.2.Returns? ==>
                  (r.2.value.status <==> b.cacheSet(w, id, data).1 == OK && b.storeSet(b.cacheSet(w, id, data).0, id, data).1 == OK))
    ensures RoundTrips(codec) ==>
              forall i | 0 <= i < |r.3| ::
                codec.unmarshal(r.3[i].value) == Some(ReservationMsg(userName, restaurantName, time))
  {
    var t' := Bump(t, restaurantName);
    var id := QueryId.GetQueryUuid(sha, restaurantName, userName);
    var (w', out, calls) := Write(b, w, id, codec.marshal(ReservationMsg(userName, restaurantName, time)));
    (t', w', out, calls)
  }

  /** The popularity table after reservations at `names`, in order. */
  function BumpAll(t: Table, names: seq<string>): Table
  {
    if |names| == 0 then t else Bump(BumpAll(t, names[..|names| - 1]), names[|names| - 1])
  }

  /**
   * Each restaurant's count grows by exactly the number of reservations
   * made at it; a fresh table therefore holds the number of reservations.
   */
  lemma {:induction false} BumpAllCounts(t: Table, names: seq<string>, k: string)
    ensures Count(BumpAll(t, names), k) == Count(t, k) + multiset(names)[k]
  {
    if |names| != 0 {
      var p := names[..|names| - 1];
      BumpAllCounts(t, p, k);
      assert names == p + [names[|names| - 1]];
    }
  }

  /**
   * The `for key := range popularityTable` loop: the table's keys, each once,
   * in whatever order the map iteration chooses.
   */
  method CollectKeys(t: Table) returns (keys: seq<string>)
    ensures forall k :: k in keys <==> k in t
    ensures Distinct(keys)
    ensures |keys| == |t|
  {
    keys := [];
    var rest := t.Keys;
    while rest != {}
      invariant rest <= t.Keys
      invariant forall i | 0 <= i < |keys| :: keys[i] in t && keys[i] !in rest
      invariant forall k | k in t :: k in rest || k in keys
      invariant Distinct(keys)
      invariant |keys| + |rest| == |t|
      decreases |rest|
    {
      var k :| k in rest;
      keys := keys + [k];
      rest := rest - {k};
    }
  }

  /**
   * Taking a prefix of a ranked sequence that lists every key of the table
   * leaves out only keys counted no higher than any key it keeps.
   */
  lemma PrefixKeepsTheMostPopular(t: Table, sorted: seq<string>, n: nat)
    requires Ranked(t, sorted) && n <= |sorted|
    requires forall k | k in t :: k in sorted
    ensures forall k, i | k in t && k !in sorted[..n] && 0 <= i < n :: Count(t, k) <= Count(t, sorted[i])
  {
    var top := sorted[..n];
    forall k, i | k in t && k !in top && 0 <= i < n
      ensures Count(t, k) <= Count(t, sorted[i])
    {
      var j :| 0 <= j < |sorted| && sorted[j] == k;
      assert forall m | 0 <= m < n :: top[m] == sorted[m];
    }
  }

  /** The first `n` keys of a ranking that lists every key of the table once. */
  lemma TopOfRanking(t: Table, sorted: seq<string>, n: nat)
    requires Ranked(t, sorted) && Distinct(sorted) && n <= |sorted|
    requires forall k :: k in sorted <==> k in t
    ensures |sorted[..n]| == n
    ensures forall i | 0 <= i < n :: sorted[..n][i] in t
    ensures Distinct(sorted[..n]) && Ranked(t, sorted[..n])
    ensures forall k, i | k in t && k !in sorted[..n] && 0 <= i < n :: t[k] <= t[sorted[..n][i]]
    ensures n == |sorted| ==> forall k | k in t :: k in sorted[..n]
  {
    var top := sorted[..n];
    if n == |sorted| {
      assert top == sorted;
    }
    PrefixKeepsTheMostPopular(t, sorted, n);
    assert forall m | 0 <= m < n :: top[m] == sorted[m];
    forall i | 0 <= i < n
      ensures top[i] in t
    {
      assert sorted[i] in sorted;
    }
  }

  /**
   * `MostPopular`: the `topK` restaurants with the most reservations, most
   * popular first. Keys are collected in map iteration order (any order)
   * and stably sorted by count. A negative `topK` makes the slice
   * allocation panic, which ends the process.
   */
  method MostPopular(t: Table, topK: int) returns (r: Proc<seq<string>>)
    ensures r.Fatal? <==> topK < 0
    ensures r.Returns? ==> |r.value| == if topK < |t| then topK else |t|
    ensures r.Returns? ==> forall i | 0 <= i < |r.value| :: r.value[i] in t
    ensures r.Returns? ==> Distinct(r.value)
    ensures r.Returns? ==> Ranked(t, r.value)
    ensures r.Returns? ==>
              forall k, i | k in t && k !in r.value && 0 <= i < |r.value| :: t[k] <= t[r.value[i]]
    ensures r.Returns? && topK >= |t| ==> forall k | k in t :: k in r.value
  {
    if topK < 0 {
      return Fatal;
    }
    var keys := CollectKeys(t);
    var sorted := SortDesc(t, keys);
    SortDescRanked(t, keys);
    SortDescDistinct(t, keys);
    var n := if topK < |sorted| then topK else |sorted|;
    TopOfRanking(t, sorted, n);
    return Returns(sorted[..n]);
  }
}
