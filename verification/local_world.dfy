/**
 * The coordinator wired to the cache service of services/mycache.go (an LRU
 * engine behind `GetItem`/`SetItem`) and to a store that always answers:
 * a map from key to value, standing in for the database service, which is
 * not part of this model. The lemmas follow a value from a write through
 * later reads.
 */
module LocalWorld {
  import opened Wrappers
  import opened CacheItem
  import opened Rpc
  import opened CacheAside
  import MyCache
  import QueryId
  import Detail
  import Reservation
  import Ranking
  import Review

  datatype World = World(cache: MyCache.Server, store: map<string, Bytes>)

  /** `GetItem` on the cache service, as the client sees it. */
  function ItemGet(w: World, key: string): (World, CacheReply)
  {
    var (s, item, err) := MyCache.GetItem(w.cache, key);
    (w.(cache := s), CacheReply(CodeOf(err), match item case Some(it) => it.value case None => []))
  }

  /** `SetItem` on the cache service, as the client sees it. */
  function ItemSet(w: World, key: string, value: Bytes): (World, Code)
  {
    var (s, _, err) := MyCache.SetItem(w.cache, Item(key, value));
    (w.(cache := s), CodeOf(err))
  }

  /** `GetRecord` on the store: the record, or NotFound. */
  function RecordGet(w: World, key: string): (World, StoreReply)
  {
    if key in w.store then (w, StoreReply(OK, key, w.store[key])) else (w, StoreReply(NotFound, "", []))
  }

  /** `SetRecord` on the store: always succeeds. */
  function RecordSet(w: World, key: string, value: Bytes): (World, Code)
  {
    (w.(store := w.store[key := value]), OK)
  }

  function Local(): Backend<World>
  {
    Backend(ItemGet, ItemSet, RecordGet, RecordSet)
  }

  /**
   * With a cache of non-zero capacity, a write succeeds on both sides and a
   * following read is served from the cache and returns the written message.
   */
  lemma WriteThenReadHitsCache<T(!new)>(codec: Codec<T>, w: World, key: string, m: T)
    requires RoundTrips(codec) && w.cache.app.capacity != 0
    ensures var (w1, out, _) := Write(Local(), w, key, codec.marshal(m));
            && out == Returns(WriteResult(true, Nil))
            && w1.store == w.store[key := codec.marshal(m)]
            && Read(Local(), codec, w1, key).1 == Returns(Success(m))
            && Read(Local(), codec, w1, key).2 == [CacheGet(key)]
  {
    var (w0, c0) := ItemSet(w, key, codec.marshal(m));
    assert key in w0.cache.app.data && w0.cache.app.data[key].value == codec.marshal(m);
  }

  /**
   * With a cache of capacity 0, every `SetItem` answers Unknown, so a write
   * ends the process in `cacheSetHelper` before the store is written.
   */
  lemma ZeroCapacityWriteIsFatal(w: World, key: string, data: Bytes)
    requires w.cache.app.capacity == 0
    ensures var (w1, out, calls) := Write(Local(), w, key, data);
            out == Fatal && calls == [CacheSet(key, data)] && w1.store == w.store
  {
  }

  /**
   * A key missing from the cache but present in the store is read from the
   * store and put into the cache, so the next read of it is a cache hit.
   */
  lemma MissPopulatesCache<T>(codec: Codec<T>, w: World, key: string, m: T)
    requires key !in w.cache.app.data && key in w.store && w.cache.app.capacity != 0
    requires codec.unmarshal(w.store[key]) == Some(m)
    ensures var (w1, out, calls) := Read(Local(), codec, w, key);
            && out == Returns(Success(m))
            && calls == [CacheGet(key), StoreGet(key), CacheSet(key, w.store[key])]
            && w1.store == w.store
            && key in w1.cache.app.data && w1.cache.app.data[key] == Item(key, w.store[key])
            && Read(Local(), codec, w1, key).1 == Returns(Success(m))
            && Read(Local(), codec, w1, key).2 == [CacheGet(key)]
  {
  }

  /**
   * With a cache of capacity 0, a read that the store answers ends the
   * process: repopulating the cache answers Unknown, which `cacheSetHelper`
   * treats as fatal.
   */
  lemma ZeroCapacityReadThroughIsFatal<T>(codec: Codec<T>, w: World, key: string)
    requires w.cache.app.capacity == 0 && key !in w.cache.app.data
    requires key in w.store && codec.unmarshal(w.store[key]).Some?
    ensures Read(Local(), codec, w, key).1 == Fatal
  {
  }

  /** A key in neither the cache nor the store reads as NotFound and changes nothing. */
  lemma AbsentKeyIsNotFound<T>(codec: Codec<T>, w: World, key: string)
    requires key !in w.cache.app.data && key !in w.store
    ensures Read(Local(), codec, w, key) == (w, Returns(Failure(NotFound)), [CacheGet(key), StoreGet(key)])
  {
  }

  /** `PostDetail` followed by `GetDetail` returns the posted details. */
  lemma PostDetailThenGetDetail(codec: Codec<Detail.DetailMsg>, w: World,
                                restaurantName: string, location: string, style: string, capacity: int)
    requires RoundTrips(codec) && w.cache.app.capacity != 0
    ensures var (w1, out, _) := Detail.PostDetail(Local(), codec, w, restaurantName, location, style, capacity);
            && out == Returns(WriteResult(true, Nil))
            && Detail.GetDetail(Local(), codec, w1, restaurantName).1
               == Returns(Success(Detail.DetailMsg(restaurantName, location, style, capacity)))
  {
    WriteThenReadHitsCache(codec, w, restaurantName, Detail.DetailMsg(restaurantName, location, style, capacity));
  }

  /**
   * `PostReview` followed by `GetReview` for the same (restaurant, user)
   * returns the posted review, and the lookup table lists its identifier.
   */
  lemma PostReviewThenGetReview(codec: Codec<Review.ReviewMsg>, sha: string -> string, t: Review.LookupTable,
                                w: World, restaurantName: string, userName: string, review: string, rating: int)
    requires RoundTrips(codec) && w.cache.app.capacity != 0
    ensures var (t1, w1, out, _) := Review.PostReview(Local(), codec, sha, t, w, restaurantName, userName, review, rating);
            && out == Returns(WriteResult(true, Nil))
            && QueryId.GetQueryUuid(sha, restaurantName, userName) in Review.IdsOf(t1, restaurantName)
            && Review.GetReview(Local(), codec, sha, w1, restaurantName, userName).1
               == Returns(Success(Review.ReviewMsg(userName, restaurantName, review, rating)))
  {
    var id := QueryId.GetQueryUuid(sha, restaurantName, userName);
    WriteThenReadHitsCache(codec, w, id, Review.ReviewMsg(userName, restaurantName, review, rating));
  }

  /**
   * `MakeReservation` followed by `GetReservation` for the same (restaurant,
   * user) returns the reservation made, and the restaurant's count has risen
   * by one.
   */
  lemma PostReservationThenGetReservation(codec: Codec<Reservation.ReservationMsg>, sha: string -> string,
                                          t: map<string, int>, w: World,
                                          userName: string, restaurantName: string, time: string)
    requires RoundTrips(codec) && w.cache.app.capacity != 0
    ensures var (t1, w1, out, _) := Reservation.MakeReservation(Local(), codec, sha, t, w, userName, restaurantName, time);
            && out == Returns(WriteResult(true, Nil))
            && Ranking.Count(t1, restaurantName) == Ranking.Count(t, restaurantName) + 1
            && Reservation.GetReservation(Local(), codec, sha, w1, restaurantName, userName).1
               == Returns(Success(Reservation.ReservationMsg(userName, restaurantName, time)))
  {
    var id := QueryId.GetQueryUuid(sha, restaurantName, userName);
    WriteThenReadHitsCache(codec, w, id, Reservation.ReservationMsg(userName, restaurantName, time));
  }

  /** The store holds `v` under `key`, and the cache holds no other value under it. */
  ghost predicate Holds(w: World, key: string, v: Bytes)
  {
    key in w.store && w.store[key] == v && (key in w.cache.app.data ==> w.cache.app.data[key].value == v)
  }

  /**
   * With a cache of non-zero capacity, a write leaves its key held and every
   * other held key held.
   */
  lemma WriteKeepsHeld(w: World, key: string, data: Bytes)
    requires w.cache.app.capacity != 0
    ensures var (w1, out, _) := Write(Local(), w, key, data);
            && out == Returns(WriteResult(true, Nil))
            && w1.cache.app.capacity == w.cache.app.capacity
            && Holds(w1, key, data)
            && forall k, v | k != key && Holds(w, k, v) :: Holds(w1, k, v)
  {
  }

  /**
   * With a cache of non-zero capacity, a read of a held key returns its
   * decoded value, whether it is served by the cache or the store, and every
   * held key stays held.
   */
  lemma ReadOfHeldKey<T>(codec: Codec<T>, w: World, key: string, v: Bytes, m: T)
    requires w.cache.app.capacity != 0 && Holds(w, key, v) && codec.unmarshal(v) == Some(m)
    ensures var (w1, out, _) := Read(Local(), codec, w, key);
            && out == Returns(Success(m))
            && w1.cache.app.capacity == w.cache.app.capacity
            && forall k, v' | Holds(w, k, v') :: Holds(w1, k, v')
  {
  }

  /**
   * A search over held keys returns their reviews filed by user name, the
   * later of two reviews by one user winning.
   */
  lemma {:induction false} SearchOfHeldKeys(codec: Codec<Review.ReviewMsg>, w: World, ids: seq<string>,
                                            vs: seq<Bytes>, ms: seq<Review.ReviewMsg>)
    requires w.cache.app.capacity != 0
    requires |vs| == |ids| && |ms| == |ids|
    requires forall i | 0 <= i < |ids| :: Holds(w, ids[i], vs[i]) && codec.unmarshal(vs[i]) == Some(ms[i])
    ensures Review.SearchFrom(Local(), codec, w, ids).1 == Returns(Success(Review.FileByUser(ms)))
    decreases |ids|
  {
    if |ids| > 0 {
      ReadOfHeldKey(codec, w, ids[0], vs[0], ms[0]);
      var w1 := Read(Local(), codec, w, ids[0]).0;
      HeldTail(codec, w, w1, ids, vs, ms);
      SearchOfHeldKeys(codec, w1, ids[1..], vs[1..], ms[1..]);
      Review.SearchFromFiles(Local(), codec, w, ids, ms);
    }
  }

  /** The held keys after the first stay held in a world that keeps every held key. */
  lemma HeldTail(codec: Codec<Review.ReviewMsg>, w: World, w1: World, ids: seq<string>,
                 vs: seq<Bytes>, ms: seq<Review.ReviewMsg>)
    requires |ids| > 0 && |vs| == |ids| && |ms| == |ids|
    requires forall i | 0 <= i < |ids| :: Holds(w, ids[i], vs[i]) && codec.unmarshal(vs[i]) == Some(ms[i])
    requires forall k, v | Holds(w, k, v) :: Holds(w1, k, v)
    ensures forall i | 0 <= i < |ids| - 1 ::
              Holds(w1, ids[1..][i], vs[1..][i]) && codec.unmarshal(vs[1..][i]) == Some(ms[1..][i])
  {
    forall i | 0 <= i < |ids| - 1
      ensures Holds(w1, ids[1..][i], vs[1..][i]) && codec.unmarshal(vs[1..][i]) == Some(ms[1..][i])
    {
      assert Holds(w, ids[i + 1], vs[i + 1]);
    }
  }

  /**
   * Reviews by two different users, each present at least once, are filed
   * as exactly those two reviews.
   */
  lemma FileTwoUsers(ms: seq<Review.ReviewMsg>, m1: Review.ReviewMsg, m2: Review.ReviewMsg, i1: nat, i2: nat)
    requires m1.userName != m2.userName
    requires forall i | 0 <= i < |ms| :: ms[i] == m1 || ms[i] == m2
    requires i1 < |ms| && ms[i1] == m1 && i2 < |ms| && ms[i2] == m2
    ensures Review.FileByUser(ms) == map[m1.userName := m1, m2.userName := m2]
  {
    var found := Review.FileByUser(ms);
    var expected := map[m1.userName := m1, m2.userName := m2];
    FiledAs(ms, m1, i1);
    FiledAs(ms, m2, i2);
    forall u | u in found
      ensures u in expected
    {
      Review.FileByUserLatest(ms, u);
    }
    assert found.Keys == expected.Keys;
  }

  /** A user whose every review in `ms` is `m`, and who has one, is filed as `m`. */
  lemma FiledAs(ms: seq<Review.ReviewMsg>, m: Review.ReviewMsg, j: nat)
    requires j < |ms| && ms[j] == m
    requires forall i | 0 <= i < |ms| && ms[i].userName == m.userName :: ms[i] == m
    ensures m.userName in Review.FileByUser(ms) && Review.FileByUser(ms)[m.userName] == m
  {
    Review.FileByUserLatest(ms, m.userName);
  }

  /** Two reviews posted in turn at one restaurant: the lookup table and world after both. */
  function PostTwo(codec: Codec<Review.ReviewMsg>, sha: string -> string, t: Review.LookupTable,
                   w: World, restaurantName: string,
                   user1: string, review1: string, rating1: int,
                   user2: string, review2: string, rating2: int): (Review.LookupTable, World)
  {
    var (t1, w1, _, _) := Review.PostReview(Local(), codec, sha, t, w, restaurantName, user1, review1, rating1);
    var (t2, w2, _, _) := Review.PostReview(Local(), codec, sha, t1, w1, restaurantName, user2, review2, rating2);
    (t2, w2)
  }

  /** Two posts under different identifiers leave both reviews held. */
  lemma TwoPostsHold(codec: Codec<Review.ReviewMsg>, sha: string -> string, t: Review.LookupTable,
                     w: World, restaurantName: string,
                     user1: string, review1: string, rating1: int,
                     user2: string, review2: string, rating2: int)
    requires w.cache.app.capacity != 0
    requires QueryId.GetQueryUuid(sha, restaurantName, user1) != QueryId.GetQueryUuid(sha, restaurantName, user2)
    ensures var tw := PostTwo(codec, sha, t, w, restaurantName, user1, review1, rating1, user2, review2, rating2);
            && Review.IdsOf(tw.0, restaurantName) == Review.IdsOf(t, restaurantName)
                 + {QueryId.GetQueryUuid(sha, restaurantName, user1), QueryId.GetQueryUuid(sha, restaurantName, user2)}
            && tw.1.cache.app.capacity != 0
            && Holds(tw.1, QueryId.GetQueryUuid(sha, restaurantName, user1),
                     codec.marshal(Review.ReviewMsg(user1, restaurantName, review1, rating1)))
            && Holds(tw.1, QueryId.GetQueryUuid(sha, restaurantName, user2),
                     codec.marshal(Review.ReviewMsg(user2, restaurantName, review2, rating2)))
  {
    var id1 := QueryId.GetQueryUuid(sha, restaurantName, user1);
    var v1 := codec.marshal(Review.ReviewMsg(user1, restaurantName, review1, rating1));
    WriteKeepsHeld(w, id1, v1);
    var w1 := Write(Local(), w, id1, v1).0;
    WriteKeepsHeld(w1, QueryId.GetQueryUuid(sha, restaurantName, user2),
                   codec.marshal(Review.ReviewMsg(user2, restaurantName, review2, rating2)));
  }

  /**
   * Two reviews posted by different users at a restaurant with no reviews
   * yet are both found by a search, in whichever order the lookup table
   * lists their identifiers.
   */
  lemma PostTwoReviewsThenSearch(codec: Codec<Review.ReviewMsg>, sha: string -> string, t: Review.LookupTable,
                                 w: World, restaurantName: string,
                                 user1: string, review1: string, rating1: int,
                                 user2: string, review2: string, rating2: int, ids: seq<string>)
    requires RoundTrips(codec) && w.cache.app.capacity != 0 && restaurantName !in t
    requires QueryId.GetQueryUuid(sha, restaurantName, user1) != QueryId.GetQueryUuid(sha, restaurantName, user2)
    requires forall id :: id in ids <==>
               id == QueryId.GetQueryUuid(sha, restaurantName, user1) || id == QueryId.GetQueryUuid(sha, restaurantName, user2)
    ensures var tw := PostTwo(codec, sha, t, w, restaurantName, user1, review1, rating1, user2, review2, rating2);
            && (forall id :: id in ids <==> id in Review.IdsOf(tw.0, restaurantName))
            && Review.SearchFrom(Local(), codec, tw.1, ids).1
               == Returns(Success(map[user1 := Review.ReviewMsg(user1, restaurantName, review1, rating1),
                                      user2 := Review.ReviewMsg(user2, restaurantName, review2, rating2)]))
  {
    var id1 := QueryId.GetQueryUuid(sha, restaurantName, user1);
    var id2 := QueryId.GetQueryUuid(sha, restaurantName, user2);
    assert user1 != user2;
    assert Review.IdsOf(t, restaurantName) == {};
    TwoPostsHold(codec, sha, t, w, restaurantName, user1, review1, rating1, user2, review2, rating2);
    var tw := PostTwo(codec, sha, t, w, restaurantName, user1, review1, rating1, user2, review2, rating2);
    SearchTwoHeld(codec, tw.1, ids, id1, Review.ReviewMsg(user1, restaurantName, review1, rating1),
                  id2, Review.ReviewMsg(user2, restaurantName, review2, rating2));
  }

  /** A search over two held keys of reviews by different users finds both reviews. */
  lemma SearchTwoHeld(codec: Codec<Review.ReviewMsg>, w: World, ids: seq<string>,
                      id1: string, m1: Review.ReviewMsg, id2: string, m2: Review.ReviewMsg)
    requires RoundTrips(codec) && w.cache.app.capacity != 0
    requires id1 != id2 && m1.userName != m2.userName
    requires Holds(w, id1, codec.marshal(m1)) && Holds(w, id2, codec.marshal(m2))
    requires forall id :: id in ids <==> id == id1 || id == id2
    ensures Review.SearchFrom(Local(), codec, w, ids).1 == Returns(Success(map[m1.userName := m1, m2.userName := m2]))
  {
    var v1 := codec.marshal(m1);
    var v2 := codec.marshal(m2);
    var vs := seq(|ids|, i requires 0 <= i < |ids| => if ids[i] == id1 then v1 else v2);
    var ms := seq(|ids|, i requires 0 <= i < |ids| => if ids[i] == id1 then m1 else m2);
    forall i | 0 <= i < |ids|
      ensures ids[i] == id1 || ids[i] == id2
    {
      assert ids[i] in ids;
    }
    assert id1 in ids && id2 in ids;
    var i1 :| 0 <= i1 < |ids| && ids[i1] == id1;
    var i2 :| 0 <= i2 < |ids| && ids[i2] == id2;
    FileTwoUsers(ms, m1, m2, i1, i2);
    SearchOfHeldKeys(codec, w, ids, vs, ms);
  }
}
