/**
 * The review service of services_lab3/review.go: reviews are cached and
 * stored under the query identifier of (restaurant, user), and a lookup
 * table maps each restaurant to the identifiers of its reviews so that
 * `SearchReviews` can fetch them all.
 */
module Review {
  import opened Wrappers
  import opened Rpc
  import opened CacheAside
  import QueryId
  import opened Seqs

  /** `GetReviewResponse`: the message that is cached and stored. */
  datatype ReviewMsg = ReviewMsg(userName: string, restaurantName: string, review: string, rating: int)

  /** `idLookupTable`: restaurant name to the set of its review identifiers. */
  type LookupTable = map<string, set<string>>

  /** The identifiers recorded for a restaurant; none for an unknown one. */
  function IdsOf(t: LookupTable, restaurantName: string): set<string>
  {
    if restaurantName in t then t[restaurantName] else {}
  }

  /**
   * `updateLookupTable`: adds `reviewId` to the restaurant's set, creating
   * the set for a restaurant seen for the first time. Other restaurants are
   * untouched.
   */
  function UpdateLookupTable(t: LookupTable, restaurantName: string, reviewId: string): (r: LookupTable)
    ensures restaurantName in r
    ensures IdsOf(r, restaurantName) == IdsOf(t, restaurantName) + {reviewId}
    ensures forall other | other != restaurantName :: other in r <==> other in t
    ensures forall other | other != restaurantName && other in t :: r[other] == t[other]
  {
    t[restaurantName := IdsOf(t, restaurantName) + {reviewId}]
  }

  /** Recording the same review twice leaves the table as recording it once. */
  lemma UpdateLookupTableIdempotent(t: LookupTable, restaurantName: string, reviewId: string)
    ensures var once := UpdateLookupTable(t, restaurantName, reviewId);
            UpdateLookupTable(once, restaurantName, reviewId) == once
  {
  }

  /** Recording reviews commutes: the table does not remember the order of posts. */
  lemma UpdateLookupTableCommutes(t: LookupTable, r1: string, id1: string, r2: string, id2: string)
    ensures UpdateLookupTable(UpdateLookupTable(t, r1, id1), r2, id2)
         == UpdateLookupTable(UpdateLookupTable(t, r2, id2), r1, id1)
  {
    var a := UpdateLookupTable(UpdateLookupTable(t, r1, id1), r2, id2);
    var b := UpdateLookupTable(UpdateLookupTable(t, r2, id2), r1, id1);
    assert a.Keys == b.Keys;
    forall k | k in a
      ensures a[k] == b[k]
    {
      assert a[k] == IdsOf(a, k) && b[k] == IdsOf(b, k);
    }
  }

  /**
   * `getFromLookupTable`: nil for a restaurant with no recorded reviews,
   * otherwise its identifiers, each once, in map iteration order.
   */
  method GetFromLookupTable(t: LookupTable, restaurantName: string) returns (r: Option<seq<string>>)
    ensures r.None? <==> restaurantName !in t
    ensures r.Some? ==> forall id :: id in r.value <==> id in t[restaurantName]
    ensures r.Some? ==> Distinct(r.value) && |r.value| == |t[restaurantName]|
  {
    if restaurantName !in t {
      return None;
    }
    var ids: seq<string> := [];
    var rest := t[restaurantName];
    while rest != {}
      invariant rest <= t[restaurantName]
      invariant forall i | 0 <= i < |ids| :: ids[i] in t[restaurantName] && ids[i] !in rest
      invariant forall id | id in t[restaurantName] :: id in rest || id in ids
      invariant Distinct(ids)
      invariant |ids| + |rest| == |t[restaurantName]|
      decreases |rest|
    {
      var id :| id in rest;
      ids := ids + [id];
      rest := rest - {id};
    }
    return Some(ids);
  }

  /** `GetReview`: the cache-aside read under the identifier of (restaurant, user). */
  function GetReview<S>(b: Backend<S>, codec: Codec<ReviewMsg>, sha: string -> string,
                        w: S, restaurantName: string, userName: string)
    : (r: (S, Proc<ReadResult<ReviewMsg>>, seq<Call>))
    ensures var id := QueryId.GetQueryUuid(sha, restaurantName, userName);
            && 1 <= |r.2| && r.2[0] == CacheGet(id)
            && (forall i | 0 <= i < |r.2| && r.2[i].StoreGet? :: r.2[i].key == id)
    ensures r.1.Returns? && r.1.value.Failure? ==> r.1.value.error in {NotFound, Canceled}
  {
    Read(b, codec, w, QueryId.GetQueryUuid(sha, restaurantName, userName))
  }

  /** What `SearchReviews` answers when it does not end the process. */
  type SearchResult = Result<map<string, ReviewMsg>, ErrCode>

  /** One read of a search: the world it leaves, its outcome and its calls. */
  type Step<S> = (S, Proc<ReadResult<ReviewMsg>>, seq<Call>)

  /** The read returned a decoded message. */
  predicate Succeeded(p: Proc<ReadResult<ReviewMsg>>)
  {
    p.Returns? && p.value.Success?
  }

  /**
   * The reads a search makes: one per identifier in turn, each in the world
   * the previous one left, stopping after the first read that does not
   * return a message.
   */
  function Steps<S>(b: Backend<S>, codec: Codec<ReviewMsg>, w: S, ids: seq<string>): (r: seq<Step<S>>)
    ensures |r| <= |ids|
    ensures |ids| > 0 ==> |r| > 0 && r[0] == Read(b, codec, w, ids[0])
    ensures forall i | 0 < i < |r| :: r[i] == Read(b, codec, r[i - 1].0, ids[i])
    ensures forall i | 0 <= i < |r| - 1 :: Succeeded(r[i].1)
    ensures |r| < |ids| ==> |r| > 0 && !Succeeded(r[|r| - 1].1)
  {
    if |ids| == 0 then []
    else
      var first := Read(b, codec, w, ids[0]);
      if Succeeded(first.1) then [first] + Steps(b, codec, first.0, ids[1..]) else [first]
  }

  /** The messages the reads returned, in order. */
  function Messages<S>(st: seq<Step<S>>): seq<ReviewMsg>
  {
    if |st| == 0 then []
    else (match st[0].1 case Returns(Success(m)) => [m] case _ => []) + Messages(st[1..])
  }

  /** The calls of the reads, in order. */
  function CallsOf<S>(st: seq<Step<S>>): seq<Call>
  {
    if |st| == 0 then [] else st[0].2 + CallsOf(st[1..])
  }

  /**
   * The `userReviews[r.UserName] = r` loop over a sequence of reviews: each
   * is filed under its user name, and a later review of the same user
   * replaces an earlier one.
   */
  function FileByUser(ms: seq<ReviewMsg>): (r: map<string, ReviewMsg>)
    ensures forall u | u in r :: r[u].userName == u
    ensures |ms| > 0 ==> ms[|ms| - 1].userName in r && r[ms[|ms| - 1].userName] == ms[|ms| - 1]
  {
    if |ms| == 0 then map[]
    else FileByUser(ms[..|ms| - 1])[ms[|ms| - 1].userName := ms[|ms| - 1]]
  }

  /** Position `i` holds the last review of `u` in `ms`. */
  ghost predicate LatestOf(ms: seq<ReviewMsg>, u: string, i: int)
  {
    0 <= i < |ms| && ms[i].userName == u && forall j | i < j < |ms| :: ms[j].userName != u
  }

  /**
   * The filed reviews are keyed by exactly the users that wrote one, and
   * each user's entry is that user's last review.
   */
  lemma {:induction false} FileByUserLatest(ms: seq<ReviewMsg>, u: string)
    ensures u in FileByUser(ms) <==> exists i | 0 <= i < |ms| :: ms[i].userName == u
    ensures u in FileByUser(ms) ==> exists i :: LatestOf(ms, u, i) && FileByUser(ms)[u] == ms[i]
  {
    if |ms| > 0 {
      var p := ms[..|ms| - 1];
      var last := ms[|ms| - 1];
      FileByUserLatest(p, u);
      assert forall i | 0 <= i < |p| :: ms[i] == p[i];
      if last.userName == u {
        assert LatestOf(ms, u, |ms| - 1);
      } else if u in FileByUser(p) {
        var i :| LatestOf(p, u, i) && FileByUser(p)[u] == p[i];
        assert LatestOf(ms, u, i);
      }
    }
  }

  /** Filing a review first and the rest after it is the rest filed over that review. */
  lemma {:induction false} FileByUserCons(m: ReviewMsg, ms: seq<ReviewMsg>)
    ensures FileByUser([m] + ms) == map[m.userName := m] + FileByUser(ms)
  {
    if |ms| == 0 {
      assert [m] + ms == [m];
      assert [m][..0] == [];
    } else {
      var p := ms[..|ms| - 1];
      var last := ms[|ms| - 1];
      FileByUserCons(m, p);
      assert ([m] + ms)[..|ms|] == [m] + p;
      assert ([m] + ms)[|ms|] == last;
      var a := FileByUser([m] + ms);
      var c := map[m.userName := m] + FileByUser(ms);
      assert a == (map[m.userName := m] + FileByUser(p))[last.userName := last];
      assert c == map[m.userName := m] + FileByUser(p)[last.userName := last];
      assert a.Keys == c.Keys;
    }
  }

  /**
   * The loop of `SearchReviews`: each identifier is read in turn; the first
   * read that fails ends the search with its error, otherwise each review is
   * filed under its `UserName`, a later review replacing an earlier one.
   */
  function SearchFrom<S>(b: Backend<S>, codec: Codec<ReviewMsg>, w: S, ids: seq<string>)
    : (r: (S, Proc<SearchResult>, seq<Call>))
    ensures r.1.Returns? && r.1.value.Failure? ==> r.1.value.error in {NotFound, Canceled}
    ensures r.1.Returns? && r.1.value.Success? ==>
              && |r.1.value.value| <= |ids|
              && (forall u | u in r.1.value.value :: r.1.value.value[u].userName == u)
              && (forall id | id in ids :: CacheGet(id) in r.2)
    ensures |ids| == 0 ==> r == (w, Returns(Success(map[])), [])
    ensures |ids| > 0 ==> 1 <= |r.2| && r.2[0] == CacheGet(ids[0])
  {
    if |ids| == 0 then (w, Returns(Success(map[])), [])
    else
      var (w1, first, c1) := Read(b, codec, w, ids[0]);
      match first
      case Fatal => (w1, Fatal, c1)
      case Returns(Failure(e)) => (w1, Returns(Failure(e)), c1)
      case Returns(Success(m)) =>
        var (w2, rest, c2) := SearchFrom(b, codec, w1, ids[1..]);
        var out := match rest
          case Fatal => Fatal
          case Returns(Failure(e)) => Returns(Failure(e))
          case Returns(Success(reviews)) => Returns(Success(map[m.userName := m] + reviews));
        (w2, out, c1 + c2)
  }

  /**
   * A search is its reads: its calls are exactly theirs, so no call follows
   * the first read that fails; that read's error, or its end of the
   * process, is the search's; and a successful search read every
   * identifier and files the reviews read by user name, a later review
   * winning.
   */
  ghost predicate SearchIsItsReads<S>(b: Backend<S>, codec: Codec<ReviewMsg>, w: S, ids: seq<string>)
  {
    var r := SearchFrom(b, codec, w, ids);
    var st := Steps(b, codec, w, ids);
    && r.2 == CallsOf(st)
    && r.0 == (if |st| == 0 then w else st[|st| - 1].0)
    && (r.1.Fatal? <==> |st| > 0 && st[|st| - 1].1.Fatal?)
    && (r.1.Returns? && r.1.value.Failure? <==>
          |st| > 0 && st[|st| - 1].1.Returns? && st[|st| - 1].1.value.Failure?)
    && (r.1.Returns? && r.1.value.Failure? ==> r.1.value.error == st[|st| - 1].1.value.error)
    && (r.1.Returns? && r.1.value.Success? ==> |st| == |ids| && r.1.value.value == FileByUser(Messages(st)))
  }

  /** Every search is its reads. */
  lemma {:induction false} SearchFromFollowsSteps<S>(b: Backend<S>, codec: Codec<ReviewMsg>, w: S, ids: seq<string>)
    ensures SearchIsItsReads(b, codec, w, ids)
    decreases |ids|
  {
    if |ids| > 0 {
      var first := Read(b, codec, w, ids[0]);
      if Succeeded(first.1) {
        SearchFromFollowsSteps(b, codec, first.0, ids[1..]);
        AfterFirstSuccess(b, codec, w, ids);
      } else {
        FirstFailure(b, codec, w, ids);
      }
    }
  }

  /** A search whose first read does not return a review is that read. */
  lemma FirstFailure<S>(b: Backend<S>, codec: Codec<ReviewMsg>, w: S, ids: seq<string>)
    requires |ids| > 0 && !Succeeded(Read(b, codec, w, ids[0]).1)
    ensures SearchIsItsReads(b, codec, w, ids)
  {
    var first := Read(b, codec, w, ids[0]);
    assert Steps(b, codec, w, ids) == [first];
    assert CallsOf([first]) == first.2 + CallsOf<S>([]);
  }

  /** A search whose first read returns a review is its reads when the rest of it is. */
  lemma AfterFirstSuccess<S>(b: Backend<S>, codec: Codec<ReviewMsg>, w: S, ids: seq<string>)
    requires |ids| > 0 && Succeeded(Read(b, codec, w, ids[0]).1)
    requires SearchIsItsReads(b, codec, Read(b, codec, w, ids[0]).0, ids[1..])
    ensures SearchIsItsReads(b, codec, w, ids)
  {
    var first := Read(b, codec, w, ids[0]);
    SearchStep(b, codec, w, ids, first.1.value.value);
  }

  /** A search whose first read returns `m` files `m` under the rest of the search. */
  lemma SearchFromFirstSucceeds<S>(b: Backend<S>, codec: Codec<ReviewMsg>, w: S, ids: seq<string>, m: ReviewMsg)
    requires |ids| > 0 && Read(b, codec, w, ids[0]).1 == Returns(Success(m))
    ensures var rest := SearchFrom(b, codec, Read(b, codec, w, ids[0]).0, ids[1..]).1;
            rest.Returns? && rest.value.Success? ==>
              SearchFrom(b, codec, w, ids).1 == Returns(Success(map[m.userName := m] + rest.value.value))
  {
  }

  /** A search whose first read returns `ms[0]` and whose rest files `ms[1..]` files `ms`. */
  lemma SearchFromFiles<S>(b: Backend<S>, codec: Codec<ReviewMsg>, w: S, ids: seq<string>, ms: seq<ReviewMsg>)
    requires |ids| > 0 && |ms| > 0
    requires Read(b, codec, w, ids[0]).1 == Returns(Success(ms[0]))
    requires SearchFrom(b, codec, Read(b, codec, w, ids[0]).0, ids[1..]).1 == Returns(Success(FileByUser(ms[1..])))
    ensures SearchFrom(b, codec, w, ids).1 == Returns(Success(FileByUser(ms)))
  {
    SearchFromFirstSucceeds(b, codec, w, ids, ms[0]);
    FileByUserCons(ms[0], ms[1..]);
    assert ms == [ms[0]] + ms[1..];
  }

  /** How the reads of a search split after a first read that returned `m`. */
  lemma SearchStep<S>(b: Backend<S>, codec: Codec<ReviewMsg>, w: S, ids: seq<string>, m: ReviewMsg)
    requires |ids| > 0 && Read(b, codec, w, ids[0]).1 == Returns(Success(m))
    ensures var first := Read(b, codec, w, ids[0]);
            var rest := Steps(b, codec, first.0, ids[1..]);
            && Steps(b, codec, w, ids) == [first] + rest
            && CallsOf(Steps(b, codec, w, ids)) == first.2 + CallsOf(rest)
            && Messages(Steps(b, codec, w, ids)) == [m] + Messages(rest)
            && FileByUser(Messages(Steps(b, codec, w, ids))) == map[m.userName := m] + FileByUser(Messages(rest))
  {
    var first := Read(b, codec, w, ids[0]);
    var rest := Steps(b, codec, first.0, ids[1..]);
    assert ([first] + rest)[1..] == rest;
    FileByUserCons(m, Messages(rest));
  }

  /**
   * `SearchReviews`: every review recorded for the restaurant, keyed by user
   * name, or the first error met while reading them. The identifiers are
   * read in the lookup table's iteration order, which is any order.
   */
  method SearchReviews<S>(b: Backend<S>, codec: Codec<ReviewMsg>, t: LookupTable, w: S, restaurantName: string)
    returns (r: (S, Proc<SearchResult>, seq<Call>))
    ensures exists ids: seq<string> ::
              && (forall id :: id in ids <==> id in IdsOf(t, restaurantName))
              && Distinct(ids)
              && r == SearchFrom(b, codec, w, ids)
    ensures restaurantName !in t || t[restaurantName] == {} ==> r == (w, Returns(Success(map[])), [])
    ensures r.1.Returns? && r.1.value.Failure? ==> r.1.value.error in {NotFound, Canceled}
    ensures r.1.Returns? && r.1.value.Success? ==>
              && |r.1.value.value| <= |IdsOf(t, restaurantName)|
              && (forall u | u in r.1.value.value :: r.1.value.value[u].userName == u)
              && (forall id | id in IdsOf(t, restaurantName) :: CacheGet(id) in r.2)
  {
    var ids := GetFromLookupTable(t, restaurantName);
    match ids
    case None =>
      r := SearchFrom(b, codec, w, []);
      assert Distinct<string>([]);
    case Some(found) =>
      r := SearchFrom(b, codec, w, found);
  }

  /**
   * `PostReview`: records the review's identifier in the lookup table, then
   * writes the encoded review to the cache and then to the store. The table
   * is updated before either write and keeps the identifier whatever the
   * writes return.
   */
  function PostReview<S>(b: Backend<S>, codec: Codec<ReviewMsg>, sha: string -> string, t: LookupTable, w: S,
                         restaurantName: string, userName: string, review: string, rating: int)
    : (r: (LookupTable, S, Proc<WriteResult>, seq<Call>))
    ensures var id := QueryId.GetQueryUuid(sha, restaurantName, userName);
            r.0 == UpdateLookupTable(t, restaurantName, id)
    ensures var id := QueryId.GetQueryUuid(sha, restaurantName, userName);
            var data := codec.marshal(ReviewMsg(userName, restaurantName, review, rating));
            && 1 <= |r.3| <= 2
            && r.3[0] == CacheSet(id, data)
            && (|r.3| == 2 ==> r.3[1] == StoreSet(id, data))
            && (r.2.Returns? ==>
                  (r.2.value.status <==> b.cacheSet(w, id, data).1 == OK && b.storeSet(b.cacheSet(w, id, data).0, id, data).1 == OK))
    ensures RoundTrips(codec) ==>
              forall i | 0 <= i < |r.3| ::
                codec.unmarshal(r.3[i].value) == Some(ReviewMsg(userName, restaurantName, review, rating))
  {
    var id := QueryId.GetQueryUuid(sha, restaurantName, userName);
    var (w', out, calls) := Write(b, w, id, codec.marshal(ReviewMsg(userName, restaurantName, review, rating)));
    (UpdateLookupTable(t, restaurantName, id), w', out, calls)
  }
}
