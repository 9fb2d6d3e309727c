/**
 * The cache-aside coordinator that services/detail.go,
 * services_lab3/reservation.go and services_lab3/review.go each repeat:
 * a read tries the cache, falls back to the store and repopulates the
 * cache; a write goes to the cache and then to the store.
 *
 * The cache and store clients are a `Backend` over an abstract world `S`,
 * so the coordinator is proved for any behaviour of the two servers. Every
 * function also returns the calls it made, in order.
 */
module CacheAside {
  import opened Wrappers
  import opened CacheItem
  import opened Rpc

  /** The reply of the cache's `GetItem`: its code and the item's value (empty without an item). */
  datatype CacheReply = CacheReply(code: Code, value: Bytes)

  /** The reply of the store's `GetRecord`: its code and the record's key and value. */
  datatype StoreReply = StoreReply(code: Code, key: string, value: Bytes)

  /** The remote calls the coordinator makes. */
  datatype Call =
    | CacheGet(key: string)
    | StoreGet(key: string)
    | CacheSet(key: string, value: Bytes)
    | StoreSet(key: string, value: Bytes)

  /** The cache and store clients: each call may change the world and returns a reply. */
  datatype Backend<!S> = Backend(
    cacheGet: (S, string) -> (S, CacheReply),
    cacheSet: (S, string, Bytes) -> (S, Code),
    storeGet: (S, string) -> (S, StoreReply),
    storeSet: (S, string, Bytes) -> (S, Code))

  /** Protobuf encoding of a message type; a failed decode is None. */
  datatype Codec<!T> = Codec(marshal: T -> Bytes, unmarshal: Bytes -> Option<T>)

  /** Decoding what was encoded gives the message back. */
  ghost predicate RoundTrips<T(!new)>(codec: Codec<T>)
  {
    forall m: T :: codec.unmarshal(codec.marshal(m)) == Some(m)
  }

  /** What a read hands back when it does not end the process: a message or an error code. */
  type ReadResult<T> = Result<T, ErrCode>

  /**
   * The read (`GetDetail`, `GetReservation`, `getResponseHelper`).
   *  - cache OK: decode the cached value; the store is not called.
   *  - cache NotFound: ask the store. Any non-OK store code, Canceled
   *    included, becomes NotFound. On a store hit, decode the record's
   *    value and set the record's key and value in the cache. The result of
   *    that populate is assigned to a shadowing `err` and is dropped, so a
   *    Canceled populate still yields the message with a nil error; any
   *    other failing populate code ends the process inside `cacheSetHelper`.
   *  - cache Canceled: a Canceled error; the store is not called.
   *  - any other cache code, and any failed decode: the process ends.
   */
  function Read<S, T>(b: Backend<S>, codec: Codec<T>, w: S, key: string): (r: (S, Proc<ReadResult<T>>, seq<Call>))
    ensures |r.2| >= 1 && r.2[0] == CacheGet(key)
    ensures var hit := b.cacheGet(w, key).1;
            hit.code != NotFound ==> r.2 == [CacheGet(key)]
    ensures var hit := b.cacheGet(w, key).1;
            hit.code == OK ==>
              r.1 == (match codec.unmarshal(hit.value) case Some(m) => Returns(Success(m)) case None => Fatal)
    ensures var hit := b.cacheGet(w, key).1;
            hit.code == Canceled ==> r.1 == Returns(Failure(Canceled))
    ensures var hit := b.cacheGet(w, key).1;
            hit.code !in {OK, NotFound, Canceled} ==> r.1 == Fatal
    ensures var (w1, hit) := b.cacheGet(w, key);
            var rec := b.storeGet(w1, key).1;
            hit.code == NotFound ==>
              && |r.2| >= 2 && r.2[1] == StoreGet(key)
              && (rec.code != OK ==> r.1 == Returns(Failure(NotFound)) && |r.2| == 2)
              && (rec.code == OK && codec.unmarshal(rec.value).None? ==> r.1 == Fatal)
    ensures var (w1, hit) := b.cacheGet(w, key);
            var (w2, rec) := b.storeGet(w1, key);
            hit.code == NotFound && rec.code == OK && codec.unmarshal(rec.value).Some? ==>
              && r.2 == [CacheGet(key), StoreGet(key), CacheSet(rec.key, rec.value)]
              && var populated := b.cacheSet(w2, rec.key, rec.value).1;
                 r.1 == if SetHelper(populated).Returns? then Returns(Success(codec.unmarshal(rec.value).value)) else Fatal
    ensures r.1.Returns? && r.1.value.Failure? ==> r.1.value.error in {NotFound, Canceled}
    ensures var (w1, hit) := b.cacheGet(w, key);
            var (w2, rec) := b.storeGet(w1, key);
            r.0 == if hit.code != NotFound then w1
                   else if rec.code != OK || codec.unmarshal(rec.value).None? then w2
                   else b.cacheSet(w2, rec.key, rec.value).0
  {
    var (w1, hit) := b.cacheGet(w, key);
    match hit.code
    case OK =>
      (match codec.unmarshal(hit.value)
       case Some(m) => (w1, Returns(Success(m)), [CacheGet(key)])
       case None => (w1, Fatal, [CacheGet(key)]))
    case NotFound =>
      var (w2, rec) := b.storeGet(w1, key);
      if rec.code != OK then (w2, Returns(Failure(NotFound)), [CacheGet(key), StoreGet(key)])
      else
        (match codec.unmarshal(rec.value)
         case None => (w2, Fatal, [CacheGet(key), StoreGet(key)])
         case Some(m) =>
           var (w3, populated) := b.cacheSet(w2, rec.key, rec.value);
           var calls := [CacheGet(key), StoreGet(key), CacheSet(rec.key, rec.value)];
           if SetHelper(populated).Fatal? then (w3, Fatal, calls) else (w3, Returns(Success(m)), calls))
    case Canceled => (w1, Returns(Failure(Canceled)), [CacheGet(key)])
    case _ => (w1, Fatal, [CacheGet(key)])
  }

  /** What a write hands back when it does not end the process: the status flag and the error. */
  datatype WriteResult = WriteResult(status: bool, err: Error)

  /**
   * The write (`PostDetail`, `MakeReservation`, `PostReview`): the payload is
   * set in the cache and then in the store, each through its helper. `Status`
   * is true only when both helpers returned nil, and the error returned is
   * the store helper's alone. A failing code other than Canceled ends the
   * process inside the helper, before any later call.
   */
  function Write<S>(b: Backend<S>, w: S, key: string, data: Bytes): (r: (S, Proc<WriteResult>, seq<Call>))
    ensures var (w1, c1) := b.cacheSet(w, key, data);
            var c2 := b.storeSet(w1, key, data).1;
            && (SetHelper(c1).Fatal? ==> r.1 == Fatal && r.2 == [CacheSet(key, data)])
            && (SetHelper(c1).Returns? ==> r.2 == [CacheSet(key, data), StoreSet(key, data)])
            && (r.1.Returns? <==> SetHelper(c1).Returns? && SetHelper(c2).Returns?)
            && (r.1.Returns? ==> (r.1.value.status <==> c1 == OK && c2 == OK))
            && (r.1.Returns? ==> r.1.value.err == StatusError(c2))
    ensures var (w1, c1) := b.cacheSet(w, key, data);
            r.0 == if SetHelper(c1).Fatal? then w1 else b.storeSet(w1, key, data).0
  {
    var (w1, c1) := b.cacheSet(w, key, data);
    match SetHelper(c1)
    case Fatal => (w1, Fatal, [CacheSet(key, data)])
    case Returns(e1) =>
      var (w2, c2) := b.storeSet(w1, key, data);
      var calls := [CacheSet(key, data), StoreSet(key, data)];
      match SetHelper(c2)
      case Fatal => (w2, Fatal, calls)
      case Returns(e2) => (w2, Returns(WriteResult(e1 == Nil && e2 == Nil, e2)), calls)
  }

  /**
   * A write whose cache set is Canceled but whose store set succeeds reports
   * `Status` false together with a nil error.
   */
  lemma CanceledCacheSetHidesInError<S>(b: Backend<S>, w: S, key: string, data: Bytes)
    requires b.cacheSet(w, key, data).1 == Canceled
    requires b.storeSet(b.cacheSet(w, key, data).0, key, data).1 == OK
    ensures Write(b, w, key, data).1 == Returns(WriteResult(false, Nil))
  {
  }

  /**
   * A write never returns an error that is not Canceled, and a nil error
   * does not mean both writes succeeded.
   */
  lemma WriteErrorIsCanceledOrNil<S>(b: Backend<S>, w: S, key: string, data: Bytes)
    ensures var r := Write(b, w, key, data).1;
            r.Returns? ==> r.value.err == Nil || r.value.err == Status(Canceled)
  {
  }
}
