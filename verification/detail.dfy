/**
 * The detail service of services/detail.go: a restaurant's details are
 * cached and stored under the restaurant's name.
 */
module Detail {
  import opened Wrappers
  import opened Rpc
  import opened CacheAside

  /** `GetDetailResponse`: the message that is cached and stored. */
  datatype DetailMsg = DetailMsg(restaurantName: string, location: string, style: string, capacity: int)

  /** `GetDetail`: the cache-aside read under the restaurant's name. */
  function GetDetail<S>(b: Backend<S>, codec: Codec<DetailMsg>, w: S, restaurantName: string)
    : (r: (S, Proc<ReadResult<DetailMsg>>, seq<Call>))
    ensures 1 <= |r.2| && r.2[0] == CacheGet(restaurantName)
    ensures forall i | 0 <= i < |r.2| && r.2[i].StoreGet? :: r.2[i].key == restaurantName
    ensures r.1.Returns? && r.1.value.Failure? ==> r.1.value.error in {NotFound, Canceled}
    ensures b.cacheGet(w, restaurantName).1.code == OK ==> r.2 == [CacheGet(restaurantName)]
  {
    Read(b, codec, w, restaurantName)
  }

  /**
   * `PostDetail`: the request's fields are encoded as a `GetDetailResponse`
   * and written to the cache and then to the store under the restaurant's
   * name. `Status` is true only when both writes succeeded.
   */
  function PostDetail<S>(b: Backend<S>, codec: Codec<DetailMsg>, w: S,
                         restaurantName: string, location: string, style: string, capacity: int)
    : (r: (S, Proc<WriteResult>, seq<Call>))
    ensures var data := codec.marshal(DetailMsg(restaurantName, location, style, capacity));
            && 1 <= |r.2| <= 2
            && r.2[0] == CacheSet(restaurantName, data)
            && (|r.2| == 2 ==> r.2[1] == StoreSet(restaurantName, data))
            && (r.1.Returns? ==>
                  (r.1.value.status <==>
                     b.cacheSet(w, restaurantName, data).1 == OK
                     && b.storeSet(b.cacheSet(w, restaurantName, data).0, restaurantName, data).1 == OK))
    ensures RoundTrips(codec) ==>
              forall i | 0 <= i < |r.2| ::
                codec.unmarshal(r.2[i].value) == Some(DetailMsg(restaurantName, location, style, capacity))
  {
    Write(b, w, restaurantName, codec.marshal(DetailMsg(restaurantName, location, style, capacity)))
  }
}
