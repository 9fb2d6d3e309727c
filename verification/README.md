# Welp cache engines and cache-aside services, in Dafny

This project models the caching core of the Welp restaurant services:

- The four in-memory cache engines of `applications/cache_apps.go`: FIFO,
  Random, LRU and LFU.
  - Each engine is an immutable state record: the `data` mapping, the
    ordering list where the policy keeps one, and the `capacity`.
  - Each operation (`Get`, `Set`, `Delete`, `Clear`) returns the new state
    and the result.
  - FIFO and LRU share one state shape and the same `Set`/`Delete`/`Clear`
    code, so module `OrderedCache` holds these, and `Fifo`/`Lru` add only
    what differs.
  - `Cache` puts the four engines behind the `Cache` interface.
- The cache service of `services/mycache.go` (module `MyCache`). It always
  runs the LRU engine and turns its results into gRPC status codes.
- The gRPC status conventions and the two write helpers of
  `services/utils.go` (module `Rpc`), plus `GetQueryUUID` (module `QueryId`).
- The cache-aside protocol every service repeats (module `CacheAside`):
  - `Read`: try the cache, fall back to the store, repopulate the cache.
  - `Write`: write to the cache, then to the store.
  - The cache and store clients are a `Backend`, a record of functions over
    an abstract world. The proofs therefore hold for any behaviour of the
    two servers.
  - Every operation also returns the calls it made, in order.
- The three services built on the protocol:
  - `Detail`: `services/detail.go`.
  - `Reservation`: `services_lab3/reservation.go`. This includes the
    popularity table and `MostPopular`; the stable sort is in `Ranking`.
  - `Review`: `services_lab3/review.go`, with the review lookup table and
    `SearchReviews`.
- End-to-end facts (module `LocalWorld`) for the protocol wired to the real
  cache service and to a map standing in for the database.
- Concrete traces (module `Scenarios`):
  - the eviction tests of `services_test/lab3/lru_cache_test.go` and
    `services_test/lab3/lfu_cache_test.go`, replayed step by step;
  - a FIFO trace that ends holding more entries than its capacity.

`log.Fatal` and unrecovered panics end the process. They are modelled by
`Rpc.Proc.Fatal` when they are reachable from a request. Where an engine
would dereference a missing list element, the model instead carries a
precondition. Every reachable engine built with a capacity of 0 or more
meets it (`Lfu.Covered`); an engine built with a negative capacity panics
on its first `Set` (see "## Left out").

## Behaviour worth knowing

- **Capacity.** The engines evict whenever `len(data) >= capacity`, even
  when `Set` overwrites a key that is already present.
  - They also always push a second list entry for an overwritten key.
  - Therefore `Len` can exceed the capacity:
    `Scenarios.FifoOverflowsCapacity` shows four entries at capacity 3.
  - `OrderedCache.PutPresentDuplicates` shows where the duplicate comes from.
  - The key sets of mapping and list coincide (`Exact`) only as long as
    `Set` is given absent keys.
  - What always holds is the weaker `Covered` invariant: every stored key is
    in the list.
- **LRU at capacity 0.** LRU `Set` at capacity 0 returns `ErrItemNotFound`;
  the other engines return nil.
  - `MyCache` runs LRU, so with capacity 0 every `SetItem` answers Unknown.
  - `cacheSetHelper` treats Unknown as fatal, so every write ends the
    process (`LocalWorld.ZeroCapacityWriteIsFatal`). So does every read that
    the store answers with a record that decodes, because the read then
    repopulates the cache (`LocalWorld.ZeroCapacityReadThroughIsFatal`).
  - A read the store answers with NotFound still returns NotFound at any
    capacity, without touching the cache (`LocalWorld.AbsentKeyIsNotFound`).
- **Undecodable data.** A cached or stored value that does not decode ends
  the process (`log.Fatal`). It is not reported as an error.
- **Failed cache repopulation.** The code swallows a failed repopulation
  only when the code is Canceled: the helper's result lands in a shadowing
  `err`, and the response carries a nil error. Every other failing code
  ends the process inside `cacheSetHelper`.
- **Store cancellation.** A store read that answers Canceled is reported as
  NotFound, like any other non-OK store code.

## Model

| member | source | states |
|---|---|---|
| CacheItem.Lookup | applications/cache_apps.go:65-69 | the map probe of every `Get`: the stored item exactly when the key is present, otherwise `ErrItemNotFound` |
| Seqs.RemoveAt | applications/cache_apps.go:408 | `list.Remove` of an element at a known position: one shorter, the elements before it kept, those after it shifted down by one |
| Seqs.Find | applications/cache_apps.go:220-230 | `GetListElement`: the first position holding the key, or None exactly when the key is absent |
| Seqs.RemoveFirst | applications/cache_apps.go:110-115 | the Delete loop unlinks the first occurrence only: the result is the list before the first occurrence followed by the list after it, so the rest keep their order; one copy fewer in the multiset; the list unchanged when the key is absent |
| Seqs.MoveToBack | applications/cache_apps.go:268-272 | `MoveToBack`: same length, the element last, the others in their old relative order |
| Seqs.MoveToBackMultiset | applications/cache_apps.go:268-272 | relocating an element is a permutation of the list |
| OrderedCache.Len | applications/cache_apps.go:53-58 | FIFO and LRU `Len` counts mapping entries, zero exactly when the mapping is empty (the list may hold more) |
| OrderedCache.New | applications/cache_apps.go:44-51 | a new FIFO/LRU engine is empty, its list is empty, and it satisfies every invariant |
| OrderedCache.EvictFront | applications/cache_apps.go:83-90 | eviction removes the list front and that key's entry; with an empty list nothing changes |
| OrderedCache.Put | applications/cache_apps.go:82-95 | the stored item is retrievable under its key and last in the list; below capacity nothing is evicted; no other entry changes value |
| OrderedCache.Delete | applications/cache_apps.go:99-117 | a present key is removed from the mapping (`Len` drops by one) and its first list entry is unlinked with the other entries kept in order; an absent key gives `ErrItemNotFound` and no change |
| OrderedCache.Clear | applications/cache_apps.go:120-126 | the engine becomes empty with its capacity kept |
| OrderedCache.EvictFrontKeepsExact | applications/cache_apps.go:83-90 | on an exact engine, eviction keeps mapping and list in step and removes one entry |
| OrderedCache.PutAbsentKeepsExact | applications/cache_apps.go:82-95 | storing an absent key keeps mapping and list in step and the size within capacity |
| OrderedCache.PutKeepsCovered | applications/cache_apps.go:82-95 | every store, overwrites included, keeps every stored key in the list |
| OrderedCache.PutPresentDuplicates | applications/cache_apps.go:82-95 | overwriting a present key leaves it twice in the list, so mapping and list fall out of step |
| OrderedCache.DeleteKeepsInvariants | applications/cache_apps.go:99-117 | Delete preserves the exact, covered and bounded invariants |
| Fifo.Get | applications/cache_apps.go:61-69 | the stored item or `ErrItemNotFound`, with the state untouched |
| Fifo.Set | applications/cache_apps.go:73-96 | never fails; a no-op at capacity 0; below capacity the item is added and queued last with nothing evicted; at or over capacity the list front is dequeued and its entry deleted first (even when the key being set is present) |
| Fifo.SetAbsentKeepsExact | applications/cache_apps.go:73-96 | FIFO `Set` of an absent key keeps the exact and bounded invariants |
| Fifo.SetKeepsCovered | applications/cache_apps.go:73-96 | every FIFO `Set` keeps the covered invariant |
| RandomCache.Len | applications/cache_apps.go:145-150 | Random `Len` is zero exactly when nothing is stored |
| RandomCache.New | applications/cache_apps.go:136-143 | a new random engine is empty and bounded |
| RandomCache.Get | applications/cache_apps.go:153-161 | the stored item or `ErrItemNotFound`, with the state untouched |
| RandomCache.EvictRandomKey | applications/cache_apps.go:203-217 | the victim is a present key, and exactly that entry is removed |
| RandomCache.Set | applications/cache_apps.go:165-180 | never fails; a no-op at capacity 0; when full exactly one present key is evicted first; boundedness is preserved |
| RandomCache.Delete | applications/cache_apps.go:183-192 | a present key is removed; an absent key gives `ErrItemNotFound` and no change |
| RandomCache.Clear | applications/cache_apps.go:195-200 | the engine becomes empty with its capacity kept |
| Lru.Get | applications/cache_apps.go:260-274 | a hit returns the item and moves its key to the back of the list (a permutation); a miss changes nothing |
| Lru.Set | applications/cache_apps.go:278-301 | fails exactly at capacity 0, changing nothing; below capacity the item is added and its key is last with nothing evicted; at or over capacity the list front (the least recently used key) is evicted first |
| Lru.GetKeepsInvariants | applications/cache_apps.go:260-274 | LRU `Get` preserves the exact, covered and bounded invariants |
| Lru.SetAbsentKeepsExact | applications/cache_apps.go:278-301 | LRU `Set` of an absent key keeps the exact and bounded invariants |
| Lru.SetKeepsCovered | applications/cache_apps.go:278-301 | every LRU `Set` keeps the covered invariant |
| Lfu.Len | applications/cache_apps.go:387-392 | LFU `Len` counts mapping entries, zero exactly when the mapping is empty |
| Lfu.New | applications/cache_apps.go:378-385 | a new LFU engine is empty and satisfies every invariant |
| Lfu.FindPair | applications/cache_apps.go:339-349 | `GetLFUListElement`: the first pair with the key, or None exactly when no pair has it |
| Lfu.LeastUsed | applications/cache_apps.go:352-365 | `GetLeastUsedElement`: a pair of minimal count, the first such from the front |
| Lfu.Get | applications/cache_apps.go:395-412 | a hit returns the item, and the key's pair goes to the back with its count one higher; a miss changes nothing |
| Lfu.Set | applications/cache_apps.go:416-437 | never fails; a no-op at capacity 0; when full the first least-used pair's key is evicted; the new pair starts at count 0 |
| Lfu.Delete | applications/cache_apps.go:440-458 | a present key is removed from mapping and list; an absent key gives `ErrItemNotFound` and no change |
| Lfu.Clear | applications/cache_apps.go:461-467 | the engine becomes empty with its capacity kept |
| Lfu.CoveredMeetsPreconditions | applications/cache_apps.go:416-437 | on every reachable engine the list lookup of `Get` finds an element, and with a capacity of 0 or more the eviction of `Set` finds a non-empty list (no nil dereference) |
| Lfu.GetKeepsInvariants | applications/cache_apps.go:395-412 | LFU `Get` preserves the exact, covered and bounded invariants |
| Lfu.SetAbsentKeepsExact | applications/cache_apps.go:416-437 | LFU `Set` of an absent key keeps the exact and bounded invariants and grows by one below capacity |
| Lfu.SetKeepsCovered | applications/cache_apps.go:416-437 | every LFU `Set` keeps the covered invariant |
| Lfu.DeleteKeepsInvariants | applications/cache_apps.go:440-458 | LFU `Delete` preserves the exact, covered and bounded invariants |
| Cache.Len | applications/cache_apps.go:18-19 | the interface `Len` is zero exactly on an empty cache and is each engine's own `Len` |
| Cache.New | applications/cache_apps.go:17-33 | an engine of the chosen policy and capacity, empty and satisfying every invariant |
| Cache.Get | applications/cache_apps.go:20-21 | every policy returns the stored item or `ErrItemNotFound`; only LRU and LFU touch their list; invariants are kept |
| Cache.Set | applications/cache_apps.go:23-25 | fails only for LRU at capacity 0; capacity 0 changes nothing; below capacity the item is added and every other entry kept; at or over capacity exactly the item is added after at most one entry is evicted, the engine's policy choosing which (FIFO, LRU and LFU as their own `Set`); FIFO and LRU accept a negative capacity; covered is kept by every policy |
| Cache.Delete | applications/cache_apps.go:27-28 | a present key is removed, an absent one gives `ErrItemNotFound`; invariants are kept |
| Cache.Clear | applications/cache_apps.go:30-31 | every policy empties the engine and keeps its capacity |
| Scenarios.FifoOverflowsCapacity | applications/cache_apps.go:82-95 | setting a, a, b, c, d, e in a FIFO engine of capacity 3 ends with four entries |
| Scenarios.LruEvictionTest | services_test/lab3/lru_cache_test.go:11-59 | the LRU test's calls: key1 and then key2 are evicted, and every other step answers as the test expects |
| Scenarios.LfuEvictionTest | services_test/lab3/lfu_cache_test.go:11-72 | the LFU test's calls: key3 is evicted when key4 is set, key4 when key3 is set again, and key2 when key5 is set; every other step answers as the test expects |
| Rpc.StatusError | services/utils.go:77-80 | `status.Error` gives nil exactly for code OK, and otherwise carries the code |
| Rpc.CodeOf | services/detail.go:74-75 | `status.FromError` reads OK exactly from nil, and otherwise the carried code |
| Rpc.StatusRoundTrip | services/utils.go:71-85 | building an error from a code and reading the code back are inverse |
| Rpc.SetHelper | services/utils.go:71-85 | the write helpers return for OK (nil) and Canceled (a Canceled error) and end the process on any other code |
| QueryId.SameConcatenationSameId | services/utils.go:59-68 | the identifier depends on the two names only through their concatenation |
| QueryId.SplitPairsCollide | services/utils.go:59-68 | ("ab", "c") and ("a", "bc") get the same identifier |
| MyCache.NewMyCache | services/mycache.go:29-35 | the service starts with an empty LRU engine of the configured capacity |
| MyCache.GetItem | services/mycache.go:58-66 | OK with the stored item exactly when the key is present, NotFound and no change otherwise |
| MyCache.SetItem | services/mycache.go:69-78 | success and OK exactly when the capacity is not 0; otherwise Unknown and no change; on success the item is stored and no other entry is created or altered |
| MyCache.DeleteItem | services/mycache.go:81-90 | OK exactly when the key was present, which is then gone; NotFound and no change otherwise |
| MyCache.ZeroCapacityRejectsEverySet | services/mycache.go:69-78 | at capacity 0 every one of any number of `SetItem` calls answers Unknown and the cache stays empty |
| CacheAside.Read | services/detail.go:65-121 | a cache hit decodes without contacting the store; a miss reads the store and repopulates the cache with the record; the errors are NotFound or Canceled only; decode failures and unexpected codes end the process; the world returned is the one the cache read left on a hit (or any non-NotFound code), the one the store read left when the store misses or the record does not decode, and the one the repopulating cache set left otherwise |
| CacheAside.Write | services/detail.go:158-171 | cache first, then store; `Status` true iff both succeed; the error is the store helper's; a fatal cache code stops before the store; the world returned is the one the cache set left when it was fatal, otherwise the one the store set left |
| CacheAside.CanceledCacheSetHidesInError | services/detail.go:158-171 | a Canceled cache write followed by a successful store write reports `Status` false with a nil error |
| CacheAside.WriteErrorIsCanceledOrNil | services/utils.go:71-102 | a write that returns carries either nil or a Canceled error |
| Detail.GetDetail | services/detail.go:65-121 | the read is keyed by the restaurant name in cache and store |
| Detail.PostDetail | services/detail.go:124-172 | the request's fields are written, encoded, under the restaurant name to cache then store |
| Ranking.Count | services_lab3/reservation.go:144 | Go's map index on the popularity table: the stored count, or zero for a restaurant missing from the table |
| Ranking.Insert | services_lab3/reservation.go:192-194 | insertion adds exactly the one key (multiset) |
| Ranking.SortDesc | services_lab3/reservation.go:192-194 | the sort is a permutation of its input |
| Ranking.InsertRanked | services_lab3/reservation.go:192-194 | inserting into a list in non-increasing count order keeps that order |
| Ranking.SortDescRanked | services_lab3/reservation.go:192-194 | the sorted list is in non-increasing count order |
| Ranking.InsertDistinct | services_lab3/reservation.go:192-194 | inserting an absent key keeps the list free of duplicates |
| Ranking.SortDescDistinct | services_lab3/reservation.go:192-194 | sorting keeps a list free of duplicates |
| Reservation.GetReservation | services_lab3/reservation.go:64-124 | the read is keyed by the query identifier of (restaurant, user) |
| Reservation.Bump | services_lab3/reservation.go:144 | the restaurant's count (0 when absent) grows by one and no other count changes |
| Reservation.MakeReservation | services_lab3/reservation.go:127-178 | the count is bumped whatever the writes return; the encoded reservation is written under the query identifier |
| Reservation.BumpAllCounts | services_lab3/reservation.go:144 | after any sequence of reservations each count grew by the number made at that restaurant |
| Reservation.CollectKeys | services_lab3/reservation.go:186-190 | the collected keys are exactly the table's keys, each once |
| Reservation.PrefixKeepsTheMostPopular | services_lab3/reservation.go:196-199 | a prefix of the ranked keys omits only restaurants counted no higher than any it keeps |
| Reservation.TopOfRanking | services_lab3/reservation.go:196-199 | the first topK keys of a ranking of the whole table: that many distinct restaurants, ranked, none left out that outranks one kept, and all of them when topK covers the table |
| Reservation.MostPopular | services_lab3/reservation.go:180-205 | min(topK, table size) distinct restaurants in non-increasing count order, none omitted that outranks one kept; negative topK ends the process |
| Review.UpdateLookupTable | services_lab3/review.go:41-49 | the identifier is added to the restaurant's set (created when absent), other restaurants untouched |
| Review.UpdateLookupTableIdempotent | services_lab3/review.go:41-49 | recording the same review twice equals recording it once |
| Review.UpdateLookupTableCommutes | services_lab3/review.go:41-49 | the table does not depend on the order reviews were posted in |
| Review.GetFromLookupTable | services_lab3/review.go:51-62 | nil for an unknown restaurant; otherwise exactly its identifiers, each once |
| Review.GetReview | services_lab3/review.go:139-149 | the read is keyed by the query identifier of (restaurant, user) |
| Review.Steps | services_lab3/review.go:163-167 | the reads of the loop: one per identifier in turn, each in the world the previous one left, stopping right after the first read that does not return a review |
| Review.FileByUser | services_lab3/review.go:168 | every filed review sits under its own author's name, and the last review is always filed |
| Review.FileByUserLatest | services_lab3/review.go:168 | filing reviews by user name keeps exactly the users that wrote one, each with that user's last review |
| Review.FileByUserCons | services_lab3/review.go:163-169 | filing a review and then the rest equals filing the rest over that review, the later review winning |
| Review.SearchFrom | services_lab3/review.go:163-170 | the loop: no identifiers give an empty map and no calls; the first call reads the first identifier; errors are NotFound or Canceled; on success every identifier was read and each review is filed under its own user name |
| Review.SearchFromFollowsSteps | services_lab3/review.go:163-170 | every search is its reads (`SearchIsItsReads`): the calls are exactly the reads' calls, so none follows the first read that fails; that read's error or process end is the search's; on success every identifier was read and the map is the reviews read, filed by user name with later ones winning |
| Review.SearchReviews | services_lab3/review.go:151-171 | the search reads the restaurant's recorded identifiers, each once, in some order; an unknown restaurant gives an empty map and no calls; errors are NotFound or Canceled |
| Review.PostReview | services_lab3/review.go:174-227 | the lookup table records the identifier whatever the writes return; the encoded review is written under it |
| LocalWorld.WriteThenReadHitsCache | services/detail.go:81-171 | with non-zero capacity a write succeeds and a later read is a cache hit returning the written message |
| LocalWorld.ZeroCapacityWriteIsFatal | services/utils.go:71-85 | with capacity 0 a write ends the process before the store is written |
| LocalWorld.MissPopulatesCache | services/detail.go:87-112 | a miss served by the store puts the record in the cache, and the next read is a hit |
| LocalWorld.ZeroCapacityReadThroughIsFatal | services/detail.go:104-112 | with capacity 0 a read served by the store ends the process while repopulating |
| LocalWorld.AbsentKeyIsNotFound | services/detail.go:87-95 | a key in neither cache nor store reads as NotFound with no change |
| LocalWorld.PostDetailThenGetDetail | services/detail.go:124-172 | posting details and then reading them returns the posted details |
| LocalWorld.PostReviewThenGetReview | services_lab3/review.go:139-227 | posting a review and then reading it returns the posted review, and the lookup table lists it |
| LocalWorld.PostReservationThenGetReservation | services_lab3/reservation.go:64-178 | making a reservation and then reading it returns the reservation made, and the restaurant's count rose by one |
| LocalWorld.WriteKeepsHeld | services/detail.go:124-172 | at non-zero capacity a write stores its value in cache and store and leaves every other key's value in place |
| LocalWorld.ReadOfHeldKey | services/detail.go:65-121 | at non-zero capacity a read of a stored key returns its value whether the cache still has it or not, and disturbs no other key |
| LocalWorld.SearchOfHeldKeys | services_lab3/review.go:151-171 | a search over stored keys returns their reviews filed by user name |
| LocalWorld.FiledAs | services_lab3/review.go:168 | a user whose every review is the same one is filed as that review |
| LocalWorld.FileTwoUsers | services_lab3/review.go:168 | reviews by two different users are filed as exactly those two |
| LocalWorld.TwoPostsHold | services_lab3/review.go:174-227 | two posts under different identifiers leave both reviews stored and both identifiers in the lookup table |
| LocalWorld.SearchTwoHeld | services_lab3/review.go:151-171 | a search over two stored reviews by different users finds both, in either order |
| LocalWorld.PostTwoReviewsThenSearch | services_lab3/review.go:151-227 | after two users review a new restaurant, a search in whichever order the lookup table gives returns both reviews |

## Left out

- Locking (`sync.Mutex`) and concurrency: each operation is one atomic step over an immutable state. The concurrency tests are not modelled.
- gRPC servers, dialling, the client interceptor, `Run`, `main` and the frontend: these are plumbing with no cache logic.
- The database service: a `Backend` leaves the store abstract, and `LocalWorld` uses a map that always answers.
- Protobuf encoding: each message type gets a `Codec` parameter. `RoundTrips` is assumed where a lemma needs decode-after-encode. Marshal failures (`log.Fatal` after `proto.Marshal`) cannot occur for these messages and are not modelled.
- The message field types (`capacity`, `rating`, `time`): the protobuf definitions are not part of this model. They are taken as `int` or `string` and only ever pass through the codec.
- The name-based SHA-1 UUID is the parameter `sha` of `QueryId.GetQueryUuid`. Its never-taken error result is dropped, as every caller drops it.
- Log messages and the text of status errors: only codes are modelled.
- A nil item on a cache reply: a cache reply carries a value, which is empty when there is no item.
- Integer width: counts, capacities and `topK` are unbounded integers, so overflow of `int`/`int32` is not modelled.
- `RandomCache.EvictRandomKey`: the uniform distribution of `rand.Intn` is not modelled; the index is a parameter.
- Map iteration order: this is an arbitrary choice (`:|`) in `MostPopular`, `getFromLookupTable` and `evictRandomKey`.
- Stability: the model sorts stably. No lemma states stability, because the input order is the arbitrary map iteration order.
- Lfu.Get, Lfu.Set: the list lookups that would dereference nil are preconditions, not crashes. `Lfu.CoveredMeetsPreconditions` shows every reachable engine meets them when its capacity is 0 or more.
- Lfu.CoveredMeetsPreconditions: covers `Set` only for a capacity of 0 or more. `NewLFUCacheApp` accepts a negative capacity, and the first `Set` on such an engine sees `0 >= capacity` and dereferences the front of an empty list (nil). The model does not represent that panic; no caller builds such an engine.
- Lfu.Set: on an engine with a negative capacity its precondition fails from the first call, which stands for the nil dereference above.
- RandomCache.Set: on an engine with a negative capacity, the first `Set` evicts from an empty map and `rand.Intn(0)` panics. Its precondition excludes that call instead of modelling the panic.
- Cache.Set: requires a capacity of 0 or more only for the Random and LFU engines, whose negative-capacity `Set` panics as the two lines above describe; FIFO and LRU engines of any capacity are accepted.
- RandomCache.EvictRandomKey: `rand.Intn` on an empty map panics. This is a precondition; `Set` reaches it only with a non-empty map when the capacity is 0 or more.
- `services_lab3/frontend.go`, `cmd/main.go`, `lab4/`, the scripts and the lab1 tests are outside the caching core.
