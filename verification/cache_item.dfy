/** The unit of cached data and the one error the cache engines report. */
module CacheItem {
  import opened Wrappers

  /** One byte of an opaque payload. */
  newtype Byte = x: int | 0 <= x < 256

  type Bytes = seq<Byte>

  /** `mycache.CacheItem`: an opaque key and an opaque byte payload. */
  datatype Item = Item(key: string, value: Bytes)

  /** `ErrItemNotFound`, the only error an engine returns. */
  datatype CacheError = ErrItemNotFound

  /** The key-to-item mapping every engine owns. */
  type Data = map<string, Item>

  /** Every stored item sits under its own key (`c.data[item.Key] = item`). */
  ghost predicate Keyed(data: Data)
  {
    forall k | k in data :: data[k].key == k
  }

  /** The map probe shared by every engine's `Get`. */
  function Lookup(data: Data, key: string): (r: Result<Item, CacheError>)
    ensures r.Success? <==> key in data
    ensures r.Success? ==> r.value == data[key]
    ensures r.Failure? ==> r.error == ErrItemNotFound
  {
    if key in data then Success(data[key]) else Failure(ErrItemNotFound)
  }

  /** Deleting a present key shrinks the mapping by exactly that key. */
  lemma KeysRemove(data: Data, k: string)
    requires k in data
    ensures multiset((data - {k}).Keys) == multiset(data.Keys) - multiset{k}
    ensures |data - {k}| == |data| - 1
  {
    assert (data - {k}).Keys == data.Keys - {k};
  }

  /** Storing an absent key grows the mapping by exactly that key. */
  lemma KeysAdd(data: Data, item: Item)
    requires item.key !in data
    ensures multiset(data[item.key := item].Keys) == multiset(data.Keys) + multiset{item.key}
    ensures |data[item.key := item]| == |data| + 1
  {
    assert data[item.key := item].Keys == data.Keys + {item.key};
  }
}
