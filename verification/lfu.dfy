/**
 * `LFUCacheApp`: the list holds (key, access count) pairs. A read replaces
 * the key's pair by one with count + 1 at the back; eviction scans for the
 * first pair of minimal count.
 */
module Lfu {
  import opened Wrappers
  import opened CacheItem
  import Seqs

  /** `LFUPair`: a key and the number of successful reads since it was set. */
  datatype LfuPair = LfuPair(key: string, count: nat)

  datatype State = State(data: Data, order: seq<LfuPair>, capacity: int)

  /** The keys of the list, front to back. */
  function Keys(order: seq<LfuPair>): (ks: seq<string>)
    ensures |ks| == |order|
    ensures forall i | 0 <= i < |order| :: ks[i] == order[i].key
  {
    seq(|order|, i requires 0 <= i < |order| => order[i].key)
  }

  function New(capacity: int): (c: State)
    ensures Len(c) == 0 && c.order == [] && c.capacity == capacity
    ensures Exact(c) && Keyed(c.data)
    ensures capacity >= 0 ==> Bounded(c)
  {
    State(map[], [], capacity)
  }

  function Len(c: State): (r: nat)
    ensures r == 0 <==> c.data == map[]
  {
    |c.data|
  }

  /** Keys of the list are exactly the keys of the mapping, each listed once. */
  ghost predicate Exact(c: State)
  {
    multiset(Keys(c.order)) == multiset(c.data.Keys)
  }

  /** Every key of the mapping has a pair in the list. */
  ghost predicate Covered(c: State)
  {
    forall k | k in c.data :: k in Keys(c.order)
  }

  ghost predicate Bounded(c: State)
  {
    Len(c) <= c.capacity
  }

  /** `GetLFUListElement`: the position of the first pair holding `key`, or None. */
  function FindPair(order: seq<LfuPair>, key: string): (r: Option<nat>)
    ensures r.None? <==> forall i | 0 <= i < |order| :: order[i].key != key
    ensures r.Some? ==> r.value < |order| && order[r.value].key == key
    ensures r.Some? ==> forall j | 0 <= j < r.value :: order[j].key != key
  {
    var r := Seqs.Find(Keys(order), key);
    assert r.None? ==> forall i | 0 <= i < |order| :: Keys(order)[i] != key;
    r
  }

  /** Position `i` holds a minimal count and no earlier pair holds that count. */
  ghost predicate IsFirstLeastUsed(order: seq<LfuPair>, i: nat)
  {
    && i < |order|
    && (forall j | 0 <= j < |order| :: order[i].count <= order[j].count)
    && (forall j | 0 <= j < i :: order[i].count < order[j].count)
  }

  /**
   * `GetLeastUsedElement`: the scan from the front that replaces its
   * candidate only on a strictly smaller count, so ties go to the front.
   */
  function LeastUsed(order: seq<LfuPair>): (i: nat)
    requires |order| > 0
    ensures IsFirstLeastUsed(order, i)
  {
    if |order| == 1 then 0
    else
      var j := LeastUsed(order[..|order| - 1]);
      if order[|order| - 1].count < order[j].count then |order| - 1 else j
  }

  /**
   * `Get`: a hit unlinks the first pair of the key and pushes a pair with
   * count + 1 to the back. `LFUCacheApp.Get` reads that pair before its nil check,
   * so a stored key without a pair would crash it: hence the precondition.
   */
  function Get(c: State, key: string): (r: (State, Result<Item, CacheError>))
    requires key in c.data ==> key in Keys(c.order)
    ensures r.1.Success? <==> key in c.data
    ensures r.1.Success? ==> r.1.value == c.data[key]
    ensures r.1.Failure? ==> r.1.error == ErrItemNotFound
    ensures r.0.data == c.data && r.0.capacity == c.capacity
    ensures key !in c.data ==> r.0 == c
    ensures key in c.data ==>
              var i := FindPair(c.order, key).value;
              r.0.order == Seqs.RemoveAt(c.order, i) + [LfuPair(key, c.order[i].count + 1)]
  {
    if key !in c.data then (c, Failure(ErrItemNotFound))
    else
      var i := FindPair(c.order, key).value;
      var promoted := LfuPair(key, c.order[i].count + 1);
      (c.(order := Seqs.RemoveAt(c.order, i) + [promoted]), Success(c.data[key]))
  }

  /**
   * `Set`: never fails; a no-op at capacity 0; when the mapping is full the
   * first least-used pair is unlinked and its key deleted (whether or not it
   * is the key being set); the new pair starts at count 0. `LFUCacheApp.Set` reads
   * the front of the list unconditionally when full: hence the precondition.
   */
  function Set(c: State, item: Item): (r: (State, Outcome<CacheError>))
    requires c.capacity != 0 && Len(c) >= c.capacity ==> |c.order| > 0
    ensures r.1 == Pass
    ensures c.capacity == 0 ==> r.0 == c
    ensures c.capacity != 0 ==> item.key in r.0.data && r.0.data[item.key] == item
    ensures c.capacity != 0 ==> |r.0.order| > 0 && r.0.order[|r.0.order| - 1] == LfuPair(item.key, 0)
    ensures c.capacity != 0 && Len(c) < c.capacity ==>
              r.0.data == c.data[item.key := item] && r.0.order == c.order + [LfuPair(item.key, 0)]
    ensures c.capacity != 0 && Len(c) >= c.capacity ==>
              var v := LeastUsed(c.order);
              r.0.data == (c.data - {c.order[v].key})[item.key := item] &&
              r.0.order == Seqs.RemoveAt(c.order, v) + [LfuPair(item.key, 0)]
    ensures forall k | k in r.0.data && k != item.key :: k in c.data && r.0.data[k] == c.data[k]
  {
    if c.capacity == 0 then (c, Pass)
    else
      var c1 :=
        if Len(c) >= c.capacity then
          var v := LeastUsed(c.order);
          c.(data := c.data - {c.order[v].key}, order := Seqs.RemoveAt(c.order, v))
        else c;
      (c1.(data := c1.data[item.key := item], order := c1.order + [LfuPair(item.key, 0)]), Pass)
  }

  /** `Delete`: a miss changes nothing; a hit removes the key and its first pair. */
  function Delete(c: State, key: string): (r: (State, Outcome<CacheError>))
    ensures key !in c.data ==> r == (c, Fail(ErrItemNotFound))
    ensures key in c.data ==> r.1 == Pass && r.0.data == c.data - {key} && Len(r.0) == Len(c) - 1
    ensures key in c.data && key in Keys(c.order) ==>
              r.0.order == Seqs.RemoveAt(c.order, FindPair(c.order, key).value)
    ensures key in c.data && key !in Keys(c.order) ==> r.0.order == c.order
    ensures r.0.capacity == c.capacity
  {
    if key !in c.data then (c, Fail(ErrItemNotFound))
    else
      var order' :=
        match FindPair(c.order, key)
        case None => c.order
        case Some(i) => Seqs.RemoveAt(c.order, i);
      KeysRemove(c.data, key);
      (c.(data := c.data - {key}, order := order'), Pass)
  }

  /** `Clear`: a fresh mapping and an emptied list; the capacity stays. */
  function Clear(c: State): (r: State)
    ensures Len(r) == 0 && r.order == [] && r.capacity == c.capacity
    ensures Exact(r) && Keyed(r.data)
    ensures c.capacity >= 0 ==> Bounded(r)
  {
    New(c.capacity)
  }

  // ---------------------------------------------------------------------
  // Invariants
  // ---------------------------------------------------------------------

  lemma KeysRemoveAt(order: seq<LfuPair>, i: nat)
    requires i < |order|
    ensures Keys(Seqs.RemoveAt(order, i)) == Seqs.RemoveAt(Keys(order), i)
    ensures multiset(Keys(Seqs.RemoveAt(order, i))) == multiset(Keys(order)) - multiset{order[i].key}
  {
    assert Keys(Seqs.RemoveAt(order, i)) == Seqs.RemoveAt(Keys(order), i);
    Seqs.RemoveAtMultiset(Keys(order), i);
  }

  lemma KeysAppend(order: seq<LfuPair>, p: LfuPair)
    ensures Keys(order + [p]) == Keys(order) + [p.key]
  {
  }

  lemma ExactIsCovered(c: State)
    requires Exact(c)
    ensures Covered(c)
    ensures Len(c) == |c.order|
  {
    forall k | k in c.data
      ensures k in Keys(c.order)
    {
      assert k in multiset(c.data.Keys);
    }
    assert |multiset(Keys(c.order))| == |multiset(c.data.Keys)|;
  }

  /** In a covered engine neither `Get` nor (with capacity >= 0) `Set` can reach the nil dereference of `LFUCacheApp`. */
  lemma CoveredMeetsPreconditions(c: State, key: string)
    requires Covered(c)
    ensures key in c.data ==> key in Keys(c.order)
    ensures c.capacity >= 0 && c.capacity != 0 && Len(c) >= c.capacity ==> |c.order| > 0
  {
    if c.capacity > 0 && Len(c) >= c.capacity {
      var k :| k in c.data;
      assert k in Keys(c.order);
    }
  }

  lemma GetKeepsInvariants(c: State, key: string)
    requires key in c.data ==> key in Keys(c.order)
    ensures Exact(c) ==> Exact(Get(c, key).0)
    ensures Covered(c) ==> Covered(Get(c, key).0)
    ensures Bounded(c) ==> Bounded(Get(c, key).0)
  {
    if key in c.data {
      var i := FindPair(c.order, key).value;
      var r := Get(c, key).0;
      KeysRemoveAt(c.order, i);
      KeysAppend(Seqs.RemoveAt(c.order, i), LfuPair(key, c.order[i].count + 1));
      assert multiset(Keys(r.order)) == multiset(Keys(c.order));
      if Covered(c) {
        forall k | k in r.data
          ensures k in Keys(r.order)
        {
          assert k in multiset(Keys(c.order));
        }
      }
    }
  }

  /** `Set` of an absent key keeps the list exact and the capacity bound. */
  lemma SetAbsentKeepsExact(c: State, item: Item)
    requires Exact(c) && Bounded(c) && item.key !in c.data
    ensures c.capacity != 0 && Len(c) >= c.capacity ==> |c.order| > 0
    ensures Exact(Set(c, item).0) && Bounded(Set(c, item).0)
    ensures c.capacity != 0 ==> Len(Set(c, item).0) == if Len(c) < c.capacity then Len(c) + 1 else Len(c)
  {
    ExactIsCovered(c);
    if c.capacity != 0 {
      var c1 := c;
      if Len(c) >= c.capacity {
        var v := LeastUsed(c.order);
        var victim := c.order[v].key;
        KeysRemoveAt(c.order, v);
        assert victim in multiset(Keys(c.order));
        KeysRemove(c.data, victim);
        c1 := c.(data := c.data - {victim}, order := Seqs.RemoveAt(c.order, v));
      }
      assert multiset(Keys(c1.order)) == multiset(c1.data.Keys);
      assert item.key !in c1.data;
      KeysAdd(c1.data, item);
      KeysAppend(c1.order, LfuPair(item.key, 0));
      assert Set(c, item).0 == c1.(data := c1.data[item.key := item], order := c1.order + [LfuPair(item.key, 0)]);
    }
  }

  /** Every `Set`, overwrites included, keeps each stored key paired in the list. */
  lemma SetKeepsCovered(c: State, item: Item)
    requires Covered(c) && Keyed(c.data)
    requires c.capacity != 0 && Len(c) >= c.capacity ==> |c.order| > 0
    ensures Covered(Set(c, item).0) && Keyed(Set(c, item).0.data)
  {
    if c.capacity != 0 {
      var r := Set(c, item).0;
      forall k | k in r.data
        ensures k in Keys(r.order)
      {
        if k != item.key {
          assert k in Keys(c.order);
          if Len(c) >= c.capacity {
            var v := LeastUsed(c.order);
            KeysRemoveAt(c.order, v);
            assert k != c.order[v].key;
            assert k in multiset(Keys(c.order));
            assert k in multiset(Keys(Seqs.RemoveAt(c.order, v)));
            KeysAppend(Seqs.RemoveAt(c.order, v), LfuPair(item.key, 0));
          } else {
            KeysAppend(c.order, LfuPair(item.key, 0));
          }
        } else {
          assert r.order[|r.order| - 1].key == k;
        }
      }
    }
  }

  lemma DeleteKeepsInvariants(c: State, key: string)
    ensures Exact(c) ==> Exact(Delete(c, key).0)
    ensures Covered(c) ==> Covered(Delete(c, key).0)
    ensures Bounded(c) ==> Bounded(Delete(c, key).0)
    ensures Keyed(c.data) ==> Keyed(Delete(c, key).0.data)
  {
    var r := Delete(c, key).0;
    if key in c.data {
      KeysRemove(c.data, key);
      if Exact(c) {
        ExactIsCovered(c);
      }
      if key in Keys(c.order) {
        KeysRemoveAt(c.order, FindPair(c.order, key).value);
      }
      if Covered(c) {
        forall k | k in r.data
          ensures k in Keys(r.order)
        {
          assert k in multiset(Keys(c.order));
        }
      }
    }
  }
}
