/**
 * Concrete runs of the engines at capacity 3: the overflow of the FIFO
 * engine caused by a duplicate order entry, and the eviction tests of the
 * LRU and LFU engines, one operation per step. Every item carries an empty
 * value, which none of the engines inspects.
 */
module Scenarios {
  import opened Wrappers
  import opened CacheItem
  import OrderedCache
  import Fifo
  import Lru
  import Lfu
  import Seqs

  function Entry(key: string): Item
  {
    Item(key, [])
  }

  /** An entry for each of at most four keys. */
  function Holding(keys: seq<string>): Data
    requires |keys| <= 4
  {
    if |keys| == 0 then map[]
    else if |keys| == 1 then map[keys[0] := Entry(keys[0])]
    else if |keys| == 2 then map[keys[0] := Entry(keys[0]), keys[1] := Entry(keys[1])]
    else if |keys| == 3 then map[keys[0] := Entry(keys[0]), keys[1] := Entry(keys[1]), keys[2] := Entry(keys[2])]
    else map[keys[0] := Entry(keys[0]), keys[1] := Entry(keys[1]), keys[2] := Entry(keys[2]), keys[3] := Entry(keys[3])]
  }

  /** A FIFO or LRU engine of capacity 3 holding `keys`, with list `order`. */
  function Cap3(keys: seq<string>, order: seq<string>): OrderedCache.State
    requires |keys| <= 4
  {
    OrderedCache.State(Holding(keys), order, 3)
  }

  /** An LFU engine of capacity 3 holding `keys`, with list `order`. */
  function LfuCap3(keys: seq<string>, order: seq<Lfu.LfuPair>): Lfu.State
    requires |keys| <= 4
  {
    Lfu.State(Holding(keys), order, 3)
  }

  // ---------------------------------------------------------------------
  // Step relations: one call, the state it leaves and whether it returned nil
  // ---------------------------------------------------------------------

  predicate FifoWrote(before: OrderedCache.State, key: string, after: OrderedCache.State)
  {
    var r := Fifo.Set(before, Entry(key));
    r.0 == after && r.1 == Pass
  }

  predicate LruWrote(before: OrderedCache.State, key: string, after: OrderedCache.State)
  {
    var r := Lru.Set(before, Entry(key));
    r.0 == after && r.1 == Pass
  }

  predicate LruRead(before: OrderedCache.State, key: string, after: OrderedCache.State, hit: bool)
  {
    var r := Lru.Get(before, key);
    r.0 == after && r.1.Success? == hit
  }

  predicate LfuWrote(before: Lfu.State, key: string, after: Lfu.State)
  {
    && (before.capacity != 0 && Lfu.Len(before) >= before.capacity ==> |before.order| > 0)
    && var r := Lfu.Set(before, Entry(key));
       r.0 == after && r.1 == Pass
  }

  predicate LfuRead(before: Lfu.State, key: string, after: Lfu.State, hit: bool)
  {
    && (key in before.data ==> key in Lfu.Keys(before.order))
    && var r := Lfu.Get(before, key);
       r.0 == after && r.1.Success? == hit
  }

  /** An LRU hit on the entry at list position `i`. */
  lemma LruHitAt(c: OrderedCache.State, key: string, i: nat, after: OrderedCache.State)
    requires key in c.data && Seqs.Find(c.order, key) == Some(i)
    requires after == c.(order := Seqs.MoveToBack(c.order, i))
    ensures LruRead(c, key, after, true)
  {
  }

  /** A FIFO write to a full engine: the list front is evicted and the key appended. */
  lemma FifoEvictingWrite(c: OrderedCache.State, key: string, after: OrderedCache.State)
    requires c.capacity != 0 && OrderedCache.Len(c) >= c.capacity && |c.order| > 0
    requires after == c.(data := (c.data - {c.order[0]})[key := Entry(key)], order := c.order[1..] + [key])
    ensures FifoWrote(c, key, after)
  {
  }

  /** An LRU write to a full engine: the list front is evicted and the key appended. */
  lemma LruEvictingWrite(c: OrderedCache.State, key: string, after: OrderedCache.State)
    requires c.capacity != 0 && OrderedCache.Len(c) >= c.capacity && |c.order| > 0
    requires after == c.(data := (c.data - {c.order[0]})[key := Entry(key)], order := c.order[1..] + [key])
    ensures LruWrote(c, key, after)
  {
  }

  /** An LFU hit on the pair at list position `i`. */
  lemma LfuHitAt(c: Lfu.State, key: string, i: nat, after: Lfu.State)
    requires key in c.data && Lfu.FindPair(c.order, key) == Some(i)
    requires after == c.(order := Seqs.RemoveAt(c.order, i) + [Lfu.LfuPair(key, c.order[i].count + 1)])
    ensures LfuRead(c, key, after, true)
  {
  }

  // ---------------------------------------------------------------------
  // FIFO: Set a, a, b, c, d, e at capacity 3 ends with four entries
  // ---------------------------------------------------------------------

  /** The final state holds four entries against a capacity of three. */
  lemma FifoOverflowFinal()
    ensures OrderedCache.Len(Cap3(["b", "c", "d", "e"], ["b", "c", "d", "e"])) == 4
    ensures !OrderedCache.Bounded(Cap3(["b", "c", "d", "e"], ["b", "c", "d", "e"]))
  {
    assert Holding(["b", "c", "d", "e"]).Keys == {"b", "c", "d", "e"};
  }

  lemma FifoOverflowStep0()
    ensures FifoWrote(OrderedCache.New(3), "a", Cap3(["a"], ["a"]))
  {
  }

  lemma FifoOverflowStep1()
    ensures FifoWrote(Cap3(["a"], ["a"]), "a", Cap3(["a"], ["a", "a"]))
  {
  }

  lemma FifoOverflowStep2()
    ensures FifoWrote(Cap3(["a"], ["a", "a"]), "b", Cap3(["a", "b"], ["a", "a", "b"]))
  {
  }

  lemma FifoOverflowStep3()
    ensures FifoWrote(Cap3(["a", "b"], ["a", "a", "b"]), "c", Cap3(["a", "b", "c"], ["a", "a", "b", "c"]))
  {
  }

  lemma FifoOverflowStep4()
    ensures FifoWrote(Cap3(["a", "b", "c"], ["a", "a", "b", "c"]), "d", Cap3(["b", "c", "d"], ["a", "b", "c", "d"]))
  {
    var c := Cap3(["a", "b", "c"], ["a", "a", "b", "c"]);
    assert (c.data - {"a"})["d" := Entry("d")] == Holding(["b", "c", "d"]);
    FifoEvictingWrite(c, "d", Cap3(["b", "c", "d"], ["a", "b", "c", "d"]));
  }

  lemma FifoOverflowStep5()
    ensures FifoWrote(Cap3(["b", "c", "d"], ["a", "b", "c", "d"]), "e", Cap3(["b", "c", "d", "e"], ["b", "c", "d", "e"]))
  {
    // the front entry is stale: the eviction deletes nothing
    assert "a" !in Holding(["b", "c", "d"]);
    assert Holding(["b", "c", "d"]) - {"a"} == Holding(["b", "c", "d"]);
  }

  /**
   * The overwrite of `a` lists it twice; the eviction for `d` unlinks one
   * copy and deletes `a`; the eviction for `e` unlinks the stale copy and
   * deletes nothing, so the engine ends up holding four entries.
   */
  lemma FifoOverflowsCapacity()
    ensures FifoWrote(OrderedCache.New(3), "a", Cap3(["a"], ["a"]))
    ensures FifoWrote(Cap3(["a"], ["a"]), "a", Cap3(["a"], ["a", "a"]))
    ensures FifoWrote(Cap3(["a"], ["a", "a"]), "b", Cap3(["a", "b"], ["a", "a", "b"]))
    ensures FifoWrote(Cap3(["a", "b"], ["a", "a", "b"]), "c", Cap3(["a", "b", "c"], ["a", "a", "b", "c"]))
    ensures FifoWrote(Cap3(["a", "b", "c"], ["a", "a", "b", "c"]), "d", Cap3(["b", "c", "d"], ["a", "b", "c", "d"]))
    ensures FifoWrote(Cap3(["b", "c", "d"], ["a", "b", "c", "d"]), "e", Cap3(["b", "c", "d", "e"], ["b", "c", "d", "e"]))
    ensures OrderedCache.Len(Cap3(["b", "c", "d", "e"], ["b", "c", "d", "e"])) == 4
    ensures !OrderedCache.Bounded(Cap3(["b", "c", "d", "e"], ["b", "c", "d", "e"]))
  {
    FifoOverflowStep0();
    FifoOverflowStep1();
    FifoOverflowStep2();
    FifoOverflowStep3();
    FifoOverflowStep4();
    FifoOverflowStep5();
    FifoOverflowFinal();
  }

  // ---------------------------------------------------------------------
  // LRU: the eviction test of the LRU engine
  // ---------------------------------------------------------------------

  lemma LruTestStep0()
    ensures LruWrote(OrderedCache.New(3), "key1", Cap3(["key1"], ["key1"]))
  {
  }

  lemma LruTestStep1()
    ensures LruWrote(Cap3(["key1"], ["key1"]), "key2", Cap3(["key1", "key2"], ["key1", "key2"]))
  {
  }

  lemma LruTestStep2()
    ensures LruWrote(Cap3(["key1", "key2"], ["key1", "key2"]), "key3", Cap3(["key1", "key2", "key3"], ["key1", "key2", "key3"]))
  {
  }

  lemma LruTestStep3()
    ensures LruRead(Cap3(["key1", "key2", "key3"], ["key1", "key2", "key3"]), "key1", Cap3(["key1", "key2", "key3"], ["key2", "key3", "key1"]), true)
  {
    LruHitAt(Cap3(["key1", "key2", "key3"], ["key1", "key2", "key3"]), "key1", 0, Cap3(["key1", "key2", "key3"], ["key2", "key3", "key1"]));
  }

  lemma LruTestStep4()
    ensures LruRead(Cap3(["key1", "key2", "key3"], ["key2", "key3", "key1"]), "key2", Cap3(["key1", "key2", "key3"], ["key3", "key1", "key2"]), true)
  {
    LruHitAt(Cap3(["key1", "key2", "key3"], ["key2", "key3", "key1"]), "key2", 0, Cap3(["key1", "key2", "key3"], ["key3", "key1", "key2"]));
  }

  lemma LruTestStep5()
    ensures LruRead(Cap3(["key1", "key2", "key3"], ["key3", "key1", "key2"]), "key1", Cap3(["key1", "key2", "key3"], ["key3", "key2", "key1"]), true)
  {
    LruHitAt(Cap3(["key1", "key2", "key3"], ["key3", "key1", "key2"]), "key1", 1, Cap3(["key1", "key2", "key3"], ["key3", "key2", "key1"]));
  }

  lemma LruTestStep6()
    ensures LruRead(Cap3(["key1", "key2", "key3"], ["key3", "key2", "key1"]), "key2", Cap3(["key1", "key2", "key3"], ["key3", "key1", "key2"]), true)
  {
    LruHitAt(Cap3(["key1", "key2", "key3"], ["key3", "key2", "key1"]), "key2", 1, Cap3(["key1", "key2", "key3"], ["key3", "key1", "key2"]));
  }

  lemma LruTestStep7()
    ensures LruRead(Cap3(["key1", "key2", "key3"], ["key3", "key1", "key2"]), "key3", Cap3(["key1", "key2", "key3"], ["key1", "key2", "key3"]), true)
  {
    LruHitAt(Cap3(["key1", "key2", "key3"], ["key3", "key1", "key2"]), "key3", 0, Cap3(["key1", "key2", "key3"], ["key1", "key2", "key3"]));
  }

  lemma LruTestStep8()
    ensures LruWrote(Cap3(["key1", "key2", "key3"], ["key1", "key2", "key3"]), "key4", Cap3(["key2", "key3", "key4"], ["key2", "key3", "key4"]))
  {
    var c := Cap3(["key1", "key2", "key3"], ["key1", "key2", "key3"]);
    assert (c.data - {"key1"})["key4" := Entry("key4")] == Holding(["key2", "key3", "key4"]);
    LruEvictingWrite(c, "key4", Cap3(["key2", "key3", "key4"], ["key2", "key3", "key4"]));
  }

  lemma LruTestStep9()
    ensures LruRead(Cap3(["key2", "key3", "key4"], ["key2", "key3", "key4"]), "key1", Cap3(["key2", "key3", "key4"], ["key2", "key3", "key4"]), false)
  {
  }

  lemma LruTestStep10()
    ensures LruRead(Cap3(["key2", "key3", "key4"], ["key2", "key3", "key4"]), "key3", Cap3(["key2", "key3", "key4"], ["key2", "key4", "key3"]), true)
  {
    LruHitAt(Cap3(["key2", "key3", "key4"], ["key2", "key3", "key4"]), "key3", 1, Cap3(["key2", "key3", "key4"], ["key2", "key4", "key3"]));
  }

  lemma LruTestStep11()
    ensures LruWrote(Cap3(["key2", "key3", "key4"], ["key2", "key4", "key3"]), "key5", Cap3(["key3", "key4", "key5"], ["key4", "key3", "key5"]))
  {
    var c := Cap3(["key2", "key3", "key4"], ["key2", "key4", "key3"]);
    assert (c.data - {"key2"})["key5" := Entry("key5")] == Holding(["key3", "key4", "key5"]);
    LruEvictingWrite(c, "key5", Cap3(["key3", "key4", "key5"], ["key4", "key3", "key5"]));
  }

  lemma LruTestStep12()
    ensures LruRead(Cap3(["key3", "key4", "key5"], ["key4", "key3", "key5"]), "key4", Cap3(["key3", "key4", "key5"], ["key3", "key5", "key4"]), true)
  {
    LruHitAt(Cap3(["key3", "key4", "key5"], ["key4", "key3", "key5"]), "key4", 0, Cap3(["key3", "key4", "key5"], ["key3", "key5", "key4"]));
  }

  lemma LruTestStep13()
    ensures LruRead(Cap3(["key3", "key4", "key5"], ["key3", "key5", "key4"]), "key3", Cap3(["key3", "key4", "key5"], ["key5", "key4", "key3"]), true)
  {
    LruHitAt(Cap3(["key3", "key4", "key5"], ["key3", "key5", "key4"]), "key3", 0, Cap3(["key3", "key4", "key5"], ["key5", "key4", "key3"]));
  }

  lemma LruTestStep14()
    ensures LruRead(Cap3(["key3", "key4", "key5"], ["key5", "key4", "key3"]), "key2", Cap3(["key3", "key4", "key5"], ["key5", "key4", "key3"]), false)
  {
  }

  /**
   * Set key1..key3, read key1, key2, key1, key2, key3, set key4: key1 is
   * the least recently used key and is evicted; after a read of key3, the
   * set of key5 evicts key2.
   */
  lemma LruEvictionTest()
    ensures LruWrote(OrderedCache.New(3), "key1", Cap3(["key1"], ["key1"]))
    ensures LruWrote(Cap3(["key1"], ["key1"]), "key2", Cap3(["key1", "key2"], ["key1", "key2"]))
    ensures LruWrote(Cap3(["key1", "key2"], ["key1", "key2"]), "key3", Cap3(["key1", "key2", "key3"], ["key1", "key2", "key3"]))
    ensures LruRead(Cap3(["key1", "key2", "key3"], ["key1", "key2", "key3"]), "key1", Cap3(["key1", "key2", "key3"], ["key2", "key3", "key1"]), true)
    ensures LruRead(Cap3(["key1", "key2", "key3"], ["key2", "key3", "key1"]), "key2", Cap3(["key1", "key2", "key3"], ["key3", "key1", "key2"]), true)
    ensures LruRead(Cap3(["key1", "key2", "key3"], ["key3", "key1", "key2"]), "key1", Cap3(["key1", "key2", "key3"], ["key3", "key2", "key1"]), true)
    ensures LruRead(Cap3(["key1", "key2", "key3"], ["key3", "key2", "key1"]), "key2", Cap3(["key1", "key2", "key3"], ["key3", "key1", "key2"]), true)
    ensures LruRead(Cap3(["key1", "key2", "key3"], ["key3", "key1", "key2"]), "key3", Cap3(["key1", "key2", "key3"], ["key1", "key2", "key3"]), true)
    ensures LruWrote(Cap3(["key1", "key2", "key3"], ["key1", "key2", "key3"]), "key4", Cap3(["key2", "key3", "key4"], ["key2", "key3", "key4"]))
    ensures LruRead(Cap3(["key2", "key3", "key4"], ["key2", "key3", "key4"]), "key1", Cap3(["key2", "key3", "key4"], ["key2", "key3", "key4"]), false)
    ensures LruRead(Cap3(["key2", "key3", "key4"], ["key2", "key3", "key4"]), "key3", Cap3(["key2", "key3", "key4"], ["key2", "key4", "key3"]), true)
    ensures LruWrote(Cap3(["key2", "key3", "key4"], ["key2", "key4", "key3"]), "key5", Cap3(["key3", "key4", "key5"], ["key4", "key3", "key5"]))
    ensures LruRead(Cap3(["key3", "key4", "key5"], ["key4", "key3", "key5"]), "key4", Cap3(["key3", "key4", "key5"], ["key3", "key5", "key4"]), true)
    ensures LruRead(Cap3(["key3", "key4", "key5"], ["key3", "key5", "key4"]), "key3", Cap3(["key3", "key4", "key5"], ["key5", "key4", "key3"]), true)
    ensures LruRead(Cap3(["key3", "key4", "key5"], ["key5", "key4", "key3"]), "key2", Cap3(["key3", "key4", "key5"], ["key5", "key4", "key3"]), false)
  {
    LruTestStep0();
    LruTestStep1();
    LruTestStep2();
    LruTestStep3();
    LruTestStep4();
    LruTestStep5();
    LruTestStep6();
    LruTestStep7();
    LruTestStep8();
    LruTestStep9();
    LruTestStep10();
    LruTestStep11();
    LruTestStep12();
    LruTestStep13();
    LruTestStep14();
  }

  // ---------------------------------------------------------------------
  // LFU: the eviction test of the LFU engine
  // ---------------------------------------------------------------------

  lemma LfuTestStep0()
    ensures LfuWrote(Lfu.New(3), "key1", LfuCap3(["key1"], [Lfu.LfuPair("key1", 0)]))
  {
  }

  lemma LfuTestStep1()
    ensures LfuWrote(LfuCap3(["key1"], [Lfu.LfuPair("key1", 0)]), "key2", LfuCap3(["key1", "key2"], [Lfu.LfuPair("key1", 0), Lfu.LfuPair("key2", 0)]))
  {
  }

  lemma LfuTestStep2()
    ensures LfuWrote(LfuCap3(["key1", "key2"], [Lfu.LfuPair("key1", 0), Lfu.LfuPair("key2", 0)]), "key3", LfuCap3(["key1", "key2", "key3"], [Lfu.LfuPair("key1", 0), Lfu.LfuPair("key2", 0), Lfu.LfuPair("key3", 0)]))
  {
  }

  lemma LfuTestStep3()
    ensures LfuRead(LfuCap3(["key1", "key2", "key3"], [Lfu.LfuPair("key1", 0), Lfu.LfuPair("key2", 0), Lfu.LfuPair("key3", 0)]), "key1", LfuCap3(["key1", "key2", "key3"], [Lfu.LfuPair("key2", 0), Lfu.LfuPair("key3", 0), Lfu.LfuPair("key1", 1)]), true)
  {
    LfuHitAt(LfuCap3(["key1", "key2", "key3"], [Lfu.LfuPair("key1", 0), Lfu.LfuPair("key2", 0), Lfu.LfuPair("key3", 0)]), "key1", 0, LfuCap3(["key1", "key2", "key3"], [Lfu.LfuPair("key2", 0), Lfu.LfuPair("key3", 0), Lfu.LfuPair("key1", 1)]));
  }

  lemma LfuTestStep4()
    ensures LfuRead(LfuCap3(["key1", "key2", "key3"], [Lfu.LfuPair("key2", 0), Lfu.LfuPair("key3", 0), Lfu.LfuPair("key1", 1)]), "key2", LfuCap3(["key1", "key2", "key3"], [Lfu.LfuPair("key3", 0), Lfu.LfuPair("key1", 1), Lfu.LfuPair("key2", 1)]), true)
  {
    LfuHitAt(LfuCap3(["key1", "key2", "key3"], [Lfu.LfuPair("key2", 0), Lfu.LfuPair("key3", 0), Lfu.LfuPair("key1", 1)]), "key2", 0, LfuCap3(["key1", "key2", "key3"], [Lfu.LfuPair("key3", 0), Lfu.LfuPair("key1", 1), Lfu.LfuPair("key2", 1)]));
  }

  lemma LfuTestStep5()
    ensures LfuRead(LfuCap3(["key1", "key2", "key3"], [Lfu.LfuPair("key3", 0), Lfu.LfuPair("key1", 1), Lfu.LfuPair("key2", 1)]), "key1", LfuCap3(["key1", "key2", "key3"], [Lfu.LfuPair("key3", 0), Lfu.LfuPair("key2", 1), Lfu.LfuPair("key1", 2)]), true)
  {
    LfuHitAt(LfuCap3(["key1", "key2", "key3"], [Lfu.LfuPair("key3", 0), Lfu.LfuPair("key1", 1), Lfu.LfuPair("key2", 1)]), "key1", 1, LfuCap3(["key1", "key2", "key3"], [Lfu.LfuPair("key3", 0), Lfu.LfuPair("key2", 1), Lfu.LfuPair("key1", 2)]));
  }

  lemma LfuTestStep6()
    ensures LfuRead(LfuCap3(["key1", "key2", "key3"], [Lfu.LfuPair("key3", 0), Lfu.LfuPair("key2", 1), Lfu.LfuPair("key1", 2)]), "key2", LfuCap3(["key1", "key2", "key3"], [Lfu.LfuPair("key3", 0), Lfu.LfuPair("key1", 2), Lfu.LfuPair("key2", 2)]), true)
  {
    LfuHitAt(LfuCap3(["key1", "key2", "key3"], [Lfu.LfuPair("key3", 0), Lfu.LfuPair("key2", 1), Lfu.LfuPair("key1", 2)]), "key2", 1, LfuCap3(["key1", "key2", "key3"], [Lfu.LfuPair("key3", 0), Lfu.LfuPair("key1", 2), Lfu.LfuPair("key2", 2)]));
  }

  lemma LfuTestStep7()
    ensures LfuRead(LfuCap3(["key1", "key2", "key3"], [Lfu.LfuPair("key3", 0), Lfu.LfuPair("key1", 2), Lfu.LfuPair("key2", 2)]), "key3", LfuCap3(["key1", "key2", "key3"], [Lfu.LfuPair("key1", 2), Lfu.LfuPair("key2", 2), Lfu.LfuPair("key3", 1)]), true)
  {
    LfuHitAt(LfuCap3(["key1", "key2", "key3"], [Lfu.LfuPair("key3", 0), Lfu.LfuPair("key1", 2), Lfu.LfuPair("key2", 2)]), "key3", 0, LfuCap3(["key1", "key2", "key3"], [Lfu.LfuPair("key1", 2), Lfu.LfuPair("key2", 2), Lfu.LfuPair("key3", 1)]));
  }

  lemma LfuTestStep8()
    ensures LfuWrote(LfuCap3(["key1", "key2", "key3"], [Lfu.LfuPair("key1", 2), Lfu.LfuPair("key2", 2), Lfu.LfuPair("key3", 1)]), "key4", LfuCap3(["key1", "key2", "key4"], [Lfu.LfuPair("key1", 2), Lfu.LfuPair("key2", 2), Lfu.LfuPair("key4", 0)]))
  {
  }

  lemma LfuTestStep9()
    ensures LfuRead(LfuCap3(["key1", "key2", "key4"], [Lfu.LfuPair("key1", 2), Lfu.LfuPair("key2", 2), Lfu.LfuPair("key4", 0)]), "key3", LfuCap3(["key1", "key2", "key4"], [Lfu.LfuPair("key1", 2), Lfu.LfuPair("key2", 2), Lfu.LfuPair("key4", 0)]), false)
  {
  }

  lemma LfuTestStep10()
    ensures LfuRead(LfuCap3(["key1", "key2", "key4"], [Lfu.LfuPair("key1", 2), Lfu.LfuPair("key2", 2), Lfu.LfuPair("key4", 0)]), "key1", LfuCap3(["key1", "key2", "key4"], [Lfu.LfuPair("key2", 2), Lfu.LfuPair("key4", 0), Lfu.LfuPair("key1", 3)]), true)
  {
    LfuHitAt(LfuCap3(["key1", "key2", "key4"], [Lfu.LfuPair("key1", 2), Lfu.LfuPair("key2", 2), Lfu.LfuPair("key4", 0)]), "key1", 0, LfuCap3(["key1", "key2", "key4"], [Lfu.LfuPair("key2", 2), Lfu.LfuPair("key4", 0), Lfu.LfuPair("key1", 3)]));
  }

  lemma LfuTestStep11()
    ensures LfuRead(LfuCap3(["key1", "key2", "key4"], [Lfu.LfuPair("key2", 2), Lfu.LfuPair("key4", 0), Lfu.LfuPair("key1", 3)]), "key2", LfuCap3(["key1", "key2", "key4"], [Lfu.LfuPair("key4", 0), Lfu.LfuPair("key1", 3), Lfu.LfuPair("key2", 3)]), true)
  {
    LfuHitAt(LfuCap3(["key1", "key2", "key4"], [Lfu.LfuPair("key2", 2), Lfu.LfuPair("key4", 0), Lfu.LfuPair("key1", 3)]), "key2", 0, LfuCap3(["key1", "key2", "key4"], [Lfu.LfuPair("key4", 0), Lfu.LfuPair("key1", 3), Lfu.LfuPair("key2", 3)]));
  }

  lemma LfuTestStep12()
    ensures LfuWrote(LfuCap3(["key1", "key2", "key4"], [Lfu.LfuPair("key4", 0), Lfu.LfuPair("key1", 3), Lfu.LfuPair("key2", 3)]), "key3", LfuCap3(["key1", "key2", "key3"], [Lfu.LfuPair("key1", 3), Lfu.LfuPair("key2", 3), Lfu.LfuPair("key3", 0)]))
  {
  }

  lemma LfuTestStep13()
    ensures LfuRead(LfuCap3(["key1", "key2", "key3"], [Lfu.LfuPair("key1", 3), Lfu.LfuPair("key2", 3), Lfu.LfuPair("key3", 0)]), "key3", LfuCap3(["key1", "key2", "key3"], [Lfu.LfuPair("key1", 3), Lfu.LfuPair("key2", 3), Lfu.LfuPair("key3", 1)]), true)
  {
    LfuHitAt(LfuCap3(["key1", "key2", "key3"], [Lfu.LfuPair("key1", 3), Lfu.LfuPair("key2", 3), Lfu.LfuPair("key3", 0)]), "key3", 2, LfuCap3(["key1", "key2", "key3"], [Lfu.LfuPair("key1", 3), Lfu.LfuPair("key2", 3), Lfu.LfuPair("key3", 1)]));
  }

  lemma LfuTestStep14()
    ensures LfuRead(LfuCap3(["key1", "key2", "key3"], [Lfu.LfuPair("key1", 3), Lfu.LfuPair("key2", 3), Lfu.LfuPair("key3", 1)]), "key3", LfuCap3(["key1", "key2", "key3"], [Lfu.LfuPair("key1", 3), Lfu.LfuPair("key2", 3), Lfu.LfuPair("key3", 2)]), true)
  {
    LfuHitAt(LfuCap3(["key1", "key2", "key3"], [Lfu.LfuPair("key1", 3), Lfu.LfuPair("key2", 3), Lfu.LfuPair("key3", 1)]), "key3", 2, LfuCap3(["key1", "key2", "key3"], [Lfu.LfuPair("key1", 3), Lfu.LfuPair("key2", 3), Lfu.LfuPair("key3", 2)]));
  }

  lemma LfuTestStep15()
    ensures LfuRead(LfuCap3(["key1", "key2", "key3"], [Lfu.LfuPair("key1", 3), Lfu.LfuPair("key2", 3), Lfu.LfuPair("key3", 2)]), "key3", LfuCap3(["key1", "key2", "key3"], [Lfu.LfuPair("key1", 3), Lfu.LfuPair("key2", 3), Lfu.LfuPair("key3", 3)]), true)
  {
    LfuHitAt(LfuCap3(["key1", "key2", "key3"], [Lfu.LfuPair("key1", 3), Lfu.LfuPair("key2", 3), Lfu.LfuPair("key3", 2)]), "key3", 2, LfuCap3(["key1", "key2", "key3"], [Lfu.LfuPair("key1", 3), Lfu.LfuPair("key2", 3), Lfu.LfuPair("key3", 3)]));
  }

  lemma LfuTestStep16()
    ensures LfuRead(LfuCap3(["key1", "key2", "key3"], [Lfu.LfuPair("key1", 3), Lfu.LfuPair("key2", 3), Lfu.LfuPair("key3", 3)]), "key3", LfuCap3(["key1", "key2", "key3"], [Lfu.LfuPair("key1", 3), Lfu.LfuPair("key2", 3), Lfu.LfuPair("key3", 4)]), true)
  {
    LfuHitAt(LfuCap3(["key1", "key2", "key3"], [Lfu.LfuPair("key1", 3), Lfu.LfuPair("key2", 3), Lfu.LfuPair("key3", 3)]), "key3", 2, LfuCap3(["key1", "key2", "key3"], [Lfu.LfuPair("key1", 3), Lfu.LfuPair("key2", 3), Lfu.LfuPair("key3", 4)]));
  }

  lemma LfuTestStep17()
    ensures LfuRead(LfuCap3(["key1", "key2", "key3"], [Lfu.LfuPair("key1", 3), Lfu.LfuPair("key2", 3), Lfu.LfuPair("key3", 4)]), "key3", LfuCap3(["key1", "key2", "key3"], [Lfu.LfuPair("key1", 3), Lfu.LfuPair("key2", 3), Lfu.LfuPair("key3", 5)]), true)
  {
    LfuHitAt(LfuCap3(["key1", "key2", "key3"], [Lfu.LfuPair("key1", 3), Lfu.LfuPair("key2", 3), Lfu.LfuPair("key3", 4)]), "key3", 2, LfuCap3(["key1", "key2", "key3"], [Lfu.LfuPair("key1", 3), Lfu.LfuPair("key2", 3), Lfu.LfuPair("key3", 5)]));
  }

  lemma LfuTestStep18()
    ensures LfuRead(LfuCap3(["key1", "key2", "key3"], [Lfu.LfuPair("key1", 3), Lfu.LfuPair("key2", 3), Lfu.LfuPair("key3", 5)]), "key3", LfuCap3(["key1", "key2", "key3"], [Lfu.LfuPair("key1", 3), Lfu.LfuPair("key2", 3), Lfu.LfuPair("key3", 6)]), true)
  {
    LfuHitAt(LfuCap3(["key1", "key2", "key3"], [Lfu.LfuPair("key1", 3), Lfu.LfuPair("key2", 3), Lfu.LfuPair("key3", 5)]), "key3", 2, LfuCap3(["key1", "key2", "key3"], [Lfu.LfuPair("key1", 3), Lfu.LfuPair("key2", 3), Lfu.LfuPair("key3", 6)]));
  }

  lemma LfuTestStep19()
    ensures LfuRead(LfuCap3(["key1", "key2", "key3"], [Lfu.LfuPair("key1", 3), Lfu.LfuPair("key2", 3), Lfu.LfuPair("key3", 6)]), "key1", LfuCap3(["key1", "key2", "key3"], [Lfu.LfuPair("key2", 3), Lfu.LfuPair("key3", 6), Lfu.LfuPair("key1", 4)]), true)
  {
    LfuHitAt(LfuCap3(["key1", "key2", "key3"], [Lfu.LfuPair("key1", 3), Lfu.LfuPair("key2", 3), Lfu.LfuPair("key3", 6)]), "key1", 0, LfuCap3(["key1", "key2", "key3"], [Lfu.LfuPair("key2", 3), Lfu.LfuPair("key3", 6), Lfu.LfuPair("key1", 4)]));
  }

  lemma LfuTestStep20()
    ensures LfuWrote(LfuCap3(["key1", "key2", "key3"], [Lfu.LfuPair("key2", 3), Lfu.LfuPair("key3", 6), Lfu.LfuPair("key1", 4)]), "key5", LfuCap3(["key1", "key3", "key5"], [Lfu.LfuPair("key3", 6), Lfu.LfuPair("key1", 4), Lfu.LfuPair("key5", 0)]))
  {
  }

  lemma LfuTestStep21()
    ensures LfuRead(LfuCap3(["key1", "key3", "key5"], [Lfu.LfuPair("key3", 6), Lfu.LfuPair("key1", 4), Lfu.LfuPair("key5", 0)]), "key1", LfuCap3(["key1", "key3", "key5"], [Lfu.LfuPair("key3", 6), Lfu.LfuPair("key5", 0), Lfu.LfuPair("key1", 5)]), true)
  {
    LfuHitAt(LfuCap3(["key1", "key3", "key5"], [Lfu.LfuPair("key3", 6), Lfu.LfuPair("key1", 4), Lfu.LfuPair("key5", 0)]), "key1", 1, LfuCap3(["key1", "key3", "key5"], [Lfu.LfuPair("key3", 6), Lfu.LfuPair("key5", 0), Lfu.LfuPair("key1", 5)]));
  }

  lemma LfuTestStep22()
    ensures LfuRead(LfuCap3(["key1", "key3", "key5"], [Lfu.LfuPair("key3", 6), Lfu.LfuPair("key5", 0), Lfu.LfuPair("key1", 5)]), "key3", LfuCap3(["key1", "key3", "key5"], [Lfu.LfuPair("key5", 0), Lfu.LfuPair("key1", 5), Lfu.LfuPair("key3", 7)]), true)
  {
    LfuHitAt(LfuCap3(["key1", "key3", "key5"], [Lfu.LfuPair("key3", 6), Lfu.LfuPair("key5", 0), Lfu.LfuPair("key1", 5)]), "key3", 0, LfuCap3(["key1", "key3", "key5"], [Lfu.LfuPair("key5", 0), Lfu.LfuPair("key1", 5), Lfu.LfuPair("key3", 7)]));
  }

  lemma LfuTestStep23()
    ensures LfuRead(LfuCap3(["key1", "key3", "key5"], [Lfu.LfuPair("key5", 0), Lfu.LfuPair("key1", 5), Lfu.LfuPair("key3", 7)]), "key2", LfuCap3(["key1", "key3", "key5"], [Lfu.LfuPair("key5", 0), Lfu.LfuPair("key1", 5), Lfu.LfuPair("key3", 7)]), false)
  {
  }

  /**
   * Set key1..key3, read key1, key2, key1, key2, key3, set key4: key3 has
   * the least count and is evicted. Read key1 and key2, set key3 again:
   * key4, still at count 0, is evicted. Read key3 six times and key1 once,
   * set key5: key2 has the least count and is evicted.
   */
  lemma LfuEvictionTest()
    ensures LfuWrote(Lfu.New(3), "key1", LfuCap3(["key1"], [Lfu.LfuPair("key1", 0)]))
    ensures LfuWrote(LfuCap3(["key1"], [Lfu.LfuPair("key1", 0)]), "key2", LfuCap3(["key1", "key2"], [Lfu.LfuPair("key1", 0), Lfu.LfuPair("key2", 0)]))
    ensures LfuWrote(LfuCap3(["key1", "key2"], [Lfu.LfuPair("key1", 0), Lfu.LfuPair("key2", 0)]), "key3", LfuCap3(["key1", "key2", "key3"], [Lfu.LfuPair("key1", 0), Lfu.LfuPair("key2", 0), Lfu.LfuPair("key3", 0)]))
    ensures LfuRead(LfuCap3(["key1", "key2", "key3"], [Lfu.LfuPair("key1", 0), Lfu.LfuPair("key2", 0), Lfu.LfuPair("key3", 0)]), "key1", LfuCap3(["key1", "key2", "key3"], [Lfu.LfuPair("key2", 0), Lfu.LfuPair("key3", 0), Lfu.LfuPair("key1", 1)]), true)
    ensures LfuRead(LfuCap3(["key1", "key2", "key3"], [Lfu.LfuPair("key2", 0), Lfu.LfuPair("key3", 0), Lfu.LfuPair("key1", 1)]), "key2", LfuCap3(["key1", "key2", "key3"], [Lfu.LfuPair("key3", 0), Lfu.LfuPair("key1", 1), Lfu.LfuPair("key2", 1)]), true)
    ensures LfuRead(LfuCap3(["key1", "key2", "key3"], [Lfu.LfuPair("key3", 0), Lfu.LfuPair("key1", 1), Lfu.LfuPair("key2", 1)]), "key1", LfuCap3(["key1", "key2", "key3"], [Lfu.LfuPair("key3", 0), Lfu.LfuPair("key2", 1), Lfu.LfuPair("key1", 2)]), true)
    ensures LfuRead(LfuCap3(["key1", "key2", "key3"], [Lfu.LfuPair("key3", 0), Lfu.LfuPair("key2", 1), Lfu.LfuPair("key1", 2)]), "key2", LfuCap3(["key1", "key2", "key3"], [Lfu.LfuPair("key3", 0), Lfu.LfuPair("key1", 2), Lfu.LfuPair("key2", 2)]), true)
    ensures LfuRead(LfuCap3(["key1", "key2", "key3"], [Lfu.LfuPair("key3", 0), Lfu.LfuPair("key1", 2), Lfu.LfuPair("key2", 2)]), "key3", LfuCap3(["key1", "key2", "key3"], [Lfu.LfuPair("key1", 2), Lfu.LfuPair("key2", 2), Lfu.LfuPair("key3", 1)]), true)
    ensures LfuWrote(LfuCap3(["key1", "key2", "key3"], [Lfu.LfuPair("key1", 2), Lfu.LfuPair("key2", 2), Lfu.LfuPair("key3", 1)]), "key4", LfuCap3(["key1", "key2", "key4"], [Lfu.LfuPair("key1", 2), Lfu.LfuPair("key2", 2), Lfu.LfuPair("key4", 0)]))
    ensures LfuRead(LfuCap3(["key1", "key2", "key4"], [Lfu.LfuPair("key1", 2), Lfu.LfuPair("key2", 2), Lfu.LfuPair("key4", 0)]), "key3", LfuCap3(["key1", "key2", "key4"], [Lfu.LfuPair("key1", 2), Lfu.LfuPair("key2", 2), Lfu.LfuPair("key4", 0)]), false)
    ensures LfuRead(LfuCap3(["key1", "key2", "key4"], [Lfu.LfuPair("key1", 2), Lfu.LfuPair("key2", 2), Lfu.LfuPair("key4", 0)]), "key1", LfuCap3(["key1", "key2", "key4"], [Lfu.LfuPair("key2", 2), Lfu.LfuPair("key4", 0), Lfu.LfuPair("key1", 3)]), true)
    ensures LfuRead(LfuCap3(["key1", "key2", "key4"], [Lfu.LfuPair("key2", 2), Lfu.LfuPair("key4", 0), Lfu.LfuPair("key1", 3)]), "key2", LfuCap3(["key1", "key2", "key4"], [Lfu.LfuPair("key4", 0), Lfu.LfuPair("key1", 3), Lfu.LfuPair("key2", 3)]), true)
    ensures LfuWrote(LfuCap3(["key1", "key2", "key4"], [Lfu.LfuPair("key4", 0), Lfu.LfuPair("key1", 3), Lfu.LfuPair("key2", 3)]), "key3", LfuCap3(["key1", "key2", "key3"], [Lfu.LfuPair("key1", 3), Lfu.LfuPair("key2", 3), Lfu.LfuPair("key3", 0)]))
    ensures LfuRead(LfuCap3(["key1", "key2", "key3"], [Lfu.LfuPair("key1", 3), Lfu.LfuPair("key2", 3), Lfu.LfuPair("key3", 0)]), "key3", LfuCap3(["key1", "key2", "key3"], [Lfu.LfuPair("key1", 3), Lfu.LfuPair("key2", 3), Lfu.LfuPair("key3", 1)]), true)
    ensures LfuRead(LfuCap3(["key1", "key2", "key3"], [Lfu.LfuPair("key1", 3), Lfu.LfuPair("key2", 3), Lfu.LfuPair("key3", 1)]), "key3", LfuCap3(["key1", "key2", "key3"], [Lfu.LfuPair("key1", 3), Lfu.LfuPair("key2", 3), Lfu.LfuPair("key3", 2)]), true)
    ensures LfuRead(LfuCap3(["key1", "key2", "key3"], [Lfu.LfuPair("key1", 3), Lfu.LfuPair("key2", 3), Lfu.LfuPair("key3", 2)]), "key3", LfuCap3(["key1", "key2", "key3"], [Lfu.LfuPair("key1", 3), Lfu.LfuPair("key2", 3), Lfu.LfuPair("key3", 3)]), true)
    ensures LfuRead(LfuCap3(["key1", "key2", "key3"], [Lfu.LfuPair("key1", 3), Lfu.LfuPair("key2", 3), Lfu.LfuPair("key3", 3)]), "key3", LfuCap3(["key1", "key2", "key3"], [Lfu.LfuPair("key1", 3), Lfu.LfuPair("key2", 3), Lfu.LfuPair("key3", 4)]), true)
    ensures LfuRead(LfuCap3(["key1", "key2", "key3"], [Lfu.LfuPair("key1", 3), Lfu.LfuPair("key2", 3), Lfu.LfuPair("key3", 4)]), "key3", LfuCap3(["key1", "key2", "key3"], [Lfu.LfuPair("key1", 3), Lfu.LfuPair("key2", 3), Lfu.LfuPair("key3", 5)]), true)
    ensures LfuRead(LfuCap3(["key1", "key2", "key3"], [Lfu.LfuPair("key1", 3), Lfu.LfuPair("key2", 3), Lfu.LfuPair("key3", 5)]), "key3", LfuCap3(["key1", "key2", "key3"], [Lfu.LfuPair("key1", 3), Lfu.LfuPair("key2", 3), Lfu.LfuPair("key3", 6)]), true)
    ensures LfuRead(LfuCap3(["key1", "key2", "key3"], [Lfu.LfuPair("key1", 3), Lfu.LfuPair("key2", 3), Lfu.LfuPair("key3", 6)]), "key1", LfuCap3(["key1", "key2", "key3"], [Lfu.LfuPair("key2", 3), Lfu.LfuPair("key3", 6), Lfu.LfuPair("key1", 4)]), true)
    ensures LfuWrote(LfuCap3(["key1", "key2", "key3"], [Lfu.LfuPair("key2", 3), Lfu.LfuPair("key3", 6), Lfu.LfuPair("key1", 4)]), "key5", LfuCap3(["key1", "key3", "key5"], [Lfu.LfuPair("key3", 6), Lfu.LfuPair("key1", 4), Lfu.LfuPair("key5", 0)]))
    ensures LfuRead(LfuCap3(["key1", "key3", "key5"], [Lfu.LfuPair("key3", 6), Lfu.LfuPair("key1", 4), Lfu.LfuPair("key5", 0)]), "key1", LfuCap3(["key1", "key3", "key5"], [Lfu.LfuPair("key3", 6), Lfu.LfuPair("key5", 0), Lfu.LfuPair("key1", 5)]), true)
    ensures LfuRead(LfuCap3(["key1", "key3", "key5"], [Lfu.LfuPair("key3", 6), Lfu.LfuPair("key5", 0), Lfu.LfuPair("key1", 5)]), "key3", LfuCap3(["key1", "key3", "key5"], [Lfu.LfuPair("key5", 0), Lfu.LfuPair("key1", 5), Lfu.LfuPair("key3", 7)]), true)
    ensures LfuRead(LfuCap3(["key1", "key3", "key5"], [Lfu.LfuPair("key5", 0), Lfu.LfuPair("key1", 5), Lfu.LfuPair("key3", 7)]), "key2", LfuCap3(["key1", "key3", "key5"], [Lfu.LfuPair("key5", 0), Lfu.LfuPair("key1", 5), Lfu.LfuPair("key3", 7)]), false)
  {
    LfuTestStep0();
    LfuTestStep1();
    LfuTestStep2();
    LfuTestStep3();
    LfuTestStep4();
    LfuTestStep5();
    LfuTestStep6();
    LfuTestStep7();
    LfuTestStep8();
    LfuTestStep9();
    LfuTestStep10();
    LfuTestStep11();
    LfuTestStep12();
    LfuTestStep13();
    LfuTestStep14();
    LfuTestStep15();
    LfuTestStep16();
    LfuTestStep17();
    LfuTestStep18();
    LfuTestStep19();
    LfuTestStep20();
    LfuTestStep21();
    LfuTestStep22();
    LfuTestStep23();
  }

}
