/**
 * Sequence operations that stand for the `container/list` manipulations of
 * the cache engines: a linear search from the front, removal of one element,
 * and relocation of one element to the back; and the absence of duplicates.
 */
module Seqs {
  import opened Wrappers

  /** Index of the first occurrence of `x`, scanning front to back, or None. */
  function Find<T(==)>(s: seq<T>, x: T): (r: Option<nat>)
    ensures r.None? <==> x !in s
    ensures r.Some? ==> r.value < |s| && s[r.value] == x
    ensures r.Some? ==> forall j | 0 <= j < r.value :: s[j] != x
  {
    if |s| == 0 then None
    else if s[0] == x then Some(0)
    else
      match Find(s[1..], x)
      case None => None
      case Some(i) => Some(i + 1)
  }

  /** `s` with position `i` unlinked. */
  function RemoveAt<T>(s: seq<T>, i: nat): (r: seq<T>)
    requires i < |s|
    ensures |r| == |s| - 1
    ensures forall j | 0 <= j < i :: r[j] == s[j]
    ensures forall j | i <= j < |r| :: r[j] == s[j + 1]
  {
    assert s == s[..i] + [s[i]] + s[i + 1..];
    s[..i] + s[i + 1..]
  }

  /** Unlinking position `i` loses exactly one copy of `s[i]`. */
  lemma RemoveAtMultiset<T>(s: seq<T>, i: nat)
    requires i < |s|
    ensures multiset(RemoveAt(s, i)) == multiset(s) - multiset{s[i]}
  {
    assert s == s[..i] + [s[i]] + s[i + 1..];
  }

  /** `s` with the first occurrence of `x` unlinked; unchanged when `x` is absent. */
  function RemoveFirst<T(==)>(s: seq<T>, x: T): (r: seq<T>)
    ensures multiset(r) == multiset(s) - multiset{x}
    ensures x in s ==> |r| == |s| - 1
    ensures x in s ==> exists i | 0 <= i < |s| :: s[i] == x && x !in s[..i] && r == s[..i] + s[i + 1..]
    ensures x !in s ==> r == s
  {
    match Find(s, x)
    case None => s
    case Some(i) =>
      RemoveAtMultiset(s, i);
      assert x !in s[..i] by {
        assert forall j | 0 <= j < i :: s[..i][j] == s[j];
      }
      RemoveAt(s, i)
  }

  /** `s` with position `i` relocated to the back (`list.MoveToBack`). */
  function MoveToBack<T>(s: seq<T>, i: nat): (r: seq<T>)
    requires i < |s|
    ensures |r| == |s|
    ensures r[|r| - 1] == s[i]
    ensures r[..|r| - 1] == RemoveAt(s, i)
  {
    RemoveAt(s, i) + [s[i]]
  }

  /** Relocation to the back keeps every element with its multiplicity. */
  lemma MoveToBackMultiset<T>(s: seq<T>, i: nat)
    requires i < |s|
    ensures multiset(MoveToBack(s, i)) == multiset(s)
  {
    RemoveAtMultiset(s, i);
  }

  /** No element occurs twice in `s`. */
  ghost predicate Distinct<T>(s: seq<T>)
  {
    forall i, j :: 0 <= i < j < |s| ==> s[i] != s[j]
  }
}
