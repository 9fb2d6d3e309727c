/**
 * Ranking keys by a count table, as `MostPopular` in
 * services_lab3/reservation.go does with `sort.SliceStable` and the
 * comparison "count of i > count of j": a stable sort into non-increasing
 * count order. The sort is modelled as an insertion sort that places each
 * key after every key whose count is at least its own.
 */
module Ranking {
  import opened Seqs

  /** A popularity table: restaurant name to number of reservations. */
  type Table = map<string, int>

  /** Go's map index: the stored count, or 0 for a missing key. */
  function Count(t: Table, k: string): (r: int)
    ensures k !in t ==> r == 0
    ensures k in t ==> r == t[k]
  {
    if k in t then t[k] else 0
  }

  /** `s` lists keys in non-increasing count order. */
  ghost predicate Ranked(t: Table, s: seq<string>)
  {
    forall i, j :: 0 <= i < j < |s| ==> Count(t, s[i]) >= Count(t, s[j])
  }

  /** Inserts `x` into `s`, after the last key whose count is at least that of `x`. */
  function Insert(t: Table, s: seq<string>, x: string): (r: seq<string>)
    ensures |r| == |s| + 1
    ensures multiset(r) == multiset(s) + multiset{x}
    ensures forall y :: y in r <==> y in s || y == x
  {
    if |s| == 0 then [x]
    else if Count(t, s[|s| - 1]) >= Count(t, x) then s + [x]
    else
      assert s == s[..|s| - 1] + [s[|s| - 1]];
      Insert(t, s[..|s| - 1], x) + [s[|s| - 1]]
  }

  /** Sorts `s` into non-increasing count order, keeping the order of keys with equal counts. */
  function SortDesc(t: Table, s: seq<string>): (r: seq<string>)
    ensures |r| == |s|
    ensures multiset(r) == multiset(s)
    ensures forall y :: y in r <==> y in s
  {
    if |s| == 0 then []
    else
      assert s == s[..|s| - 1] + [s[|s| - 1]];
      Insert(t, SortDesc(t, s[..|s| - 1]), s[|s| - 1])
  }

  /** Inserting into a ranked sequence keeps it ranked. */
  lemma {:induction false} InsertRanked(t: Table, s: seq<string>, x: string)
    requires Ranked(t, s)
    ensures Ranked(t, Insert(t, s, x))
  {
    if |s| != 0 && Count(t, s[|s| - 1]) < Count(t, x) {
      var p := s[..|s| - 1];
      var last := s[|s| - 1];
      InsertRanked(t, p, x);
      var q := Insert(t, p, x);
      forall i | 0 <= i < |q|
        ensures Count(t, q[i]) >= Count(t, last)
      {
        assert q[i] in p || q[i] == x;
        if q[i] != x {
          var j :| 0 <= j < |p| && p[j] == q[i];
          assert s[j] == p[j];
        }
      }
    }
  }

  /** The sort yields a ranked sequence. */
  lemma {:induction false} SortDescRanked(t: Table, s: seq<string>)
    ensures Ranked(t, SortDesc(t, s))
  {
    if |s| != 0 {
      SortDescRanked(t, s[..|s| - 1]);
      InsertRanked(t, SortDesc(t, s[..|s| - 1]), s[|s| - 1]);
    }
  }

  /** Inserting a key that is absent keeps a sequence free of duplicates. */
  lemma {:induction false} InsertDistinct(t: Table, s: seq<string>, x: string)
    requires Distinct(s) && x !in s
    ensures Distinct(Insert(t, s, x))
  {
    if |s| != 0 && Count(t, s[|s| - 1]) < Count(t, x) {
      var p := s[..|s| - 1];
      var last := s[|s| - 1];
      assert forall j | 0 <= j < |p| :: p[j] == s[j] && p[j] != last;
      InsertDistinct(t, p, x);
      var q := Insert(t, p, x);
      assert last !in q;
      assert forall i | 0 <= i < |q| :: q[i] != last;
    }
  }

  /** The sort keeps a sequence free of duplicates. */
  lemma {:induction false} SortDescDistinct(t: Table, s: seq<string>)
    requires Distinct(s)
    ensures Distinct(SortDesc(t, s))
  {
    if |s| != 0 {
      var p := s[..|s| - 1];
      assert forall j | 0 <= j < |p| :: p[j] == s[j] && p[j] != s[|s| - 1];
      SortDescDistinct(t, p);
      InsertDistinct(t, SortDesc(t, p), s[|s| - 1]);
    }
  }
}
