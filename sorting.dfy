/**
 * Python's `sorted(xs, key=..., reverse=...)` as an insertion sort by a
 * "may come before" relation, and Python's `xs[:limit]` prefix slice.
 */
module Sorting {
  import opened Common

  /** `before` is total and transitive: a key order, possibly with ties. */
  ghost predicate TotalPreorder<T(!new)>(before: (T, T) -> bool) {
    (forall a, b :: before(a, b) || before(b, a)) &&
    (forall a, b, c :: before(a, b) && before(b, c) ==> before(a, c))
  }

  predicate Sorted<T>(s: seq<T>, before: (T, T) -> bool) {
    forall i, j :: 0 <= i < j < |s| ==> before(s[i], s[j])
  }

  /** Puts `x` ahead of the first element it may come before. */
  function Insert<T>(x: T, s: seq<T>, before: (T, T) -> bool): (r: seq<T>)
    ensures multiset(r) == multiset(s) + multiset{x}
  {
    if |s| == 0 then [x]
    else if before(x, s[0]) then [x] + s
    else
      assert s == [s[0]] + s[1..];
      [s[0]] + Insert(x, s[1..], before)
  }

  /** The elements of `s` ordered by `before`; equal keys keep their input order. */
  function SortBy<T>(s: seq<T>, before: (T, T) -> bool): (r: seq<T>)
    ensures multiset(r) == multiset(s)
  {
    if |s| == 0 then []
    else
      assert s == [s[0]] + s[1..];
      Insert(s[0], SortBy(s[1..], before), before)
  }

  lemma {:induction false} InsertSorted<T(!new)>(x: T, s: seq<T>, before: (T, T) -> bool)
    requires TotalPreorder(before) && Sorted(s, before)
    ensures Sorted(Insert(x, s, before), before)
    decreases |s|
  {
    if |s| > 0 && !before(x, s[0]) {
      var tail := Insert(x, s[1..], before);
      InsertSorted(x, s[1..], before);
      InsertHeadFirst(x, s, tail, before);
      var r := [s[0]] + tail;
      forall i, j | 0 <= i < j < |r| ensures before(r[i], r[j]) {
        if i == 0 {
          assert r[j] == tail[j - 1];
          assert r[j] in tail;
        } else {
          assert r[i] == tail[i - 1] && r[j] == tail[j - 1];
        }
      }
    }
  }

  /** When `x` goes after `s[0]`, `s[0]` may come before everything inserted behind it. */
  lemma InsertHeadFirst<T(!new)>(x: T, s: seq<T>, tail: seq<T>, before: (T, T) -> bool)
    requires TotalPreorder(before) && Sorted(s, before) && |s| > 0 && !before(x, s[0])
    requires multiset(tail) == multiset(s[1..]) + multiset{x}
    ensures forall y :: y in tail ==> before(s[0], y)
  {
    forall y | y in tail ensures before(s[0], y) {
      assert y in multiset(tail);
      if y != x {
        assert y in multiset(s[1..]);
        var j :| 0 <= j < |s[1..]| && s[1..][j] == y;
        assert s[j + 1] == y;
      }
    }
  }

  /** `SortBy` puts every element ahead of all the elements it must not follow. */
  lemma {:induction false} SortBySorted<T(!new)>(s: seq<T>, before: (T, T) -> bool)
    requires TotalPreorder(before)
    ensures Sorted(SortBy(s, before), before)
    decreases |s|
  {
    if |s| > 0 {
      SortBySorted(s[1..], before);
      InsertSorted(s[0], SortBy(s[1..], before), before);
    }
  }

  /** Python's `s[:limit]`: a negative limit counts back from the end. */
  function SliceTo<T>(s: seq<T>, limit: int): (r: seq<T>)
    ensures |r| == if limit >= 0 then Min(limit, |s|) else Max(|s| + limit, 0)
    ensures r == s[..|r|]
  {
    if limit >= 0 then s[..Min(limit, |s|)] else s[..Max(|s| + limit, 0)]
  }

  /** A slice takes no element more often than the sequence has it. */
  lemma SliceToSubMultiset<T>(s: seq<T>, limit: int)
    ensures multiset(SliceTo(s, limit)) <= multiset(s)
  {
    var r := SliceTo(s, limit);
    assert s == r + s[|r|..];
    assert multiset(s) == multiset(r) + multiset(s[|r|..]);
  }

  /**
   * The first `m` elements of a sorted sequence are its top `m`: each of them
   * may come before every element left out.
   */
  lemma SortedPrefixIsTop<T>(s: seq<T>, before: (T, T) -> bool, m: nat)
    requires Sorted(s, before) && m <= |s|
    ensures forall i, j :: 0 <= i < m <= j < |s| ==> before(s[..m][i], s[j])
  {
  }
}
