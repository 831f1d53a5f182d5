/**
 * Python's `sorted`, which is stable: a stable insertion sort over a strict
 * weak order `lt` ("a sorts before b").  `sorted(xs, key=k, reverse=True)`
 * is the order `k(a) > k(b)`, which also keeps equal keys in their
 * original order.
 */
module Sorting {
  ghost predicate StrictWeakOrder<T(!new)>(lt: (T, T) -> bool)
  {
    (forall a, b :: lt(a, b) ==> !lt(b, a))
    && (forall a, b, c :: lt(a, c) ==> lt(a, b) || lt(b, c))
  }

  /** No element sorts before an element that precedes it. */
  ghost predicate Sorted<T>(s: seq<T>, lt: (T, T) -> bool)
  {
    forall i, j :: 0 <= i < j < |s| ==> !lt(s[j], s[i])
  }

  /** Places x after the elements that sort strictly before it. */
  function Insert<T>(x: T, s: seq<T>, lt: (T, T) -> bool): (r: seq<T>)
    ensures |r| == |s| + 1
    ensures multiset(r) == multiset(s) + multiset{x}
  {
    if s == [] then [x]
    else if lt(s[0], x) then
      assert s == [s[0]] + s[1..];
      [s[0]] + Insert(x, s[1..], lt)
    else [x] + s
  }

  function Sort<T>(s: seq<T>, lt: (T, T) -> bool): (r: seq<T>)
    ensures |r| == |s|
    ensures multiset(r) == multiset(s)
  {
    if s == [] then []
    else
      assert s == [s[0]] + s[1..];
      Insert(s[0], Sort(s[1..], lt), lt)
  }

  lemma {:induction false} InsertSorted<T(!new)>(x: T, s: seq<T>, lt: (T, T) -> bool)
    requires StrictWeakOrder(lt) && Sorted(s, lt)
    ensures Sorted(Insert(x, s, lt), lt)
  {
    if s != [] {
      var r := Insert(x, s, lt);
      if lt(s[0], x) {
        var t := Insert(x, s[1..], lt);
        InsertSorted(x, s[1..], lt);
        forall j | 1 <= j < |r| ensures !lt(r[j], r[0]) {
          assert r[j] == t[j - 1];
          assert r[j] in multiset(t);
          assert r[j] in multiset(s[1..]) || r[j] == x;
          if r[j] != x {
            var m :| 0 <= m < |s[1..]| && s[1..][m] == r[j];
            assert s[m + 1] == r[j];
          }
        }
      } else {
        forall j | 1 <= j < |r| ensures !lt(r[j], r[0]) {
          assert r[j] == s[j - 1];
          if j - 1 > 0 {
            assert !lt(s[j - 1], s[0]);
          }
        }
      }
    }
  }

  lemma {:induction false} SortSorted<T(!new)>(s: seq<T>, lt: (T, T) -> bool)
    requires StrictWeakOrder(lt)
    ensures Sorted(Sort(s, lt), lt)
  {
    if s != [] {
      SortSorted(s[1..], lt);
      InsertSorted(s[0], Sort(s[1..], lt), lt);
    }
  }

  /** Sorting input that is already in order changes nothing (the sort is stable). */
  lemma {:induction false} SortOfSorted<T>(s: seq<T>, lt: (T, T) -> bool)
    requires Sorted(s, lt)
    ensures Sort(s, lt) == s
  {
    if s != [] {
      SortOfSorted(s[1..], lt);
      if |s| > 1 {
        assert !lt(s[1], s[0]);
        assert s == [s[0]] + s[1..];
      }
    }
  }

  /** Two elements out of order are swapped. */
  lemma SwapsPair<T>(x: T, y: T, lt: (T, T) -> bool)
    requires lt(y, x)
    ensures Sort([x, y], lt) == [y, x]
  {
    assert [x, y][1..] == [y];
    assert Sort([y], lt) == [y];
    assert Insert(x, [y], lt) == [y] + Insert(x, [], lt);
  }
}
