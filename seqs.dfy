/**
 * Python's slice forms on lists and strings.  Python accepts any integer in a
 * slice and counts a negative one from the end; the scripts rely on this for
 * `xs[:n]` and `xs[-n:]`.
 */
module Seqs {
  function Clamp(k: int, n: nat): (r: nat)
  {
    if k < 0 then 0 else if k > n then n else k
  }

  /** Python `s[:k]`. */
  function PyUpTo<T>(s: seq<T>, k: int): (r: seq<T>)
    ensures 0 <= k ==> |r| == if k < |s| then k else |s|
    ensures k < 0 ==> |r| == Clamp(|s| + k, |s|)
    ensures r <= s
  {
    if k >= 0 then s[..Clamp(k, |s|)] else s[..Clamp(|s| + k, |s|)]
  }

  /** Python `s[k:]`. */
  function PyFrom<T>(s: seq<T>, k: int): (r: seq<T>)
    ensures |r| <= |s| && r == s[|s| - |r|..]
    ensures k < 0 ==> |r| == if -k < |s| then -k else |s|
    ensures k >= 0 ==> |r| == |s| - Clamp(k, |s|)
  {
    if k >= 0 then s[Clamp(k, |s|)..] else s[Clamp(|s| + k, |s|)..]
  }

  /** Python `s[-n:]` for a count n (note that `s[-0:]` is the whole of s). */
  function LastN<T>(s: seq<T>, n: nat): seq<T>
  {
    PyFrom(s, -(n as int))
  }

  predicate Distinct<T(==)>(s: seq<T>)
  {
    forall i, j :: 0 <= i < j < |s| ==> s[i] != s[j]
  }

  function Filter<T>(s: seq<T>, keep: T -> bool): (r: seq<T>)
    ensures |r| <= |s|
  {
    if s == [] then [] else (if keep(s[0]) then [s[0]] else []) + Filter(s[1..], keep)
  }

  function CountIf<T>(s: seq<T>, p: T -> bool): (n: nat)
    ensures n <= |s|
  {
    if s == [] then 0 else (if p(s[0]) then 1 else 0) + CountIf(s[1..], p)
  }

  lemma FilterAppend<T>(s: seq<T>, x: T, keep: T -> bool)
    ensures Filter(s + [x], keep) == Filter(s, keep) + (if keep(x) then [x] else [])
  {
    if s != [] {
      assert (s + [x])[1..] == s[1..] + [x];
      FilterAppend(s[1..], x, keep);
    }
  }

  lemma CountIfAppend<T>(s: seq<T>, x: T, p: T -> bool)
    ensures CountIf(s + [x], p) == CountIf(s, p) + (if p(x) then 1 else 0)
  {
    if s != [] {
      assert (s + [x])[1..] == s[1..] + [x];
      CountIfAppend(s[1..], x, p);
    }
  }

  lemma {:induction false} FilterMembers<T>(s: seq<T>, keep: T -> bool, x: T)
    ensures x in Filter(s, keep) <==> x in s && keep(x)
  {
    if s != [] {
      FilterMembers(s[1..], keep, x);
      assert s == [s[0]] + s[1..];
    }
  }

  lemma {:induction false} FilterLength<T>(s: seq<T>, keep: T -> bool)
    ensures |Filter(s, keep)| == CountIf(s, keep)
  {
    if s != [] {
      FilterLength(s[1..], keep);
    }
  }

  lemma {:induction false} FilterIdempotent<T>(s: seq<T>, keep: T -> bool)
    ensures Filter(Filter(s, keep), keep) == Filter(s, keep)
  {
    if s != [] {
      FilterIdempotent(s[1..], keep);
      var f := Filter(s, keep);
      if keep(s[0]) {
        assert f == [s[0]] + Filter(s[1..], keep);
        assert f[0] == s[0] && f[1..] == Filter(s[1..], keep);
        assert Filter(f, keep) == [s[0]] + Filter(f[1..], keep);
      } else {
        assert f == [] + Filter(s[1..], keep);
        assert f == Filter(s[1..], keep);
      }
    }
  }

  /** Keeping the last n of a list that already ends in the last n of a longer one gives the same n. */
  lemma LastNOfSuffix<T>(s: seq<T>, t: seq<T>, n: nat)
    requires |s| <= |t| && s == t[|t| - |s|..]
    requires 0 < n <= |s| || s == t
    ensures LastN(s, n) == LastN(t, n)
  {
    if s != t {
      assert LastN(s, n) == s[|s| - n..];
      assert LastN(t, n) == t[|t| - n..];
      assert s[|s| - n..] == t[|t| - n..];
    }
  }

  /** Trimming to the last n before appending changes nothing about the last n after it. */
  lemma LastNAppend<T>(x: seq<T>, y: seq<T>, n: nat)
    ensures LastN(LastN(x, n) + y, n) == LastN(x + y, n)
  {
    if n > 0 {
      var u := LastN(x, n);
      assert u + y == (x + y)[|x + y| - |u + y|..];
      LastNOfSuffix(u + y, x + y, n);
    }
  }

  /** Concatenation regroups. */
  lemma AppendAssoc<T>(x: seq<T>, y: seq<T>, z: seq<T>)
    ensures x + y + z == x + (y + z)
  {
  }

  /** The empty sequence is a unit of concatenation. */
  lemma EmptyAppend<T>(x: seq<T>)
    ensures [] + x == x && x + [] == x
  {
  }

  /** A prefix one longer is the prefix and the next element. */
  lemma TakeSnoc<T>(s: seq<T>, i: nat)
    requires i < |s|
    ensures s[..i + 1] == s[..i] + [s[i]] && s[..i + 1][..i] == s[..i]
  {
  }

  /** The prefix of full length is the whole sequence. */
  lemma UpdateLast<T>(w: seq<T>, x: T, y: T) ensures (w + [x])[|w| := y] == w + [y] {}
  lemma TakeAll<T>(s: seq<T>)
    ensures s[..|s|] == s
  {
  }

  /** A non-empty set has a member to pick. */
  lemma NonEmptyHasMember<T>(s: set<T>) returns (x: T)
    requires s != {}
    ensures x in s
  {
    if forall y :: y !in s {
      assert false;
    }
    x :| x in s;
  }
}
