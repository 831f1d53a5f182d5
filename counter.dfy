/**
 * An insertion-ordered dict from names to counts, as the dashboards build
 * `tools_used`, `by_status` and `agent_contributions` with
 * `d[k] = d.get(k, 0) + 1`.
 */
module Counter {
  type Counts<K> = seq<(K, nat)>

  /** `d.get(k, 0)`. */
  function Get<K(==)>(c: Counts<K>, k: K): nat
  {
    if c == [] then 0 else if c[0].0 == k then c[0].1 else Get(c[1..], k)
  }

  /** `d[k] = d.get(k, 0) + 1`: a known key keeps its place, a new one goes last. */
  function Inc<K(==)>(c: Counts<K>, k: K): Counts<K>
  {
    if c == [] then [(k, 1)]
    else if c[0].0 == k then [(k, c[0].1 + 1)] + c[1..]
    else [c[0]] + Inc(c[1..], k)
  }

  /** `sum(d.values())`. */
  function Total<K>(c: Counts<K>): nat
  {
    if c == [] then 0 else c[0].1 + Total(c[1..])
  }

  predicate DistinctKeys<K(==)>(c: Counts<K>)
  {
    forall i, j :: 0 <= i < j < |c| ==> c[i].0 != c[j].0
  }

  /** Counting every name of a list in order. */
  function CountAll<K(==)>(names: seq<K>): Counts<K>
  {
    if names == [] then [] else Inc(CountAll(names[..|names| - 1]), names[|names| - 1])
  }

  lemma {:induction false} IncTotal<K>(c: Counts<K>, k: K)
    ensures Total(Inc(c, k)) == Total(c) + 1
  {
    if c != [] && c[0].0 != k {
      IncTotal(c[1..], k);
    }
  }

  lemma {:induction false} IncGet<K>(c: Counts<K>, k: K, j: K)
    ensures Get(Inc(c, k), j) == Get(c, j) + (if j == k then 1 else 0)
  {
    if c != [] && c[0].0 != k {
      IncGet(c[1..], k, j);
    }
  }

  lemma {:induction false} IncKeys<K>(c: Counts<K>, k: K)
    ensures forall i :: 0 <= i < |Inc(c, k)| ==> Inc(c, k)[i].0 == k || exists j :: 0 <= j < |c| && c[j].0 == Inc(c, k)[i].0
    ensures |Inc(c, k)| == |c| || |Inc(c, k)| == |c| + 1
    ensures forall i :: 0 <= i < |c| ==> Inc(c, k)[i].0 == c[i].0
  {
    if c != [] && c[0].0 != k {
      IncKeys(c[1..], k);
      var r := Inc(c, k);
      forall i | 0 <= i < |r| ensures r[i].0 == k || exists j :: 0 <= j < |c| && c[j].0 == r[i].0 {
        if i > 0 && r[i].0 != k {
          var j :| 0 <= j < |c[1..]| && c[1..][j].0 == r[i].0;
          assert c[j + 1].0 == r[i].0;
        } else if i == 0 {
          assert c[0].0 == r[0].0;
        }
      }
    }
  }

  lemma IncDistinct<K>(c: Counts<K>, k: K)
    requires DistinctKeys(c)
    ensures DistinctKeys(Inc(c, k))
  {
    if c != [] && c[0].0 != k {
      IncDistinct(c[1..], k);
      IncKeys(c[1..], k);
      var r := Inc(c, k);
      forall i, j | 0 <= i < j < |r| ensures r[i].0 != r[j].0 {
        if i == 0 {
          var t := Inc(c[1..], k);
          assert r[j] == t[j - 1];
          if t[j - 1].0 != k {
            var m :| 0 <= m < |c[1..]| && c[1..][m].0 == t[j - 1].0;
            assert c[m + 1].0 == r[j].0;
          }
        }
      }
    }
  }

  /** Counting a list yields one count per element. */
  lemma {:induction false} CountAllTotal<K>(names: seq<K>)
    ensures Total(CountAll(names)) == |names|
  {
    if names != [] {
      CountAllTotal(names[..|names| - 1]);
      IncTotal(CountAll(names[..|names| - 1]), names[|names| - 1]);
    }
  }

  /** Counting a list names each distinct element once. */
  lemma {:induction false} CountAllDistinct<K>(names: seq<K>)
    ensures DistinctKeys(CountAll(names))
  {
    if names != [] {
      CountAllDistinct(names[..|names| - 1]);
      IncDistinct(CountAll(names[..|names| - 1]), names[|names| - 1]);
    }
  }
}
