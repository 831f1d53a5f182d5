/**
 * The standalone dashboard's incremental file reader and its parse cache.
 *
 * This `FilePositionTracker` keeps three dicts (read position, size and
 * mtime per path) and returns what was appended to a file since its last
 * read.  This `BoundedParseCache` keeps parse results under a
 * (path, mtime) key; when it is full it evicts the key with the smallest
 * mtime, the first such key in dict order.  A Python dict iterates in
 * insertion order, so the cache is a sequence of entries with distinct keys.
 *
 * The file system is a parameter of each call: whether the path exists,
 * what `os.stat` reports (or that it raised), and the file's text (or that
 * opening it raised).
 */
module StandaloneCache {
  import opened Wrappers
  import opened Seqs
  import FileTracker

  /** `d.get(key, 0)` on an int-valued dict. */
  function IntAt(m: map<string, int>, key: string): int
  {
    if key in m then m[key] else 0
  }

  /** `d.get(key, 0)` on the mtime dict. */
  function RealAt(m: map<string, real>, key: string): real
  {
    if key in m then m[key] else 0.0
  }

  /** What the tracker remembers about one file. */
  datatype Seen = Seen(position: int, size: int, mtime: real)

  /**
   * One `get_new_content` on a file whose stat is known: nothing when size
   * and mtime are as remembered; otherwise a shrunk file is read from the
   * start, and the text from the remembered position on is returned with
   * what the tracker then remembers.  `None` also stands for a failed open
   * or a negative seek, both of which are caught.
   */
  function Poll(last: Seen, st: FileTracker.Stat, text: Option<string>): (r: Option<(string, Seen)>)
    ensures st.mtime == last.mtime && st.size == last.size ==> r.None?
    ensures r.Some? ==> r.value.1.size == st.size && r.value.1.mtime == st.mtime
  {
    var start := if st.size < last.size then 0 else last.position;
    if st.mtime == last.mtime && st.size == last.size then None
    else if text.None? || start < 0 then None
    else
      var (content, position) := FileTracker.ReadFrom(text.value, start);
      Some((content, Seen(position, st.size, st.mtime)))
  }

  /** A file that has only grown since it was read to its end yields exactly the appended text. */
  lemma AppendedOnly(old_text: string, added: string, oldMtime: real, st: FileTracker.Stat)
    requires st.size >= |old_text| && (st.mtime != oldMtime || st.size != |old_text|)
    ensures Poll(Seen(|old_text|, |old_text|, oldMtime), st, Some(old_text + added))
            == Some((added, Seen(|old_text + added|, st.size, st.mtime)))
  {
    assert (old_text + added)[|old_text|..] == added;
  }

  /** A file that shrank is read again from its start. */
  lemma ShrunkRereads(last: Seen, st: FileTracker.Stat, text: string)
    requires st.size < last.size
    ensures Poll(last, st, Some(text)) == Some((text, Seen(|text|, st.size, st.mtime)))
  {
  }

  /** Two polls of a growing file return, together, the text after the first poll's position. */
  lemma TwoPolls(last: Seen, st1: FileTracker.Stat, t1: string, st2: FileTracker.Stat, added: string)
    requires Poll(last, st1, Some(t1)).Some?
    requires 0 <= last.position <= |t1| && last.size <= st1.size
    requires st1.size <= st2.size && st2.mtime != st1.mtime
    ensures var (c1, seen) := Poll(last, st1, Some(t1)).value;
            Poll(seen, st2, Some(t1 + added)).Some? &&
            c1 + Poll(seen, st2, Some(t1 + added)).value.0 == (t1 + added)[last.position..]
  {
    var (c1, seen) := Poll(last, st1, Some(t1)).value;
    assert c1 == t1[last.position..] && seen.position == |t1|;
    assert (t1 + added)[|t1|..] == added;
    assert t1[last.position..] + added == (t1 + added)[last.position..];
  }

  class FilePositionTracker {
    var positions: map<string, int>
    var sizes: map<string, int>
    var mtimes: map<string, real>

    /** The three dicts are written and cleared together, so they always track the same paths. */
    ghost predicate Valid()
      reads this
    {
      positions.Keys == sizes.Keys && sizes.Keys == mtimes.Keys
    }

    constructor ()
      ensures Valid() && positions == map[] && sizes == map[] && mtimes == map[]
    {
      positions := map[];
      sizes := map[];
      mtimes := map[];
    }

    /** What the tracker remembers about `path`, defaults included. */
    function SeenOf(path: string): Seen
      reads this
    {
      Seen(IntAt(positions, path), IntAt(sizes, path), RealAt(mtimes, path))
    }

    /** `get_new_content`: the text appended since the last read, or `None`. */
    method GetNewContent(path: string, disk: FileTracker.Disk) returns (r: Option<string>)
      requires Valid()
      modifies this
      ensures Valid()
      ensures !disk.present || disk.stat.None? ==> r.None? && unchanged(this)
      ensures disk.present && disk.stat.Some? ==>
                var p := Poll(old(SeenOf(path)), disk.stat.value, disk.text);
                && (p.None? ==> r.None? && unchanged(this))
                && (p.Some? ==>
                      && r == Some(p.value.0)
                      && positions == old(positions)[path := p.value.1.position]
                      && sizes == old(sizes)[path := p.value.1.size]
                      && mtimes == old(mtimes)[path := p.value.1.mtime])
    {
      if !disk.present || disk.stat.None? {
        return None;
      }
      var st := disk.stat.value;
      var lastPos := IntAt(positions, path);
      var lastSize := IntAt(sizes, path);
      var lastMtime := RealAt(mtimes, path);
      if st.size < lastSize {
        lastPos := 0;
      }
      if st.mtime == lastMtime && st.size == lastSize {
        return None;
      }
      if disk.text.None? || lastPos < 0 {
        return None;
      }
      var (content, newPos) := FileTracker.ReadFrom(disk.text.value, lastPos);
      positions := positions[path := newPos];
      sizes := sizes[path := st.size];
      mtimes := mtimes[path := st.mtime];
      r := Some(content);
    }

    /** `reset`: a non-empty path forgets that file; no path, or an empty one, forgets all. */
    method Reset(path: Option<string>)
      requires Valid()
      modifies this
      ensures Valid()
      ensures path.Some? && path.value != "" ==>
                && positions == old(positions) - {path.value}
                && sizes == old(sizes) - {path.value}
                && mtimes == old(mtimes) - {path.value}
      ensures path.None? || path.value == "" ==> positions == map[] && sizes == map[] && mtimes == map[]
    {
      if path.Some? && path.value != "" {
        positions := positions - {path.value};
        sizes := sizes - {path.value};
        mtimes := mtimes - {path.value};
      } else {
        positions := map[];
        sizes := map[];
        mtimes := map[];
      }
    }

    /** `get_full_content`: the whole text, after which the position is the size `os.stat` reported. */
    method GetFullContent(path: string, disk: FileTracker.Disk) returns (r: Option<string>)
      requires Valid()
      modifies this
      ensures Valid()
      ensures disk.present && disk.stat.Some? && disk.text.Some? ==>
                && r == disk.text
                && positions == old(positions)[path := disk.stat.value.size]
                && sizes == old(sizes)[path := disk.stat.value.size]
                && mtimes == old(mtimes)[path := disk.stat.value.mtime]
      ensures !(disk.present && disk.stat.Some? && disk.text.Some?) ==> r.None? && unchanged(this)
    {
      if !disk.present || disk.stat.None? || disk.text.None? {
        return None;
      }
      var st := disk.stat.value;
      positions := positions[path := st.size];
      sizes := sizes[path := st.size];
      mtimes := mtimes[path := st.mtime];
      r := disk.text;
    }
  }

  // ---------------------------------------------------------------------
  // The parse cache

  /** A cache key: a path and the mtime its result was parsed at. */
  type Key = (string, real)

  predicate KeysDistinct<V>(entries: seq<(Key, V)>)
  {
    forall i, j :: 0 <= i < j < |entries| ==> entries[i].0 != entries[j].0
  }

  /** `self._cache.get(key)`. */
  function Find<V>(entries: seq<(Key, V)>, key: Key): (r: Option<V>)
    ensures r.None? <==> forall i :: 0 <= i < |entries| ==> entries[i].0 != key
    ensures r.Some? ==> exists i :: 0 <= i < |entries| && entries[i] == (key, r.value)
  {
    if entries == [] then None
    else if entries[0].0 == key then Some(entries[0].1)
    else
      assert forall i :: 1 <= i < |entries| ==> entries[i] == entries[1..][i - 1];
      Find(entries[1..], key)
  }

  /** Where `key` sits, if cached. */
  function IndexOf<V>(entries: seq<(Key, V)>, key: Key): (r: Option<nat>)
    ensures r.Some? ==> r.value < |entries| && entries[r.value].0 == key
    ensures r.None? <==> forall i :: 0 <= i < |entries| ==> entries[i].0 != key
  {
    if entries == [] then None
    else if entries[0].0 == key then Some(0)
    else
      assert forall i :: 1 <= i < |entries| ==> entries[i] == entries[1..][i - 1];
      var r := IndexOf(entries[1..], key);
      if r.None? then None else Some(r.value + 1)
  }

  /** `min(self._cache.keys(), key=lambda k: k[1])`: the first key, in dict order, of least mtime. */
  function Oldest<V>(entries: seq<(Key, V)>): (i: nat)
    requires entries != []
    ensures i < |entries|
    ensures forall j :: 0 <= j < |entries| ==> entries[i].0.1 <= entries[j].0.1
    ensures forall j :: 0 <= j < i ==> entries[j].0.1 > entries[i].0.1
  {
    if |entries| == 1 then 0
    else
      var k := Oldest(entries[1..]);
      assert forall j :: 1 <= j < |entries| ==> entries[j] == entries[1..][j - 1];
      if entries[0].0.1 <= entries[1..][k].0.1 then 0 else k + 1
  }

  /** The entries without the one at `i`; the others keep their order. */
  function Evicted<V>(entries: seq<(Key, V)>, i: nat): (r: seq<(Key, V)>)
    requires i < |entries|
    ensures |r| == |entries| - 1
    ensures forall j :: 0 <= j < |r| ==> r[j] == if j < i then entries[j] else entries[j + 1]
  {
    entries[..i] + entries[i + 1..]
  }

  /** The entries whose key does not belong to file `path`. */
  function Others<V>(entries: seq<(Key, V)>, path: string): (r: seq<(Key, V)>)
    ensures |r| <= |entries|
  {
    if entries == [] then []
    else (if entries[0].0.0 == path then [] else [entries[0]]) + Others(entries[1..], path)
  }

  /** `[k for k in self._cache.keys() if k[0] == filepath]`. */
  function KeysOf<V>(entries: seq<(Key, V)>, path: string): (r: seq<Key>)
    ensures forall k :: k in r <==> k.0 == path && exists i :: 0 <= i < |entries| && entries[i].0 == k
  {
    if entries == [] then []
    else
      assert forall i :: 1 <= i < |entries| ==> entries[i] == entries[1..][i - 1];
      (if entries[0].0.0 == path then [entries[0].0] else []) + KeysOf(entries[1..], path)
  }

  /** The entries whose key is not among `doomed`. */
  function Without<V>(entries: seq<(Key, V)>, doomed: seq<Key>): seq<(Key, V)>
  {
    if entries == [] then []
    else (if entries[0].0 in doomed then [] else [entries[0]]) + Without(entries[1..], doomed)
  }

  /** `del self._cache[key]`, one more key removed. */
  lemma {:induction false} WithoutOneMore<V>(entries: seq<(Key, V)>, doomed: seq<Key>, key: Key)
    ensures Without(Without(entries, doomed), [key]) == Without(entries, doomed + [key])
  {
    if entries != [] {
      WithoutOneMore(entries[1..], doomed, key);
      var rest := Without(entries[1..], doomed);
      if entries[0].0 in doomed {
        assert Without(entries, doomed) == rest;
      } else {
        assert Without(entries, doomed) == [entries[0]] + rest;
        assert ([entries[0]] + rest)[1..] == rest;
      }
    }
  }

  /** Removing the keys that belong to `path` leaves the other files' entries. */
  lemma {:induction false} WithoutKeysOf<V>(entries: seq<(Key, V)>, doomed: seq<Key>, path: string)
    requires forall i :: 0 <= i < |entries| ==> (entries[i].0 in doomed <==> entries[i].0.0 == path)
    ensures Without(entries, doomed) == Others(entries, path)
  {
    if entries != [] {
      assert forall i :: 1 <= i < |entries| ==> entries[i] == entries[1..][i - 1];
      WithoutKeysOf(entries[1..], doomed, path);
    }
  }

  /** Invalidating a file removes exactly its keys and keeps every other file's result. */
  lemma {:induction false} OthersFind<V>(entries: seq<(Key, V)>, path: string, key: Key)
    ensures Find(Others(entries, path), key) == if key.0 == path then None else Find(entries, key)
  {
    if entries != [] {
      var rest := entries[1..];
      OthersFind(rest, path, key);
      if entries[0].0.0 == path {
        assert Others(entries, path) == Others(rest, path);
        assert key.0 != path ==> Find(entries, key) == Find(rest, key);
      } else {
        var o := [entries[0]] + Others(rest, path);
        assert Others(entries, path) == o;
        assert o[0] == entries[0] && o[1..] == Others(rest, path);
        if entries[0].0 == key {
          assert Find(o, key) == Some(entries[0].1);
        } else {
          assert Find(o, key) == Find(Others(rest, path), key);
        }
      }
    }
  }

  /** Dropping entries keeps the keys distinct. */
  lemma {:induction false} OthersDistinct<V>(entries: seq<(Key, V)>, path: string)
    requires KeysDistinct(entries)
    ensures KeysDistinct(Others(entries, path))
    ensures forall e :: e in Others(entries, path) ==> e in entries
  {
    if entries != [] {
      assert forall i :: 1 <= i < |entries| ==> entries[i] == entries[1..][i - 1];
      OthersDistinct(entries[1..], path);
      var rest := Others(entries[1..], path);
      assert forall e :: e in rest ==> e.0 != entries[0].0;
    }
  }

  /** The cache's invariant: distinct keys, and no more than the bound (a non-positive bound keeps it empty). */
  predicate Bounded<V>(entries: seq<(Key, V)>, maxSize: int)
  {
    KeysDistinct(entries) && (|entries| <= maxSize || entries == [])
  }

  class BoundedParseCache<V> {
    var entries: seq<(Key, V)>
    const maxSize: int

    ghost predicate Valid()
      reads this
    {
      Bounded(entries, maxSize)
    }

    constructor (maxSize: int)
      ensures Valid() && entries == [] && this.maxSize == maxSize
    {
      entries := [];
      this.maxSize := maxSize;
    }

    /** `get`: the result cached for this path at this mtime. */
    function Get(path: string, mtime: real): (r: Option<V>)
      reads this
      ensures r.Some? <==> exists i :: 0 <= i < |entries| && entries[i].0 == (path, mtime)
    {
      Find(entries, (path, mtime))
    }

    /** `size`. */
    function Size(): (n: nat)
      reads this
      requires Valid()
      ensures n <= maxSize || n == 0
    {
      |entries|
    }

    /**
     * `put`: a cached key gets the new result in place and nothing is
     * evicted; a new key is appended, after evicting the first key of least
     * mtime when the cache is full.  `raised` is the `ValueError` of `min`
     * on an empty cache, which a cache with a non-positive bound raises.
     */
    method Put(path: string, mtime: real, result: V) returns (raised: bool)
      requires Valid()
      modifies this
      ensures Valid()
      ensures Find(entries, (path, mtime)).Some? <==> !raised
      ensures !raised ==> Get(path, mtime) == Some(result)
      ensures raised <==> IndexOf(old(entries), (path, mtime)).None? && old(entries) == [] && maxSize <= 0
      ensures raised ==> entries == old(entries)
      ensures IndexOf(old(entries), (path, mtime)).Some? ==>
                entries == old(entries)[IndexOf(old(entries), (path, mtime)).value := ((path, mtime), result)]
      ensures IndexOf(old(entries), (path, mtime)).None? && |old(entries)| < maxSize ==>
                entries == old(entries) + [((path, mtime), result)]
      ensures IndexOf(old(entries), (path, mtime)).None? && |old(entries)| >= maxSize && !raised ==>
                entries == Evicted(old(entries), Oldest(old(entries))) + [((path, mtime), result)]
    {
      var key := (path, mtime);
      var at := IndexOf(entries, key);
      if at.Some? {
        entries := entries[at.value := (key, result)];
        assert forall i :: 0 <= i < |entries| ==> entries[i].0 == old(entries)[i].0;
        assert entries[at.value].0 == key;
        FindAt(entries, at.value);
        return false;
      }
      if |entries| >= maxSize {
        if entries == [] {
          return true;
        }
        var i := Oldest(entries);
        entries := Evicted(entries, i);
      }
      entries := entries + [(key, result)];
      assert entries[|entries| - 1].0 == key;
      FindAt(entries, |entries| - 1);
      raised := false;
    }

    /**
     * `invalidate`: a non-empty path loses every key that belongs to it, the
     * keys collected first and deleted one by one; no path, or an empty one,
     * clears the cache.
     */
    method Invalidate(path: Option<string>)
      requires Valid()
      modifies this
      ensures Valid()
      ensures path.Some? && path.value != "" ==> entries == Others(old(entries), path.value)
      ensures path.None? || path.value == "" ==> entries == []
    {
      if path.Some? && path.value != "" {
        var doomed := KeysOf(entries, path.value);
        var i := 0;
        assert Without(entries, doomed[..0]) == entries by {
          WithoutNothing(entries);
        }
        while i < |doomed|
          invariant 0 <= i <= |doomed|
          invariant entries == Without(old(entries), doomed[..i])
        {
          WithoutOneMore(old(entries), doomed[..i], doomed[i]);
          TakeSnoc(doomed, i);
          entries := Without(entries, [doomed[i]]);
          i := i + 1;
        }
        TakeAll(doomed);
        WithoutKeysOf(old(entries), doomed, path.value);
        OthersDistinct(old(entries), path.value);
      } else {
        entries := [];
      }
    }
  }

  /** With distinct keys, looking a key up finds the value stored beside it. */
  lemma {:induction false} FindAt<V>(entries: seq<(Key, V)>, i: nat)
    requires KeysDistinct(entries) && i < |entries|
    ensures Find(entries, entries[i].0) == Some(entries[i].1)
  {
    if i > 0 {
      assert entries[0].0 != entries[i].0;
      assert entries[1..][i - 1] == entries[i];
      FindAt(entries[1..], i - 1);
    }
  }

  lemma {:induction false} WithoutNothing<V>(entries: seq<(Key, V)>)
    ensures Without(entries, []) == entries
  {
    if entries != [] {
      WithoutNothing(entries[1..]);
    }
  }

  /** Re-putting a cached key never evicts: the cache keeps exactly its keys. */
  lemma RePutKeepsKeys<V>(entries: seq<(Key, V)>, key: Key, result: V)
    requires IndexOf(entries, key).Some?
    ensures var updated := entries[IndexOf(entries, key).value := (key, result)];
            |updated| == |entries| && forall i :: 0 <= i < |entries| ==> updated[i].0 == entries[i].0
  {
  }

  /** The evicted key has an mtime no larger than any key that stays. */
  lemma EvictsOldest<V>(entries: seq<(Key, V)>)
    requires entries != []
    ensures var gone := entries[Oldest(entries)];
            forall e :: e in Evicted(entries, Oldest(entries)) ==> gone.0.1 <= e.0.1
  {
  }
}
