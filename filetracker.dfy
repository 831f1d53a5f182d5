/**
 * The dashboard server's incremental file reader and its parse cache.
 *
 * `FilePositionTracker` remembers, per output file, how far it has been
 * read, so that each poll returns only what was appended since the last
 * one.  `BoundedParseCache` keeps parse results under string keys, with a
 * size bound and least-recently-used eviction.
 *
 * A Python dict iterates in insertion order, and the tracker's eviction
 * picks the first of the oldest entries in that order, so the tracked files
 * are a sequence of states (each carries its own path) rather than a map.
 * The file system is a parameter of each call: whether the path exists,
 * what `os.stat` reports (or that it failed), and the file's text (or that
 * opening it failed).
 */
module FileTracker {
  import opened Wrappers
  import opened Seqs
  import opened Text
  import opened Json

  /** The per-file record `FileState`; `lastRead` is a clock reading, `None` before the first read. */
  datatype FileState = FileState(path: string, position: nat, lastModified: real, lastSize: int,
                                 lastRead: Option<nat>, errorCount: nat, lineCount: nat)

  /** `FileState(path=file_path)` with every other field at its default. */
  function Untouched(path: string): (s: FileState)
    ensures s.path == path && s.position == 0 && s.lastRead.None? && s.errorCount == 0
  {
    FileState(path, 0, 0.0, 0, None, 0, 0)
  }

  /** What `os.stat` reports about a file. */
  datatype Stat = Stat(size: int, mtime: real)

  /** The file system as one call sees it; `None` stands for the call raising. */
  datatype Disk = Disk(present: bool, stat: Option<Stat>, text: Option<string>)

  /** The eviction key `last_read or datetime.min`: a file never read counts as oldest. */
  function Age(s: FileState): int
  {
    if s.lastRead.None? then -1 else s.lastRead.value
  }

  /** No two tracked states share a path (they are the values of a dict keyed by path). */
  predicate Keyed(files: seq<FileState>)
  {
    forall i, j :: 0 <= i < j < |files| ==> files[i].path != files[j].path
  }

  function Paths(files: seq<FileState>): set<string>
  {
    set i | 0 <= i < |files| :: files[i].path
  }

  /** Where the state for `path` sits. */
  function Find(files: seq<FileState>, path: string): (r: Option<nat>)
    ensures r.Some? ==> r.value < |files| && files[r.value].path == path
    ensures r.None? <==> path !in Paths(files)
  {
    if files == [] then None
    else if files[0].path == path then Some(0)
    else
      var r := Find(files[1..], path);
      assert Paths(files) == {files[0].path} + Paths(files[1..]) by {
        assert forall i :: 1 <= i < |files| ==> files[i] == files[1..][i - 1];
      }
      if r.None? then None else Some(r.value + 1)
  }

  /** `min(self._files.items(), key=...)`: the first entry, in dict order, of least age. */
  function Oldest(files: seq<FileState>): (i: nat)
    requires files != []
    ensures i < |files|
    ensures forall j :: 0 <= j < |files| ==> Age(files[i]) <= Age(files[j])
    ensures forall j :: 0 <= j < i ==> Age(files[j]) > Age(files[i])
  {
    if |files| == 1 then 0
    else
      var k := Oldest(files[1..]);
      assert forall j :: 1 <= j < |files| ==> files[j] == files[1..][j - 1];
      if Age(files[0]) <= Age(files[1..][k]) then 0 else k + 1
  }

  function Without(files: seq<FileState>, i: nat): (r: seq<FileState>)
    requires i < |files|
    ensures |r| == |files| - 1
  {
    files[..i] + files[i + 1..]
  }

  /**
   * `_ensure_capacity`: when the tracker is full, the oldest entry goes.
   * `None` is the `ValueError` that `min` raises on an empty dict, which
   * happens only when the capacity is not positive.
   */
  function Capacity(files: seq<FileState>, maxFiles: int): (r: Option<seq<FileState>>)
    requires Keyed(files)
    ensures r.None? <==> (files == [] && maxFiles <= 0)
    ensures r.Some? ==> Keyed(r.value) && (|r.value| < maxFiles || (|files| > maxFiles && |r.value| == |files| - 1))
    ensures r.Some? ==> Paths(r.value) <= Paths(files)
    ensures |files| < maxFiles ==> r == Some(files)
    ensures |files| >= maxFiles && files != [] ==> r == Some(Without(files, Oldest(files)))
  {
    if |files| < maxFiles then Some(files)
    else if files == [] then None
    else
      var i := Oldest(files);
      var r := Without(files, i);
      assert forall j :: 0 <= j < |r| ==> r[j] == if j < i then files[j] else files[j + 1];
      Some(r)
  }

  /** What `f.seek(position); f.read(); f.tell()` returns on a file holding `text`. */
  function ReadFrom(text: string, position: nat): (r: (string, nat))
    ensures position <= |text| ==> r.0 == text[position..] && r.1 == |text|
    ensures |text| < position ==> r == ("", position)
  {
    if position <= |text| then (text[position..], |text|) else ("", position)
  }

  /** One file's record after a poll, with what the poll returns. */
  datatype Poll = Poll(state: FileState, content: string, hasNew: bool)

  /**
   * The part of `get_new_content` that concerns one tracked file once its
   * stat is known: nothing when size and mtime are unchanged; otherwise a
   * shrunk file is read again from the start, and the text from the stored
   * position on is returned.  A failed open counts an error and keeps the
   * reset of a shrunk file.
   */
  function Refresh(s: FileState, st: Stat, text: Option<string>, now: nat): (r: Poll)
    ensures r.state.path == s.path
    ensures st.mtime == s.lastModified && st.size == s.lastSize ==> r == Poll(s, "", false)
    ensures r.hasNew <==> r.content != ""
    ensures !(st.mtime == s.lastModified && st.size == s.lastSize) && text.Some? ==>
      && r.state.lastSize == st.size && r.state.lastModified == st.mtime
      && r.state.lastRead == Some(now) && r.state.errorCount == 0
      && r.state.lineCount == (if st.size < s.lastSize then 0 else s.lineCount) + CountChar(r.content, '\n')
      && r.content == ReadFrom(text.value, if st.size < s.lastSize then 0 else s.position).0
    ensures !(st.mtime == s.lastModified && st.size == s.lastSize) && text.None? ==>
      && r.content == ""
      && r.state == s.(errorCount := s.errorCount + 1,
                       position := if st.size < s.lastSize then 0 else s.position,
                       lineCount := if st.size < s.lastSize then 0 else s.lineCount)
  {
    if st.mtime == s.lastModified && st.size == s.lastSize then Poll(s, "", false)
    else
      var start := if st.size < s.lastSize then s.(position := 0, lineCount := 0) else s;
      if text.None? then Poll(start.(errorCount := start.errorCount + 1), "", false)
      else
        var (content, position) := ReadFrom(text.value, start.position);
        Poll(start.(position := position, lastModified := st.mtime, lastSize := st.size,
                    lastRead := Some(now), errorCount := 0, lineCount := start.lineCount + CountChar(content, '\n')),
             content, content != "")
  }

  lemma {:induction false} CountCharAppend(a: string, b: string, c: char)
    ensures CountChar(a + b, c) == CountChar(a, c) + CountChar(b, c)
  {
    if a == [] {
      assert a + b == b;
    } else {
      assert (a + b)[0] == a[0] && (a + b)[1..] == a[1..] + b;
      CountCharAppend(a[1..], b, c);
    }
  }

  /**
   * Reading an append-only file in two polls delivers, end to end, exactly
   * what one poll would have delivered, and the line count keeps up with it.
   */
  lemma TwoPolls(s: FileState, st1: Stat, t1: string, st2: Stat, t2: string, now1: nat, now2: nat)
    requires s.position <= |t1| && t1 <= t2
    requires st1.size >= s.lastSize && !(st1.mtime == s.lastModified && st1.size == s.lastSize)
    requires st2.size >= st1.size && st2.mtime != st1.mtime
    ensures var p1 := Refresh(s, st1, Some(t1), now1);
            var p2 := Refresh(p1.state, st2, Some(t2), now2);
            && p1.content + p2.content == t2[s.position..]
            && p2.state.lineCount == s.lineCount + CountChar(t2[s.position..], '\n')
            && p2.state.position == |t2|
  {
    var p1 := Refresh(s, st1, Some(t1), now1);
    var p2 := Refresh(p1.state, st2, Some(t2), now2);
    assert p1.content == t1[s.position..];
    assert p2.content == t2[|t1|..];
    assert t2[s.position..] == t1[s.position..] + t2[|t1|..];
    CountCharAppend(t1[s.position..], t2[|t1|..], '\n');
  }

  /**
   * The record after `get_all_content` read the whole of `text`: the
   * position moves to the end and the read time is stamped; size and mtime
   * keep their old values.
   */
  function Loaded(s: FileState, text: string, now: nat): (r: FileState)
    ensures r.path == s.path && r.position == |text| && r.lastRead == Some(now)
    ensures r.lastModified == s.lastModified && r.lastSize == s.lastSize
    ensures r.errorCount == s.errorCount && r.lineCount == s.lineCount
  {
    s.(position := |text|, lastRead := Some(now))
  }

  /**
   * After the initial load, a poll of the file that finds its stat changed
   * and its text grown delivers exactly what was appended since; a poll of
   * the same text delivers nothing.
   */
  lemma LoadThenPoll(s: FileState, t: string, st: Stat, t2: string, now1: nat, now2: nat)
    requires t <= t2 && st.size >= s.lastSize
    ensures !(st.mtime == s.lastModified && st.size == s.lastSize) ==>
              Refresh(Loaded(s, t, now1), st, Some(t2), now2).content == t2[|t|..]
    ensures Refresh(Loaded(s, t, now1), st, Some(t), now2).content == ""
  {
    var l := Loaded(s, t, now1);
    if !(st.mtime == l.lastModified && st.size == l.lastSize) {
      assert ReadFrom(t, |t|).0 == t[|t|..] == "";
    }
  }

  /** A shrunk file is delivered again from its beginning, with the line count started over. */
  lemma ShrunkRestarts(s: FileState, st: Stat, t: string, now: nat)
    requires st.size < s.lastSize
    ensures var p := Refresh(s, st, Some(t), now);
            p.content == t && p.state.lineCount == CountChar(t, '\n') && p.state.position == |t|
  {
  }

  /** Replace the state stored for `s.path`. */
  function Store(files: seq<FileState>, i: nat, s: FileState): (r: seq<FileState>)
    requires i < |files| && files[i].path == s.path
    ensures |r| == |files| && Paths(r) == Paths(files)
    ensures Keyed(files) ==> Keyed(r)
  {
    assert forall j :: 0 <= j < |files| ==> files[i := s][j].path == files[j].path;
    files[i := s]
  }

  /** `self._files[file_path].error_count += 1` when the file is tracked. */
  function CountError(files: seq<FileState>, path: string): (r: seq<FileState>)
    ensures |r| == |files| && Paths(r) == Paths(files)
    ensures Keyed(files) ==> Keyed(r)
  {
    var i := Find(files, path);
    if i.None? then files else Store(files, i.value, files[i.value].(errorCount := files[i.value].errorCount + 1))
  }

  class FilePositionTracker {
    var files: seq<FileState>
    const maxFiles: int

    ghost predicate Valid()
      reads this
    {
      Keyed(files) && (|files| <= maxFiles || files == [])
    }

    constructor (maxFiles: int)
      ensures Valid() && files == [] && this.maxFiles == maxFiles
    {
      files := [];
      this.maxFiles := maxFiles;
    }

    /** `_ensure_capacity`; `raised` is the `ValueError` of `min` on an empty dict. */
    method EnsureCapacity() returns (raised: bool)
      requires Keyed(files)
      modifies this
      ensures raised == Capacity(old(files), maxFiles).None?
      ensures raised ==> files == old(files)
      ensures !raised ==> files == Capacity(old(files), maxFiles).value
    {
      raised := false;
      if |files| >= maxFiles {
        if files == [] {
          raised := true;
          return;
        }
        var i := Oldest(files);
        files := files[..i] + files[i + 1..];
      }
    }

    /** Get or create the state for `path`, making room first for a new one. */
    method Track(path: string) returns (i: nat, raised: bool)
      requires Valid()
      modifies this
      ensures Valid()
      ensures raised <==> Tracked(old(files), maxFiles, path).None?
      ensures raised ==> files == old(files)
      ensures !raised ==> (files, i) == Tracked(old(files), maxFiles, path).value
    {
      var found := Find(files, path);
      if found.Some? {
        return found.value, false;
      }
      ghost var before := files;
      assert path !in Paths(before);
      raised := EnsureCapacity();
      if raised {
        return 0, true;
      }
      AdmitsWithinBound(before, maxFiles, path);
      var kept := files;
      assert Capacity(before, maxFiles) == Some(kept);
      files := kept + [Untouched(path)];
      i := |kept|;
      assert Tracked(before, maxFiles, path) == Some((files, i));
    }

    /**
     * `get_new_content`: the text appended to `path` since the previous
     * call, and whether there is any.  Every failure is caught and reported
     * as no new content.
     */
    method GetNewContent(path: string, disk: Disk, now: nat) returns (content: string, hasNew: bool)
      requires Valid()
      modifies this
      ensures Valid()
      ensures hasNew <==> content != ""
      ensures !disk.present ==> files == old(files) && content == ""
      ensures disk.present && disk.stat.None? ==> files == CountError(old(files), path) && content == ""
      ensures disk.present && disk.stat.Some? && Tracked(old(files), maxFiles, path).None? ==>
                files == old(files) && content == ""
      ensures disk.present && disk.stat.Some? && Tracked(old(files), maxFiles, path).Some? ==>
                var (tracked, i) := Tracked(old(files), maxFiles, path).value;
                var p := Refresh(tracked[i], disk.stat.value, disk.text, now);
                files == tracked[i := p.state] && content == p.content
    {
      if !disk.present {
        return "", false;
      }
      if disk.stat.None? {
        files := CountError(files, path);
        return "", false;
      }
      var stat := disk.stat.value;
      var i, raised := Track(path);
      if raised {
        return "", false;
      }
      var state := files[i];
      ghost var tracked := files;
      if stat.mtime == state.lastModified && stat.size == state.lastSize {
        return "", false;
      }
      if stat.size < state.lastSize {
        state := state.(position := 0, lineCount := 0);
      }
      if disk.text.None? {
        state := state.(errorCount := state.errorCount + 1);
        files := Store(files, i, state);
        return "", false;
      }
      var read := ReadFrom(disk.text.value, state.position);
      content := read.0;
      state := state.(position := read.1, lastModified := stat.mtime, lastSize := stat.size,
                      lastRead := Some(now), errorCount := 0, lineCount := state.lineCount + CountChar(content, '\n'));
      files := Store(files, i, state);
      hasNew := content != "";
      assert Refresh(tracked[i], stat, disk.text, now) == Poll(state, content, hasNew);
    }

    /**
     * `get_all_content`, the initial load: the whole text, with the file's
     * position moved to its end.  A missing file, a failed read or a
     * raising `_ensure_capacity` returns the empty text and changes nothing.
     */
    method GetAllContent(path: string, disk: Disk, now: nat) returns (content: string)
      requires Valid()
      modifies this
      ensures Valid()
      ensures !disk.present || disk.text.None? || Tracked(old(files), maxFiles, path).None? ==>
                files == old(files) && content == ""
      ensures disk.present && disk.text.Some? && Tracked(old(files), maxFiles, path).Some? ==>
                var (tracked, i) := Tracked(old(files), maxFiles, path).value;
                files == tracked[i := Loaded(tracked[i], disk.text.value, now)] && content == disk.text.value
    {
      if !disk.present || disk.text.None? {
        return "";
      }
      var i, raised := Track(path);
      if raised {
        return "";
      }
      files := Store(files, i, Loaded(files[i], disk.text.value, now));
      content := disk.text.value;
    }

    /** `reset_position`: the next read of a tracked file starts over from its beginning. */
    method ResetPosition(path: string)
      requires Valid()
      modifies this
      ensures Valid()
      ensures path !in Paths(old(files)) ==> files == old(files)
      ensures path in Paths(old(files)) ==>
                var i := Find(old(files), path).value;
                files == old(files)[i := old(files)[i].(position := 0)]
    {
      var found := Find(files, path);
      if found.Some? {
        files := Store(files, found.value, files[found.value].(position := 0));
      }
    }

    /** `clear`. */
    method Clear()
      modifies this
      ensures files == []
    {
      files := [];
    }
  }

  /**
   * The lookup at the head of `get_new_content`: the file's state if it is
   * tracked, otherwise a fresh one appended once `_ensure_capacity` made
   * room; `None` when that raised.
   */
  function Tracked(files: seq<FileState>, maxFiles: int, path: string): (r: Option<(seq<FileState>, nat)>)
    requires Keyed(files)
    ensures r.Some? ==> r.value.1 < |r.value.0| && r.value.0[r.value.1].path == path
    ensures path in Paths(files) ==> r == Some((files, Find(files, path).value))
  {
    match Find(files, path)
    case Some(i) => Some((files, i))
    case None =>
      match Capacity(files, maxFiles)
      case None => None
      case Some(kept) => Some((kept + [Untouched(path)], |kept|))
  }

  /** A tracker that is full and gets a new file drops exactly its oldest entry to make room. */
  lemma AdmitsWithinBound(files: seq<FileState>, maxFiles: int, path: string)
    requires Keyed(files) && (|files| <= maxFiles || files == []) && path !in Paths(files)
    ensures var r := Capacity(files, maxFiles);
            r.Some? ==> |r.value| + 1 <= maxFiles && Keyed(r.value + [Untouched(path)])
    ensures var r := Capacity(files, maxFiles);
            r.Some? && |files| == maxFiles ==>
              exists i :: 0 <= i < |files| && r.value == Without(files, i)
                && (forall j :: 0 <= j < |files| ==> Age(files[i]) <= Age(files[j]))
  {
    var r := Capacity(files, maxFiles);
    if r.Some? {
      forall j | 0 <= j < |r.value| ensures r.value[j].path != path {
        assert r.value[j].path in Paths(r.value);
      }
      if |files| == maxFiles {
        var i := Oldest(files);
        assert r.value == Without(files, i);
      }
    }
  }

  /** `f"{filepath}:{mtime}"`; the float's text is taken as given. */
  function MtimeKey(filepath: string, mtimeText: string): string
  {
    filepath + ":" + mtimeText
  }

  /** `k.startswith(f"{filepath}:")`. */
  predicate OfFile(k: string, filepath: string)
  {
    StartsWith(k, filepath + ":")
  }

  /**
   * The keys `set_with_mtime` makes for a file are exactly the ones
   * `invalidate_file` drops for it, as long as paths hold no ':'.
   */
  lemma MtimeKeysOfFile(p: string, q: string, m: string)
    requires !Contains(p, ":") && !Contains(q, ":")
    ensures OfFile(MtimeKey(q, m), p) <==> p == q
  {
    var k := MtimeKey(q, m);
    if OfFile(k, p) {
      forall j | 0 <= j < |q| ensures k[j] != ':' {
        CharOccurs(q, j, ':');
        assert k[j] == q[j];
      }
      assert k[..|p| + 1] == p + ":";
      forall j | 0 <= j < |p| ensures k[j] != ':' {
        CharOccurs(p, j, ':');
        assert k[j] == p[j];
      }
      assert k[|p|] == ':' && k[|q|] == ':';
      assert |p| == |q|;
      assert p == k[..|p|] && q == k[..|q|];
    } else {
      assert k[..|q| + 1] == q + ":";
    }
  }

  /** A path with a ':' in it loses its cache entries when a shorter path is invalidated. */
  lemma ColonPathsShareEntries()
    ensures OfFile(MtimeKey("out:1", "5.0"), "out") && "out:1" != "out"
  {
    assert MtimeKey("out:1", "5.0")[..4] == "out:";
  }

  /** `list.remove(x)`: drop the first occurrence. */
  function Remove(s: seq<string>, x: string): (r: seq<string>)
    ensures x !in s ==> r == s
    ensures x in s ==> |r| == |s| - 1
  {
    if s == [] then []
    else if s[0] == x then s[1..]
    else [s[0]] + Remove(s[1..], x)
  }

  /** In a duplicate-free list, `remove` takes out exactly that element and keeps the list duplicate-free. */
  lemma {:induction false} RemoveDistinct(s: seq<string>, x: string)
    requires Distinct(s)
    ensures Distinct(Remove(s, x)) && forall y :: y in Remove(s, x) <==> y in s && y != x
  {
    if s != [] {
      assert s == [s[0]] + s[1..];
      assert Distinct(s[1..]);
      RemoveDistinct(s[1..], x);
      if s[0] != x {
        var r := Remove(s[1..], x);
        assert s[0] !in s[1..];
        assert s[0] !in r;
        assert Remove(s, x) == [s[0]] + r;
      }
    }
  }

  /** The elements of `s` that are not in `d`, in order. */
  function Drop(s: seq<string>, d: seq<string>): seq<string>
  {
    if s == [] then [] else (if s[0] in d then [] else [s[0]]) + Drop(s[1..], d)
  }

  /** The keys of `s` that do not belong to the file, in order. */
  function OtherFiles(s: seq<string>, filepath: string): seq<string>
  {
    if s == [] then [] else (if OfFile(s[0], filepath) then [] else [s[0]]) + OtherFiles(s[1..], filepath)
  }

  /** The keys of `s` that belong to the file, in order: `keys_to_remove`. */
  function OfFileKeys(s: seq<string>, filepath: string): (r: seq<string>)
    ensures forall y :: y in r <==> y in s && OfFile(y, filepath)
  {
    if s == [] then [] else (if OfFile(s[0], filepath) then [s[0]] else []) + OfFileKeys(s[1..], filepath)
  }

  lemma {:induction false} DropMembers(s: seq<string>, d: seq<string>, y: string)
    ensures y in Drop(s, d) <==> y in s && y !in d
  {
    if s != [] {
      DropMembers(s[1..], d, y);
      assert s == [s[0]] + s[1..];
    }
  }

  lemma {:induction false} DropDistinct(s: seq<string>, d: seq<string>)
    requires Distinct(s)
    ensures Distinct(Drop(s, d))
  {
    if s != [] {
      assert Distinct(s[1..]);
      DropDistinct(s[1..], d);
      DropMembers(s[1..], d, s[0]);
      assert s[0] !in s[1..];
    }
  }

  lemma {:induction false} DropNothing(s: seq<string>)
    ensures Drop(s, []) == s
  {
    if s != [] {
      DropNothing(s[1..]);
    }
  }

  /** Removing one more key from a duplicate-free list is dropping one more. */
  lemma {:induction false} DropOneMore(s: seq<string>, d: seq<string>, x: string)
    requires Distinct(s)
    ensures Remove(Drop(s, d), x) == Drop(s, d + [x])
  {
    if s != [] {
      assert Distinct(s[1..]);
      var rest := Drop(s[1..], d);
      var rest' := Drop(s[1..], d + [x]);
      if s[0] in d {
        DropOneMore(s[1..], d, x);
        assert s[0] in d + [x];
        assert Drop(s, d) == rest && Drop(s, d + [x]) == rest';
      } else if s[0] == x {
        assert Drop(s, d) == [x] + rest;
        assert ([x] + rest)[1..] == rest;
        assert x !in s[1..];
        DropSame(s[1..], d, d + [x]);
        assert s[0] in d + [x];
        assert Drop(s, d + [x]) == rest';
      } else {
        DropOneMore(s[1..], d, x);
        assert s[0] !in d + [x];
        assert Drop(s, d) == [s[0]] + rest && Drop(s, d + [x]) == [s[0]] + rest';
      }
    }
  }

  /** Dropping two lists that agree on the elements present gives the same result. */
  lemma {:induction false} DropSame(s: seq<string>, d: seq<string>, e: seq<string>)
    requires forall y :: y in s ==> (y in d <==> y in e)
    ensures Drop(s, d) == Drop(s, e)
  {
    if s != [] {
      DropSame(s[1..], d, e);
    }
  }

  /** Dropping exactly the file's keys leaves the other files' keys. */
  lemma {:induction false} DropOfFile(s: seq<string>, d: seq<string>, filepath: string)
    requires forall y :: y in s ==> (y in d <==> OfFile(y, filepath))
    ensures Drop(s, d) == OtherFiles(s, filepath)
  {
    if s != [] {
      DropOfFile(s[1..], d, filepath);
    }
  }

  /** The entries of `m` whose keys are not listed in `d`. */
  function Minus(m: map<string, Json>, d: seq<string>): map<string, Json>
  {
    map k | k in m && k !in d :: m[k]
  }

  lemma {:induction false} MinusSize(m: map<string, Json>, d: seq<string>)
    ensures |Minus(m, d)| <= |m|
    decreases |d|
  {
    if d == [] {
      assert Minus(m, d) == m;
    } else {
      var front := d[..|d| - 1];
      MinusSize(m, front);
      assert d == front + [d[|d| - 1]];
      assert Minus(m, d) == Minus(m, front) - {d[|d| - 1]};
      MapRemoveSize(Minus(m, front), d[|d| - 1]);
    }
  }

  lemma MapRemoveSize(m: map<string, Json>, k: string)
    ensures |m - {k}| <= |m|
  {
    if k !in m {
      assert m - {k} == m;
    }
  }

  /**
   * The deletion loop of `invalidate_file`: each listed key leaves the
   * dict and the access order.
   */
  method DeleteKeys(cache: map<string, Json>, order: seq<string>, doomed: seq<string>)
    returns (c: map<string, Json>, o: seq<string>)
    requires Distinct(order)
    ensures c == Minus(cache, doomed) && o == Drop(order, doomed)
  {
    c, o := cache, order;
    ghost var done: seq<string> := [];
    DropNothing(order);
    var todo := doomed;
    while todo != []
      invariant done + todo == doomed
      invariant c == Minus(cache, done)
      invariant o == Drop(order, done)
    {
      var key := todo[0];
      assert c - {key} == Minus(cache, done + [key]);
      c := c - {key};
      DropOneMore(order, done, key);
      o := Remove(o, key);
      done := done + [key];
      todo := todo[1..];
    }
    assert done + todo == done;
  }

  /** Deleting listed keys from both the dict and the access order keeps them in step. */
  lemma DeletedInStep(cache: map<string, Json>, order: seq<string>, doomed: seq<string>, maxSize: int)
    requires Lru(order, cache, maxSize)
    ensures Lru(Drop(order, doomed), Minus(cache, doomed), maxSize)
  {
    MinusSize(cache, doomed);
    DropDistinct(order, doomed);
    forall k ensures k in Drop(order, doomed) <==> k in Minus(cache, doomed) {
      DropMembers(order, doomed, k);
    }
  }

  /** `get_stats`; the hit rate is the exact percentage (Python rounds it to one decimal). */
  datatype CacheStats = CacheStats(size: nat, maxSize: int, hits: nat, misses: nat, hitRate: real)

  function HitRate(hits: nat, misses: nat): (r: real)
    ensures 0.0 <= r <= 100.0
    ensures r == 100.0 <==> hits > 0 && misses == 0
    ensures r == 0.0 <==> hits == 0
  {
    if hits + misses > 0 then (hits as real) / ((hits + misses) as real) * 100.0 else 0.0
  }

  /**
   * The cache's invariant: the access order lists every cached key exactly
   * once, and the cache holds no more than its bound (a cache whose bound is
   * not positive stays empty).
   */
  predicate Lru(order: seq<string>, cache: map<string, Json>, maxSize: int)
  {
    && Distinct(order)
    && (forall k :: k in order ==> k in cache) && (forall k :: k in cache ==> k in order)
    && (|cache| <= maxSize || cache == map[])
  }

  /** A hit, or a `set` of a cached key, moves the key to the end and keeps the invariant. */
  lemma LruTouch(order: seq<string>, cache: map<string, Json>, maxSize: int, key: string, value: Json)
    requires Lru(order, cache, maxSize) && key in cache
    ensures Lru(Remove(order, key) + [key], cache[key := value], maxSize)
  {
    RemoveDistinct(order, key);
    assert cache[key := value].Keys == cache.Keys;
  }

  /** A new key below the bound is appended and keeps the invariant. */
  lemma LruAdd(order: seq<string>, cache: map<string, Json>, maxSize: int, key: string, value: Json)
    requires Lru(order, cache, maxSize) && key !in cache && |cache| < maxSize
    ensures Lru(order + [key], cache[key := value], maxSize)
  {
  }

  /** A new key at the bound evicts the head of the order and keeps the invariant. */
  lemma LruEvict(order: seq<string>, cache: map<string, Json>, maxSize: int, key: string, value: Json)
    requires Lru(order, cache, maxSize) && key !in cache && |cache| >= maxSize && order != []
    ensures Lru(order[1..] + [key], (cache - {order[0]})[key := value], maxSize)
  {
    var rest := order[1..];
    var c := cache - {order[0]};
    assert forall i :: 0 <= i < |rest| ==> rest[i] == order[i + 1];
    assert Distinct(rest) && order[0] !in rest;
    assert key !in rest;
    assert Distinct(rest + [key]);
    forall k | k in rest + [key] ensures k in c[key := value] {
      if k != key {
        assert k in rest;
      }
    }
    forall k | k in c[key := value] ensures k in rest + [key] {
      if k != key {
        assert k in order && k != order[0];
      }
    }
    assert |c| == |cache| - 1;
  }

  /** Dropping a cached key from both keeps the invariant. */
  lemma LruRemove(order: seq<string>, cache: map<string, Json>, maxSize: int, key: string)
    requires Lru(order, cache, maxSize) && key in cache
    ensures Lru(Remove(order, key), cache - {key}, maxSize)
  {
    RemoveDistinct(order, key);
  }

  class BoundedParseCache {
    var cache: map<string, Json>
    /** `_access_order`: least recently used first. */
    var order: seq<string>
    var hits: nat
    var misses: nat
    const maxSize: int

    ghost predicate Valid()
      reads this
    {
      Lru(order, cache, maxSize)
    }

    constructor (maxSize: int)
      ensures Valid() && cache == map[] && order == [] && hits == 0 && misses == 0 && this.maxSize == maxSize
    {
      cache := map[];
      order := [];
      hits := 0;
      misses := 0;
      this.maxSize := maxSize;
    }

    /** `get`: a hit moves the key to the most recently used end. */
    method Get(key: string) returns (r: Option<Json>)
      requires Valid()
      modifies this
      ensures Valid() && cache == old(cache)
      ensures key in old(cache) ==>
                r == Some(old(cache)[key]) && order == Remove(old(order), key) + [key]
                && hits == old(hits) + 1 && misses == old(misses)
      ensures key !in old(cache) ==>
                r == None && order == old(order) && hits == old(hits) && misses == old(misses) + 1
    {
      if key in cache {
        LruTouch(order, cache, maxSize, key, cache[key]);
        assert cache[key := cache[key]] == cache;
        order := Remove(order, key) + [key];
        hits := hits + 1;
        return Some(cache[key]);
      }
      misses := misses + 1;
      return None;
    }

    /** `get_with_mtime`: `get` under the key `path:mtime`, with all of its effects. */
    method GetWithMtime(filepath: string, mtimeText: string) returns (r: Option<Json>)
      requires Valid()
      modifies this
      ensures Valid() && cache == old(cache)
      ensures var key := MtimeKey(filepath, mtimeText);
              && (key in old(cache) ==>
                    r == Some(old(cache)[key]) && order == Remove(old(order), key) + [key]
                    && hits == old(hits) + 1 && misses == old(misses))
              && (key !in old(cache) ==>
                    r == None && order == old(order) && hits == old(hits) && misses == old(misses) + 1)
    {
      r := Get(MtimeKey(filepath, mtimeText));
    }

    /**
     * `set`: a known key is refreshed without evicting anything; a new key
     * in a full cache evicts the least recently used one.  `raised` is the
     * `IndexError` of popping an empty order, which a cache whose bound is
     * not positive raises, unchanged.
     */
    method Set(key: string, value: Json) returns (raised: bool)
      requires Valid()
      modifies this
      ensures Valid() && hits == old(hits) && misses == old(misses)
      ensures raised <==> key !in old(cache) && old(cache) == map[] && maxSize <= 0
      ensures raised ==> cache == old(cache) && order == old(order)
      ensures key in old(cache) ==> cache == old(cache)[key := value] && order == Remove(old(order), key) + [key]
      ensures key !in old(cache) && |old(cache)| < maxSize ==>
                cache == old(cache)[key := value] && order == old(order) + [key]
      ensures key !in old(cache) && |old(cache)| >= maxSize && !raised ==>
                cache == (old(cache) - {old(order)[0]})[key := value] && order == old(order)[1..] + [key]
    {
      raised := false;
      if key in cache {
        LruTouch(order, cache, maxSize, key, value);
        order := Remove(order, key);
      } else if |cache| >= maxSize {
        if order == [] {
          assert cache.Keys == {} by {
            assert forall k :: k in cache ==> k in order;
          }
          return true;
        }
        LruEvict(order, cache, maxSize, key, value);
        var oldest := order[0];
        order := order[1..];
        cache := cache - {oldest};
      } else {
        LruAdd(order, cache, maxSize, key, value);
      }
      cache := cache[key := value];
      order := order + [key];
    }

    /** `set_with_mtime`: `set` under the key `path:mtime`, with all of its effects. */
    method SetWithMtime(filepath: string, mtimeText: string, value: Json) returns (raised: bool)
      requires Valid()
      modifies this
      ensures Valid() && hits == old(hits) && misses == old(misses)
      ensures !raised ==> MtimeKey(filepath, mtimeText) in cache && cache[MtimeKey(filepath, mtimeText)] == value
      ensures var key := MtimeKey(filepath, mtimeText);
              && (raised <==> key !in old(cache) && old(cache) == map[] && maxSize <= 0)
              && (raised ==> cache == old(cache) && order == old(order))
              && (key in old(cache) ==> cache == old(cache)[key := value] && order == Remove(old(order), key) + [key])
              && (key !in old(cache) && |old(cache)| < maxSize ==>
                    cache == old(cache)[key := value] && order == old(order) + [key])
              && (key !in old(cache) && |old(cache)| >= maxSize && !raised ==>
                    cache == (old(cache) - {old(order)[0]})[key := value] && order == old(order)[1..] + [key])
    {
      raised := Set(MtimeKey(filepath, mtimeText), value);
    }

    /** `invalidate`. */
    method Invalidate(key: string)
      requires Valid()
      modifies this
      ensures Valid() && hits == old(hits) && misses == old(misses)
      ensures cache == old(cache) - {key} && order == Remove(old(order), key)
    {
      if key in cache {
        LruRemove(order, cache, maxSize, key);
        cache := cache - {key};
        order := Remove(order, key);
      }
    }

    /** `invalidate_file`: drop every entry whose key starts with the path and a ':'. */
    method InvalidateFile(filepath: string)
      requires Valid()
      modifies this
      ensures Valid() && hits == old(hits) && misses == old(misses)
      ensures forall k :: k in cache <==> k in old(cache) && !OfFile(k, filepath)
      ensures forall k :: k in cache ==> cache[k] == old(cache)[k]
      ensures order == OtherFiles(old(order), filepath)
    {
      var doomed := OfFileKeys(order, filepath);
      DeletedInStep(cache, order, doomed, maxSize);
      var c, o := DeleteKeys(cache, order, doomed);
      DropOfFile(order, doomed, filepath);
      cache, order := c, o;
    }

    /** `clear`: the counters start over too. */
    method Clear()
      modifies this
      ensures cache == map[] && order == [] && hits == 0 && misses == 0
    {
      cache := map[];
      order := [];
      hits := 0;
      misses := 0;
    }

    /** `get_stats`. */
    method Stats() returns (s: CacheStats)
      requires Valid()
      ensures s.size == |cache| && s.hits == hits && s.misses == misses && s.maxSize == maxSize
      ensures s.hitRate == HitRate(hits, misses)
      ensures maxSize > 0 ==> s.size <= maxSize
    {
      s := CacheStats(|cache|, maxSize, hits, misses, HitRate(hits, misses));
    }
  }
}
