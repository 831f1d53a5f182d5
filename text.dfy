/**
 * The parts of Python's `str` that the scripts use: ASCII case folding,
 * prefix and substring tests, `find`, `split`, `join`, `replace`, `strip`
 * and decimal conversion.
 */
module Text {
  import opened Wrappers

  /** `str.lower()` on one character; only ASCII letters are folded here. */
  function LowerChar(c: char): char
  {
    if 'A' <= c <= 'Z' then (c as int + 32) as char else c
  }

  function Lower(s: string): (r: string)
    ensures |r| == |s|
  {
    seq(|s|, i requires 0 <= i < |s| => LowerChar(s[i]))
  }

  /** `str.upper()` on one character, the inverse direction of `LowerChar`; only ASCII letters are mapped. */
  function UpperChar(c: char): char
  {
    if 'a' <= c <= 'z' then (c as int - 32) as char else c
  }

  function Upper(s: string): (r: string)
    ensures |r| == |s|
  {
    seq(|s|, i requires 0 <= i < |s| => UpperChar(s[i]))
  }

  /** Upper- and lower-case spellings of a text fold to the same lower-case text. */
  lemma LowerOfUpper(s: string)
    ensures Lower(Upper(s)) == Lower(s)
  {
    forall i | 0 <= i < |s| ensures Lower(Upper(s))[i] == Lower(s)[i] {
      assert Upper(s)[i] == UpperChar(s[i]);
    }
  }

  predicate StartsWith(s: string, p: string)
  {
    |p| <= |s| && s[..|p|] == p
  }

  predicate EndsWith(s: string, p: string)
  {
    |p| <= |s| && s[|s| - |p|..] == p
  }

  lemma StartsWithAppend(p: string, q: string)
    ensures StartsWith(p + q, p)
  {
    assert (p + q)[..|p|] == p;
  }

  lemma EndsWithAppend(p: string, q: string)
    ensures EndsWith(p + q, q)
  {
    assert (p + q)[|p + q| - |q|..] == q;
  }

  /** p occurs in s at index i. */
  predicate Occurs(s: string, p: string, i: int)
  {
    0 <= i && i + |p| <= |s| && s[i..i + |p|] == p
  }

  /** Python's `p in s`. */
  predicate Contains(s: string, p: string)
  {
    exists i | 0 <= i <= |s| :: Occurs(s, p, i)
  }

  lemma OccursShift(s: string, p: string, j: int)
    requires |s| > 0 && j >= 0
    ensures Occurs(s, p, j + 1) <==> Occurs(s[1..], p, j)
  {
    if 0 <= j && j + 1 + |p| <= |s| {
      assert s[1..][j..j + |p|] == s[j + 1..j + 1 + |p|];
    }
  }

  /** Python's `s.find(p)`, with `None` for -1. */
  function IndexOf(s: string, p: string): (r: Option<nat>)
    ensures r.Some? ==> Occurs(s, p, r.value)
    ensures r.Some? ==> forall j :: 0 <= j < r.value ==> !Occurs(s, p, j)
    ensures r.None? ==> forall j :: !Occurs(s, p, j)
    decreases |s|
  {
    if StartsWith(s, p) then Some(0)
    else if |s| == 0 then None
    else
      var rest := IndexOf(s[1..], p);
      assert forall j :: j >= 0 ==> (Occurs(s, p, j + 1) <==> Occurs(s[1..], p, j)) by {
        forall j | j >= 0 ensures Occurs(s, p, j + 1) <==> Occurs(s[1..], p, j) {
          OccursShift(s, p, j);
        }
      }
      assert !Occurs(s, p, 0);
      assert forall j :: j >= 1 ==> (Occurs(s, p, j) <==> Occurs(s[1..], p, j - 1)) by {
        forall j | j >= 1 ensures Occurs(s, p, j) <==> Occurs(s[1..], p, j - 1) {
          OccursShift(s, p, j - 1);
        }
      }
      if rest.None? then None else Some(rest.value + 1)
  }

  lemma IndexOfContains(s: string, p: string)
    ensures IndexOf(s, p).Some? <==> Contains(s, p)
  {
    if IndexOf(s, p).Some? {
      assert Occurs(s, p, IndexOf(s, p).value);
    }
  }

  /** An occurrence with none before it is the one `find` reports. */
  lemma IndexOfFirst(s: string, p: string, i: nat)
    requires Occurs(s, p, i)
    requires forall j :: 0 <= j < i ==> !Occurs(s, p, j)
    ensures IndexOf(s, p) == Some(i)
  {
  }

  /** Text that holds a pattern holds every prefix of it. */
  lemma ContainsPrefix(s: string, p: string, k: nat)
    requires k <= |p| && Contains(s, p)
    ensures Contains(s, p[..k])
  {
    var i :| 0 <= i <= |s| && Occurs(s, p, i);
    assert s[i..i + k] == p[..k];
    assert Occurs(s, p[..k], i);
  }

  /** Dropping the first character keeps a text free of a pattern. */
  lemma NotContainsTail(s: string, p: string)
    requires |s| > 0 && !Contains(s, p)
    ensures !Contains(s[1..], p)
  {
    forall j | 0 <= j <= |s[1..]| ensures !Occurs(s[1..], p, j) {
      OccursShift(s, p, j);
    }
  }

  /** Python's `s.split(p)` for a non-empty separator. */
  function Split(s: string, p: string): (r: seq<string>)
    requires |p| > 0
    ensures |r| >= 1
    decreases |s|
  {
    match IndexOf(s, p)
    case None => [s]
    case Some(i) => [s[..i]] + Split(s[i + |p|..], p)
  }

  /** Python's `sep.join(parts)`. */
  function Join(parts: seq<string>, sep: string): string
  {
    if |parts| == 0 then ""
    else if |parts| == 1 then parts[0]
    else parts[0] + sep + Join(parts[1..], sep)
  }

  /** Python's `s.replace(p, r)` for a non-empty pattern: `r.join(s.split(p))`. */
  function Replace(s: string, p: string, r: string): string
    requires |p| > 0
  {
    Join(Split(s, p), r)
  }

  /** The first piece of a split ends where the separator first occurs. */
  lemma SplitStep(s: string, p: string, i: nat)
    requires |p| > 0 && IndexOf(s, p) == Some(i)
    ensures Split(s, p) == [s[..i]] + Split(s[i + |p|..], p)
  {
  }

  /** A text is the part before an occurrence, the pattern and the part after it. */
  lemma OccursSplice(s: string, p: string, i: nat)
    requires Occurs(s, p, i)
    ensures s == s[..i] + p + s[i + |p|..]
  {
    assert s[i..i + |p|] == p;
  }

  /** Splitting at every occurrence and joining with the separator gives the text back. */
  lemma {:induction false} SplitJoin(s: string, p: string)
    requires |p| > 0
    ensures Join(Split(s, p), p) == s
    decreases |s|
  {
    match IndexOf(s, p)
    case None =>
    case Some(i) =>
      var rest := s[i + |p|..];
      SplitJoin(rest, p);
      SplitStep(s, p, i);
      JoinStep([s[..i]] + Split(rest, p), p);
      assert ([s[..i]] + Split(rest, p))[1..] == Split(rest, p);
      OccursSplice(s, p, i);
  }

  /** No piece of a split still holds the separator: `replace` leaves no occurrence behind in the original text. */
  lemma {:induction false} SplitPiecesFree(s: string, p: string)
    requires |p| > 0
    ensures forall k :: 0 <= k < |Split(s, p)| ==> !Contains(Split(s, p)[k], p)
    decreases |s|
  {
    match IndexOf(s, p)
    case None =>
    case Some(i) =>
      var rest := s[i + |p|..];
      SplitPiecesFree(rest, p);
      forall j | 0 <= j <= i ensures !Occurs(s[..i], p, j) {
        if Occurs(s[..i], p, j) {
          assert s[..i][j..j + |p|] == s[j..j + |p|];
          assert Occurs(s, p, j);
        }
      }
  }

  /** The text with every `c` turned into `d`. */
  function MapChar(s: string, c: char, d: char): (r: string)
    ensures |r| == |s|
  {
    seq(|s|, i requires 0 <= i < |s| => if s[i] == c then d else s[i])
  }

  lemma MapCharAt(s: string, i: nat, c: char, d: char)
    requires i < |s| && s[i] == c
    requires forall k :: 0 <= k < i ==> s[k] != c
    ensures MapChar(s, c, d) == s[..i] + [d] + MapChar(s[i + 1..], c, d)
  {
    var m := s[..i] + [d] + MapChar(s[i + 1..], c, d);
    forall k | 0 <= k < |s| ensures MapChar(s, c, d)[k] == m[k] {
      if k > i {
        assert s[k] == s[i + 1..][k - i - 1];
      }
    }
  }

  lemma CharOccurs(s: string, k: nat, c: char)
    requires k < |s|
    ensures s[k] == c <==> Occurs(s, [c], k)
  {
    assert s[k..k + 1] == [s[k]];
  }

  lemma JoinStep(parts: seq<string>, sep: string)
    requires |parts| >= 2
    ensures Join(parts, sep) == parts[0] + sep + Join(parts[1..], sep)
  {
  }

  /** Replacing a one-character pattern by a one-character text maps the characters one by one. */
  lemma {:induction false} ReplaceChar(s: string, c: char, d: char)
    ensures Replace(s, [c], [d]) == MapChar(s, c, d)
    decreases |s|
  {
    var found := IndexOf(s, [c]);
    if found.None? {
      forall k | 0 <= k < |s| ensures s[k] != c {
        CharOccurs(s, k, c);
      }
      assert MapChar(s, c, d) == s;
    } else {
      var i := found.value;
      var rest := s[i + 1..];
      ReplaceChar(rest, c, d);
      assert s[i..i + 1] == [c];
      forall k | 0 <= k < i ensures s[k] != c {
        CharOccurs(s, k, c);
      }
      var parts := Split(s, [c]);
      assert parts == [s[..i]] + Split(rest, [c]);
      JoinStep(parts, [d]);
      assert parts[1..] == Split(rest, [c]);
      MapCharAt(s, i, c, d);
    }
  }

  /** Each part of a join appears in the joined text. */
  lemma {:induction false} JoinContainsPart(parts: seq<string>, sep: string, k: nat)
    requires k < |parts|
    ensures Contains(Join(parts, sep), parts[k])
  {
    if |parts| == 1 {
      assert Occurs(Join(parts, sep), parts[k], 0);
    } else if k == 0 {
      assert Join(parts, sep)[..|parts[0]|] == parts[0];
      assert Occurs(Join(parts, sep), parts[k], 0);
    } else {
      JoinContainsPart(parts[1..], sep, k - 1);
      var t := Join(parts[1..], sep);
      var j :| 0 <= j <= |t| && Occurs(t, parts[k], j);
      var off := |parts[0]| + |sep|;
      assert Join(parts, sep) == parts[0] + sep + t;
      assert Join(parts, sep)[off + j..off + j + |parts[k]|] == t[j..j + |parts[k]|];
      assert Occurs(Join(parts, sep), parts[k], off + j);
    }
  }

  /** `Replace` with a pattern that does not occur leaves the text as it was. */
  lemma ReplaceAbsent(s: string, p: string, r: string)
    requires |p| > 0 && !Contains(s, p)
    ensures Replace(s, p, r) == s
  {
    IndexOfContains(s, p);
  }

  /** The whitespace that Python's `str.strip()` and regex `\s` remove or match. */
  predicate IsSpace(c: char)
  {
    c == ' ' || '\t' <= c <= '\r' || '\U{1C}' <= c <= '\U{1F}' || c == '\U{85}' || c == '\U{A0}'
    || c == '\U{1680}' || '\U{2000}' <= c <= '\U{200A}' || c == '\U{2028}' || c == '\U{2029}'
    || c == '\U{202F}' || c == '\U{205F}' || c == '\U{3000}'
  }

  /** Regex `\w` on ASCII text. */
  predicate IsWordChar(c: char)
  {
    'a' <= c <= 'z' || 'A' <= c <= 'Z' || '0' <= c <= '9' || c == '_'
  }

  function LStrip(s: string): (r: string)
    ensures |r| <= |s|
    ensures r == s[|s| - |r|..]
    ensures r == [] || !IsSpace(r[0])
  {
    if |s| > 0 && IsSpace(s[0]) then LStrip(s[1..]) else s
  }

  function RStrip(s: string): (r: string)
    ensures |r| <= |s|
    ensures r == s[..|r|]
    ensures r == [] || !IsSpace(r[|r| - 1])
  {
    if |s| > 0 && IsSpace(s[|s| - 1]) then RStrip(s[..|s| - 1]) else s
  }

  /** Python's `str.strip()`. */
  function Strip(s: string): (r: string)
    ensures r == [] || (!IsSpace(r[0]) && !IsSpace(r[|r| - 1]))
  {
    RStrip(LStrip(s))
  }

  /** Python's `s.lstrip(c)` for a one-character set. */
  function LStripChar(s: string, c: char): (r: string)
    ensures |r| <= |s|
    ensures r == s[|s| - |r|..]
    ensures r == [] || r[0] != c
  {
    if |s| > 0 && s[0] == c then LStripChar(s[1..], c) else s
  }

  /** Python's `s.rstrip(c)` for a one-character set. */
  function RStripChar(s: string, c: char): (r: string)
    ensures |r| <= |s|
    ensures r == s[..|r|]
    ensures r == [] || r[|r| - 1] != c
  {
    if |s| > 0 && s[|s| - 1] == c then RStripChar(s[..|s| - 1], c) else s
  }

  /** Python's `s.count(c)` for one character. */
  function CountChar(s: string, c: char): nat
  {
    if s == [] then 0 else (if s[0] == c then 1 else 0) + CountChar(s[1..], c)
  }

  predicate IsDigit(c: char)
  {
    '0' <= c <= '9'
  }

  predicate AllDigits(s: string)
  {
    forall i :: 0 <= i < |s| ==> IsDigit(s[i])
  }

  function DigitChar(d: nat): (c: char)
    requires d < 10
    ensures IsDigit(c)
  {
    ('0' as int + d) as char
  }

  /** Python's `str(n)` for a natural number. */
  function NatToString(n: nat): (r: string)
    ensures |r| > 0 && AllDigits(r)
  {
    if n < 10 then [DigitChar(n)] else NatToString(n / 10) + [DigitChar(n % 10)]
  }

  /** Python's `str(i)` for an integer. */
  function IntToString(i: int): string
  {
    if i < 0 then "-" + NatToString(-i) else NatToString(i)
  }

  function DigitsValue(s: string): nat
    requires AllDigits(s)
  {
    if |s| == 0 then 0 else DigitsValue(s[..|s| - 1]) * 10 + (s[|s| - 1] as int - '0' as int)
  }

  /** Python's `int(s)` on an unsigned decimal numeral. */
  function ParseNat(s: string): Option<nat>
  {
    if |s| > 0 && AllDigits(s) then Some(DigitsValue(s)) else None
  }

  /**
   * Python's `int(s)`: surrounding whitespace, an optional sign and decimal
   * digits.  Underscores between digits and non-ASCII digits are not modelled.
   */
  function ParseInt(s: string): Option<int>
  {
    var t := Strip(s);
    if |t| > 0 && (t[0] == '-' || t[0] == '+') then
      match ParseNat(t[1..])
      case None => None
      case Some(n) => Some(if t[0] == '-' then -(n as int) else n)
    else
      match ParseNat(t)
      case None => None
      case Some(n) => Some(n)
  }

  /** Reading back a printed natural number gives the number. */
  lemma {:induction false} ParseNatToString(n: nat)
    ensures ParseNat(NatToString(n)) == Some(n)
  {
    var s := NatToString(n);
    if n < 10 {
      assert s[..|s| - 1] == [];
      assert s[0] as int == '0' as int + n;
      assert DigitsValue(s) == DigitsValue([]) * 10 + n;
    } else {
      var t := NatToString(n / 10);
      ParseNatToString(n / 10);
      assert s[..|s| - 1] == t;
    }
  }

  /** Distinct numbers print as distinct numerals. */
  lemma NatToStringInjective(m: nat, n: nat)
    ensures NatToString(m) == NatToString(n) ==> m == n
  {
    ParseNatToString(m);
    ParseNatToString(n);
  }
  /** Python's `a < b` on strings: code point by code point, a proper prefix first. */
  predicate StrLess(a: string, b: string)
  {
    if a == [] then b != []
    else if b == [] then false
    else if a[0] != b[0] then a[0] < b[0]
    else StrLess(a[1..], b[1..])
  }

  /** Of two different strings exactly one is the smaller. */
  lemma {:induction false} StrLessTotal(a: string, b: string)
    ensures StrLess(a, b) ==> !StrLess(b, a)
    ensures a != b ==> StrLess(a, b) || StrLess(b, a)
    ensures !StrLess(a, a)
  {
    if a != [] && b != [] && a[0] == b[0] {
      StrLessTotal(a[1..], b[1..]);
      assert a == [a[0]] + a[1..] && b == [b[0]] + b[1..];
    }
    if a != [] {
      StrLessTotal(a[1..], a[1..]);
    }
  }

  lemma {:induction false} StrLessTransitive(a: string, b: string, c: string)
    requires StrLess(a, b) && StrLess(b, c)
    ensures StrLess(a, c)
  {
    if a != [] && a[0] == b[0] && b[0] == c[0] {
      StrLessTransitive(a[1..], b[1..], c[1..]);
    }
  }

  predicate NoSpace(a: string)
  {
    forall j :: 0 <= j < |a| ==> a[j] != ' '
  }

  /** A numeral followed by a unit letter holds no space. */
  lemma NumeralPieceHasNoSpace(n: nat, unit: char)
    requires unit != ' '
    ensures NoSpace(NatToString(n) + [unit])
  {
  }

  /** Splitting at a space that follows a space-free piece. */
  lemma SplitAtFirstSpace(a: string, b: string)
    requires NoSpace(a)
    ensures Split(a + " " + b, " ") == [a] + Split(b, " ")
  {
    var s := a + " " + b;
    assert Occurs(s, " ", |a|) by {
      assert s[|a|..|a| + 1] == " ";
    }
    forall j | 0 <= j < |a| ensures !Occurs(s, " ", j) {
      assert s[j..j + 1] == [a[j]];
    }
    IndexOfFirst(s, " ", |a|);
    assert s[..|a|] == a;
    assert s[|a| + 1..] == b;
  }

  /** A space-free piece is not split. */
  lemma SplitNoSpace(a: string)
    requires NoSpace(a)
    ensures Split(a, " ") == [a]
  {
    forall j ensures !Occurs(a, " ", j) {
      if 0 <= j && j + 1 <= |a| {
        assert a[j..j + 1] == [a[j]];
      }
    }
  }

  lemma SplitTwo(a: string, b: string)
    requires NoSpace(a) && NoSpace(b)
    ensures Split(a + " " + b, " ") == [a, b]
  {
    SplitNoSpace(b);
    SplitAtFirstSpace(a, b);
  }

  lemma SplitThree(a: string, b: string, c: string)
    requires NoSpace(a) && NoSpace(b) && NoSpace(c)
    ensures Split(a + " " + b + " " + c, " ") == [a, b, c]
  {
    SplitTwo(b, c);
    SplitAtFirstSpace(a, b + " " + c);
    assert a + " " + b + " " + c == a + " " + (b + " " + c);
  }
}
