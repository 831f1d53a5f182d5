/**
 * `scripts/render-prompt.py`: fills a generation-prompt template with the
 * workspace's variables.  The template language is a small Handlebars-like
 * one: `{{#if V}}…{{else}}…{{/if}}`, `{{#unless V}}…{{/unless}}`,
 * `{{#each L}}…{{/each}}` and `{{V}}`.  The script rewrites these with
 * Python regular expressions; each pattern is modelled here by a scanner
 * that finds the same leftmost, shortest blocks `re.sub` finds.
 */
module PromptRenderer {
  import opened Wrappers
  import opened Seqs
  import opened Text
  import opened Json
  import opened Records
  import Orchestrator

  /** The variables dict, in insertion order. */
  type Vars = seq<Member>

  /**
   * The truth of `variables.get(name, False)` as a block condition: a
   * string counts when it reads "true" in any case, anything else by
   * Python's truth value, and a missing variable is false.
   */
  predicate Holds(v: Option<Json>)
  {
    match v
    case None => false
    case Some(JStr(s)) => Lower(s) == "true"
    case Some(x) => Truthy(x)
  }

  /** The length of the run of `\s` characters that starts s. */
  function SpaceRun(s: string): (n: nat)
    ensures n <= |s| && (n < |s| ==> !IsSpace(s[n]))
  {
    if s != [] && IsSpace(s[0]) then 1 + SpaceRun(s[1..]) else 0
  }

  /** The length of the run of `\w` characters that starts s. */
  function WordRun(s: string): (n: nat)
    ensures n <= |s| && (n < |s| ==> !IsWordChar(s[n]))
    ensures forall i :: 0 <= i < n ==> IsWordChar(s[i])
  {
    if s != [] && IsWordChar(s[0]) then 1 + WordRun(s[1..]) else 0
  }

  predicate IsName(name: string)
  {
    |name| > 0 && forall i :: 0 <= i < |name| ==> IsWordChar(name[i])
  }

  /** The opening tag of a block: the variable it names and where the block's body starts. */
  datatype Opening = Opening(name: string, bodyStart: nat)

  /**
   * `\s+(\w+)\}\}` at the start of u: the name and the length of the
   * match.  Neither run can give back a character to the other or to the
   * closing braces, so the match is the longest runs or nothing.
   */
  function TagName(u: string): (r: Option<Opening>)
    ensures r.Some? ==> 0 < r.value.bodyStart <= |u| && IsName(r.value.name)
  {
    var ws := SpaceRun(u);
    var wl := WordRun(u[ws..]);
    if ws == 0 || wl == 0 || !StartsWith(u[ws + wl..], "}}") then None
    else Some(Opening(u[ws..ws + wl], ws + wl + 2))
  }

  /** `\{\{<tag>\s+(\w+)\}\}` at the start of t. */
  function OpenTag(t: string, tag: string): (r: Option<Opening>)
    ensures r.Some? ==> |tag| + 2 < r.value.bodyStart <= |t| && IsName(r.value.name)
  {
    if !StartsWith(t, "{{" + tag) then None
    else
      match TagName(t[|tag| + 2..])
      case None => None
      case Some(o) => Some(Opening(o.name, |tag| + 2 + o.bodyStart))
  }

  /** The three block forms. */
  datatype Kind = IfBlock | UnlessBlock | EachBlock

  function OpenWord(k: Kind): string
  {
    match k
    case IfBlock => "#if"
    case UnlessBlock => "#unless"
    case EachBlock => "#each"
  }

  function CloseTag(k: Kind): string
  {
    match k
    case IfBlock => "{{/if}}"
    case UnlessBlock => "{{/unless}}"
    case EachBlock => "{{/each}}"
  }

  const ElseTag: string := "{{else}}"

  /** The opening tag of a block of kind k on variable `name`. */
  function OpenText(k: Kind, name: string): string
  {
    "{{" + OpenWord(k) + " " + name + "}}"
  }

  /** A matched block: its variable, its body, its `{{else}}` part if any, and how much text it covers. */
  datatype Block = Block(name: string, body: string, alt: Option<string>, len: nat)

  /**
   * The block that starts t, if one does.  The lazy body ends at the first
   * closing tag; an if block whose body holds `{{else}}` before that tag
   * splits there.
   */
  function BlockAt(t: string, k: Kind): (r: Option<Block>)
    ensures r.Some? ==> 0 < r.value.len <= |t|
  {
    BlockWith(t, OpenWord(k), CloseTag(k), if k == IfBlock then Some(ElseTag) else None)
  }

  /** A block opened by `word` and closed by `close`, split at `elseTag` when one is given. */
  function BlockWith(t: string, word: string, close: string, elseTag: Option<string>): (r: Option<Block>)
    ensures r.Some? ==> 0 < r.value.len <= |t|
  {
    match OpenTag(t, word)
    case None => None
    case Some(o) =>
      match BodyWith(t[o.bodyStart..], close, elseTag)
      case None => None
      case Some(b) => Some(Block(o.name, b.body, b.alt, o.bodyStart + b.len))
  }

  /** The body of a block up to its closing tag, and the length of both. */
  function BodyWith(rest: string, close: string, elseTag: Option<string>): (r: Option<Block>)
    ensures r.Some? ==> r.value.len <= |rest|
  {
    match IndexOf(rest, close)
    case None => None
    case Some(e) =>
      var found := if elseTag.Some? then IndexOf(rest, elseTag.value) else None;
      if found.Some? && found.value + |elseTag.value| <= e
      then Some(Block("", rest[..found.value], Some(rest[found.value + |elseTag.value|..e]), e + |close|))
      else Some(Block("", rest[..e], None, e + |close|))
  }

  /** `str(value)` for a field of an each-item. */
  function ReplaceFields(t: string, ms: seq<Member>): string
    decreases |ms|
  {
    if ms == [] then t
    else ReplaceFields(Replace(t, "{{this." + ms[0].key + "}}", Show(ms[0].value)), ms[1..])
  }

  /** One copy of an each-body for the item at `index` (0-based; the text shows it 1-based). */
  function ItemText(body: string, item: Json, index: nat): string
  {
    var t := if item.JObj? then Replace(ReplaceFields(body, item.members), "{{this}}", Dumps(item))
             else Replace(body, "{{this}}", Show(item));
    Replace(t, "{{@index}}", NatToString(index + 1))
  }

  function EachItems(body: string, items: seq<Json>, from: nat): (r: seq<string>)
    ensures |r| == |items|
  {
    Numbered(items, from, (item: Json, index: nat) => ItemText(body, item, index))
  }

  /** One copy per item, the items numbered from `from`. */
  function Numbered(items: seq<Json>, from: nat, copy: (Json, nat) -> string): (r: seq<string>)
    ensures |r| == |items|
  {
    if items == [] then [] else [copy(items[0], from)] + Numbered(items[1..], from + 1, copy)
  }

  /** The callbacks `replace_if`, `replace_unless` and `replace_each`. */
  function Expand(vars: Vars, k: Kind, b: Block): string
  {
    match k
    case IfBlock => if Holds(Lookup(vars, b.name)) then b.body else b.alt.GetOr("")
    case UnlessBlock => if Holds(Lookup(vars, b.name)) then "" else b.body
    case EachBlock =>
      match Lookup(vars, b.name)
      case Some(JArr(items)) => Join(EachItems(b.body, items, 0), "\n")
      case _ => ""
  }

  /** `re.sub` with one block pattern: each leftmost block is replaced and the scan goes on after it. */
  function SubAll(vars: Vars, k: Kind, t: string): string
    decreases |t|
  {
    if t == [] then []
    else
      match BlockAt(t, k)
      case Some(b) => Expand(vars, k, b) + SubAll(vars, k, t[b.len..])
      case None => [t[0]] + SubAll(vars, k, t[1..])
  }

  /** One if-pass as a function on texts. */
  function IfPass(vars: Vars): string -> string
  {
    t => SubAll(vars, IfBlock, t)
  }

  /** A pass applied until it changes nothing, at most `fuel` times. */
  function UntilFixed(f: string -> string, t: string, fuel: nat): string
    decreases fuel
  {
    if fuel == 0 then t
    else
      var next := f(t);
      if next == t then t else UntilFixed(f, next, fuel - 1)
  }

  /** A pass applied n times. */
  function Passes(f: string -> string, t: string, n: nat): string
  {
    if n == 0 then t else f(Passes(f, t, n - 1))
  }

  /** The nested-if loop: at most ten passes, stopping once a pass changes nothing. */
  function Conditionals(vars: Vars, t: string): string
  {
    UntilFixed(IfPass(vars), t, 10)
  }

  /**
   * Iterating to a fixpoint runs k passes for some k within the budget,
   * each of which changed the text; when it stops early the text is a
   * fixpoint of the pass.
   */
  lemma {:induction false} UntilFixedPasses(f: string -> string, t: string, fuel: nat) returns (k: nat)
    ensures k <= fuel && UntilFixed(f, t, fuel) == Passes(f, t, k)
    ensures k < fuel ==> f(UntilFixed(f, t, fuel)) == UntilFixed(f, t, fuel)
    ensures forall j :: 0 <= j < k ==> Passes(f, t, j + 1) != Passes(f, t, j)
    decreases fuel
  {
    if fuel == 0 || f(t) == t {
      k := 0;
    } else {
      var m := UntilFixedPasses(f, f(t), fuel - 1);
      k := m + 1;
      PassesShift(f, t, m);
      forall j | 0 <= j < k ensures Passes(f, t, j + 1) != Passes(f, t, j) {
        if j > 0 {
          PassesShift(f, t, j - 1);
          PassesShift(f, t, j);
        }
      }
    }
  }

  lemma {:induction false} PassesShift(f: string -> string, t: string, n: nat)
    ensures Passes(f, f(t), n) == Passes(f, t, n + 1)
  {
    if n > 0 {
      PassesShift(f, t, n - 1);
    }
  }

  /** `"{{" + key + "}}"`. */
  function Placeholder(key: string): (p: string)
    ensures |p| > 0
  {
    "{{" + key + "}}"
  }

  /** The text a variable's value puts in place of its placeholder. */
  function ReplacementText(v: Json): string
  {
    match v
    case JArr(_) => Pretty(v, 0)
    case JObj(_) => Pretty(v, 0)
    case JBool(b) => if b then "true" else "false"
    case JNull => ""
    case _ => Show(v)
  }

  /** Each variable's placeholder replaced in turn, in the dict's order. */
  function Substituted(vars: Vars, t: string): string
  {
    if vars == [] then t
    else Replace(Substituted(vars[..|vars| - 1], t), Placeholder(vars[|vars| - 1].key), ReplacementText(vars[|vars| - 1].value))
  }

  /** The length of the run of characters other than `}` that starts s. */
  function OpenRun(s: string): (n: nat)
    ensures n <= |s| && (n < |s| ==> s[n] == '}')
  {
    if s != [] && s[0] != '}' then 1 + OpenRun(s[1..]) else 0
  }

  /** `re.sub(r'\{\{[^}]+\}\}', '', t)`. */
  function StripMarkers(t: string): string
    decreases |t|
  {
    if t == [] then []
    else
      var n := if StartsWith(t, "{{") then OpenRun(t[2..]) else 0;
      if n > 0 && StartsWith(t[2 + n..], "}}") then StripMarkers(t[2 + n + 2..])
      else [t[0]] + StripMarkers(t[1..])
  }

  /** `re.sub(r'<!-- \w+ removed -->', '', t)`. */
  function StripComments(t: string): string
    decreases |t|
  {
    if t == [] then []
    else
      var n := if StartsWith(t, "<!-- ") then WordRun(t[5..]) else 0;
      if n > 0 && StartsWith(t[5 + n..], " removed -->") then StripComments(t[5 + n + 12..])
      else [t[0]] + StripComments(t[1..])
  }

  /** The length of the run of newlines that starts s. */
  function NewlineRun(s: string): (n: nat)
    ensures n <= |s| && (n < |s| ==> s[n] != '\n')
    ensures forall i :: 0 <= i < n ==> s[i] == '\n'
  {
    if s != [] && s[0] == '\n' then 1 + NewlineRun(s[1..]) else 0
  }

  /** `re.sub(r'\n{3,}', '\n\n', t)`. */
  function CollapseNewlines(t: string): string
    decreases |t|
  {
    if t == [] then []
    else if t[0] == '\n' then
      var n := NewlineRun(t);
      (if n >= 3 then "\n\n" else t[..n]) + CollapseNewlines(t[n..])
    else [t[0]] + CollapseNewlines(t[1..])
  }

  /** `_cleanup`: leftover markers and removal comments deleted, blank runs shortened, ends stripped. */
  function Cleanup(t: string): string
  {
    Strip(CollapseNewlines(StripComments(StripMarkers(t))))
  }

  /** Three newlines in a row start at i. */
  predicate TripleAt(s: string, i: int)
  {
    0 <= i && i + 2 < |s| && s[i] == '\n' && s[i + 1] == '\n' && s[i + 2] == '\n'
  }

  predicate NoTripleNewline(s: string)
  {
    forall i :: 0 <= i < |s| ==> !TripleAt(s, i)
  }

  /** Collapsing leaves no run of three newlines, and keeps a leading character other than a newline. */
  lemma {:induction false} CollapseNoTriple(t: string)
    ensures NoTripleNewline(CollapseNewlines(t))
    ensures t != [] && t[0] != '\n' ==> CollapseNewlines(t) != [] && CollapseNewlines(t)[0] == t[0]
    decreases |t|
  {
    if t != [] {
      var c := CollapseNewlines(t);
      if t[0] == '\n' {
        var n := NewlineRun(t);
        var rest := t[n..];
        CollapseNoTriple(rest);
        var head := if n >= 3 then "\n\n" else t[..n];
        var tail := CollapseNewlines(rest);
        assert c == head + tail;
        assert |head| <= 2;
        assert tail != [] ==> tail[0] != '\n';
        forall i | 0 <= i && i + 2 < |c| ensures !TripleAt(c, i) {
          if i >= |head| {
            assert !TripleAt(tail, i - |head|);
          } else if i + 1 >= |head| {
            assert c[i + 1] == tail[0];
          } else {
            assert c[i + 2] == tail[0];
          }
        }
      } else {
        CollapseNoTriple(t[1..]);
        var tail := CollapseNewlines(t[1..]);
        assert c == [t[0]] + tail;
        forall i | 0 <= i && i + 2 < |c| ensures !TripleAt(c, i) {
          if i > 0 {
            assert !TripleAt(tail, i - 1);
          }
        }
      }
    }
  }

  lemma NoTripleDrop(s: string, a: nat)
    requires a <= |s| && NoTripleNewline(s)
    ensures NoTripleNewline(s[a..])
  {
    forall i | 0 <= i && i + 2 < |s| - a ensures !TripleAt(s[a..], i) {
      assert !TripleAt(s, a + i);
    }
  }

  lemma NoTripleTake(s: string, b: nat)
    requires b <= |s| && NoTripleNewline(s)
    ensures NoTripleNewline(s[..b])
  {
    forall i | 0 <= i && i + 2 < b ensures !TripleAt(s[..b], i) {
      assert !TripleAt(s, i);
    }
  }

  /** Stripping whitespace from both ends cannot create a run of three newlines. */
  lemma StripNoTriple(c: string)
    requires NoTripleNewline(c)
    ensures NoTripleNewline(Strip(c))
  {
    var l := LStrip(c);
    NoTripleDrop(c, |c| - |l|);
    var r := RStrip(l);
    NoTripleTake(l, |r|);
  }

  /** Cleaned text has no run of three newlines and neither starts nor ends with whitespace. */
  lemma CleanupShape(t: string)
    ensures NoTripleNewline(Cleanup(t))
    ensures Cleanup(t) == [] || (!IsSpace(Cleanup(t)[0]) && !IsSpace(Cleanup(t)[|Cleanup(t)| - 1]))
  {
    var m := StripComments(StripMarkers(t));
    CollapseNoTriple(m);
    StripNoTriple(CollapseNewlines(m));
  }

  /** The whole of `render`: if blocks to a fixpoint, then unless, each, placeholders and cleanup. */
  function Rendered(vars: Vars, template: string): string
  {
    Cleanup(Substituted(vars, SubAll(vars, EachBlock, SubAll(vars, UnlessBlock, Conditionals(vars, template)))))
  }

  /** The nested-if loop of `_process_conditionals`: apply the pass until it changes nothing or the budget runs out. */
  method Settle(pass: string -> string, text: string, budget: nat) returns (t: string)
    ensures t == UntilFixed(pass, text, budget)
    ensures exists k :: 0 <= k <= budget && t == Passes(pass, text, k)
  {
    t := text;
    var i := 0;
    ghost var k := UntilFixedPasses(pass, text, budget);
    while i < budget
      invariant 0 <= i <= budget
      invariant UntilFixed(pass, t, budget - i) == UntilFixed(pass, text, budget)
    {
      var next := pass(t);
      if next == t {
        break;
      }
      t := next;
      i := i + 1;
    }
  }

  /** `TemplateRenderer`: a template and its variables, fixed at construction. */
  class TemplateRenderer {
    const template: string
    const variables: Vars

    constructor(template: string, variables: Vars)
      ensures this.template == template && this.variables == variables
    {
      this.template := template;
      this.variables := variables;
    }

    /** `render`: the pipeline, whose output has no blank-line runs and stripped ends. */
    method Render() returns (r: string)
      ensures r == Rendered(variables, template)
      ensures NoTripleNewline(r)
      ensures r == [] || (!IsSpace(r[0]) && !IsSpace(r[|r| - 1]))
    {
      r := ProcessConditionals(template);
      r := SubAll(variables, EachBlock, r);
      r := SubstituteVariables(r);
      r := Cleanup(r);
      CleanupShape(Substituted(variables, SubAll(variables, EachBlock, SubAll(variables, UnlessBlock, Conditionals(variables, template)))));
    }

    /** `_process_conditionals`: up to ten if-passes, stopping at a fixpoint, then one unless-pass. */
    method ProcessConditionals(text: string) returns (r: string)
      ensures r == SubAll(variables, UnlessBlock, Conditionals(variables, text))
    {
      var t := Settle(IfPass(variables), text, 10);
      r := SubAll(variables, UnlessBlock, t);
    }

    /** `_substitute_variables`: each variable's placeholder replaced, in the dict's order. */
    method SubstituteVariables(text: string) returns (r: string)
      ensures r == Substituted(variables, text)
    {
      r := text;
      var i := 0;
      while i < |variables|
        invariant 0 <= i <= |variables|
        invariant r == Substituted(variables[..i], text)
      {
        var m := variables[i];
        r := Replace(r, Placeholder(m.key), ReplacementText(m.value));
        TakeSnoc(variables, i);
        i := i + 1;
      }
      TakeAll(variables);
    }
  }

  predicate NoBrace(s: string)
  {
    forall i :: 0 <= i < |s| ==> s[i] != '{'
  }

  /** A tag: two opening braces and no further one. */
  predicate TagLike(p: string)
  {
    |p| >= 3 && p[0] == '{' && p[1] == '{' && forall i :: 2 <= i < |p| ==> p[i] != '{'
  }

  /** Text without braces holds no tag. */
  lemma NoBraceNoTag(x: string, p: string)
    requires NoBrace(x) && |p| > 0 && p[0] == '{'
    ensures !Contains(x, p)
  {
    forall j | 0 <= j <= |x| ensures !Occurs(x, p, j) {
      if j + |p| <= |x| {
        assert x[j..j + |p|][0] == x[j];
      }
    }
  }

  /** A tag that does not occur in x occurs first in x + p + y right after x. */
  lemma TagFirst(x: string, p: string, y: string)
    requires TagLike(p) && !Contains(x, p)
    ensures IndexOf(x + p + y, p) == Some(|x|)
  {
    var s := x + p + y;
    assert s[|x|..|x| + |p|] == p;
    forall j | 0 <= j < |x| ensures !Occurs(s, p, j) {
      if j + |p| <= |x| {
        assert s[j..j + |p|] == x[j..j + |p|];
        assert !Occurs(x, p, j);
      } else {
        var d := |x| - j;
        var w := if d == 1 then 2 else d;
        assert s[j + w] == '{';
        assert s[j..j + |p|][w] != p[w];
      }
    }
    IndexOfFirst(s, p, |x|);
  }

  /**
   * A tag p cannot be found in brace-free text around another tag q that
   * differs from it in its third character.
   */
  lemma TagNotIn(a: string, q: string, b: string, p: string)
    requires NoBrace(a) && NoBrace(b) && TagLike(q) && TagLike(p) && p[2] != q[2]
    ensures !Contains(a + q + b, p)
  {
    var s := a + q + b;
    forall j | 0 <= j <= |s| ensures !Occurs(s, p, j) {
      if j + |p| <= |s| {
        var w := if j == |a| then 2 else if j == |a| + 1 then 1 else 0;
        assert s[j..j + |p|][w] != p[w];
      }
    }
  }

  lemma {:induction false} WordRunName(name: string, rest: string)
    requires IsName(name) && (rest == [] || !IsWordChar(rest[0]))
    ensures WordRun(name + rest) == |name|
    decreases |name|
  {
    var s := name + rest;
    assert s[0] == name[0];
    if |name| > 1 {
      assert s[1..] == name[1..] + rest;
      WordRunName(name[1..], rest);
    } else {
      assert s[1..] == rest;
    }
  }

  lemma TagNameOf(name: string, rest: string)
    requires IsName(name)
    ensures TagName([' '] + name + "}}" + rest) == Some(Opening(name, |name| + 3))
  {
    var tail := "}}" + rest;
    var u := [' '] + name + tail;
    assert u == [' '] + name + "}}" + rest;
    assert u == [' '] + (name + tail);
    assert u[1..] == name + tail;
    assert !IsSpace(u[1]);
    assert SpaceRun(u[1..]) == 0;
    assert SpaceRun(u) == 1;
    WordRunName(name, tail);
    assert u[1 + |name|..] == tail;
    assert StartsWith(tail, "}}");
    assert u[1..1 + |name|] == name;
  }

  /** The opening tag of a block is read back as its variable name. */
  lemma OpenTagOf(word: string, name: string, rest: string)
    requires IsName(name)
    ensures OpenTag("{{" + word + " " + name + "}}" + rest, word) == Some(Opening(name, |word| + |name| + 5))
  {
    var head := "{{" + word;
    var t := head + " " + name + "}}" + rest;
    assert t[..|head|] == head;
    assert t[|head|..] == [' '] + name + "}}" + rest;
    TagNameOf(name, rest);
  }

  /** A block's opening tag hands the rest of the text to the body scan. */
  lemma BlockWithOpen(word: string, name: string, rest: string, close: string, elseTag: Option<string>)
    requires IsName(name) && BodyWith(rest, close, elseTag).Some?
    ensures var t := "{{" + word + " " + name + "}}" + rest;
            var b := BodyWith(rest, close, elseTag).value;
            BlockWith(t, word, close, elseTag) == Some(Block(name, b.body, b.alt, |word| + |name| + 5 + b.len))
  {
    var t := "{{" + word + " " + name + "}}" + rest;
    var o := Opening(name, |word| + |name| + 5);
    OpenTagOf(word, name, rest);
    assert t[o.bodyStart..] == rest;
    BlockAfterOpen(t, word, o, close, elseTag);
  }

  /** A block is its opening tag followed by what the body scan finds after it. */
  lemma BlockAfterOpen(t: string, word: string, o: Opening, close: string, elseTag: Option<string>)
    requires OpenTag(t, word) == Some(o) && BodyWith(t[o.bodyStart..], close, elseTag).Some?
    ensures var b := BodyWith(t[o.bodyStart..], close, elseTag).value;
            BlockWith(t, word, close, elseTag) == Some(Block(o.name, b.body, b.alt, o.bodyStart + b.len))
  {
  }

  /** A body with no closing tag in it runs to the tag. */
  lemma PlainBody(body: string, close: string)
    requires TagLike(close) && !Contains(body, close)
    ensures BodyWith(body + close, close, None) == Some(Block("", body, None, |body| + |close|))
  {
    TagFirst(body, close, []);
    assert body + close + [] == body + close;
    assert (body + close)[..|body|] == body;
  }

  /** A brace-free body holding the else tag splits there. */
  lemma ElseBody(a: string, b: string, close: string, elseTag: string)
    requires NoBrace(a) && NoBrace(b) && TagLike(close) && TagLike(elseTag) && close[2] != elseTag[2]
    ensures var r := BodyWith(a + elseTag + b + close, close, Some(elseTag));
            r.Some? && r.value.body == a && r.value.alt == Some(b) && r.value.len == |a| + |elseTag| + |b| + |close|
  {
    var rest := a + elseTag + b + close;
    TagNotIn(a, elseTag, b, close);
    TagFirst(a + elseTag + b, close, []);
    assert a + elseTag + b + close + [] == rest;
    NoBraceNoTag(a, elseTag);
    TagFirst(a, elseTag, b + close);
    AppendAssoc(a + elseTag, b, close);
    assert rest[..|a|] == a;
    assert rest[|a| + |elseTag|..|a| + |elseTag| + |b|] == b;
  }

  /** A brace-free body without the else tag runs to the closing tag. */
  lemma IfBody(a: string, close: string, elseTag: string)
    requires NoBrace(a) && TagLike(close) && TagLike(elseTag) && close[2] != elseTag[2]
    ensures BodyWith(a + close, close, Some(elseTag)) == Some(Block("", a, None, |a| + |close|))
  {
    NoBraceNoTag(a, close);
    TagFirst(a, close, []);
    assert a + close + [] == a + close;
    TagNotIn(a, close, [], elseTag);
    assert a + close + [] == a + close;
    IndexOfContains(a + close, elseTag);
    assert (a + close)[..|a|] == a;
  }

  /** The fixed tags of the template language. */
  lemma TagsLike()
    ensures TagLike(CloseTag(IfBlock)) && TagLike(CloseTag(UnlessBlock)) && TagLike(CloseTag(EachBlock)) && TagLike(ElseTag)
    ensures CloseTag(IfBlock)[2] != ElseTag[2]
  {
  }

  /** A pass over text that is one whole block yields that block's expansion. */
  lemma SubAllWhole(vars: Vars, k: Kind, t: string)
    requires BlockAt(t, k).Some? && BlockAt(t, k).value.len == |t|
    ensures SubAll(vars, k, t) == Expand(vars, k, BlockAt(t, k).value)
  {
    var b := BlockAt(t, k).value;
    assert t[b.len..] == [];
    assert SubAll(vars, k, t) == Expand(vars, k, b) + SubAll(vars, k, []);
    EmptyAppend(Expand(vars, k, b));
  }

  /** `{{#if V}}a{{else}}b{{/if}}` becomes a when V holds and b otherwise. */
  lemma IfElseSemantics(vars: Vars, name: string, a: string, b: string)
    requires IsName(name) && NoBrace(a) && NoBrace(b)
    ensures SubAll(vars, IfBlock, OpenText(IfBlock, name) + (a + ElseTag + b + CloseTag(IfBlock)))
            == if Holds(Lookup(vars, name)) then a else b
  {
    TagsLike();
    var close := CloseTag(IfBlock);
    var rest := a + ElseTag + b + close;
    ElseBody(a, b, close, ElseTag);
    BlockWithOpen(OpenWord(IfBlock), name, rest, close, Some(ElseTag));
    SubAllWhole(vars, IfBlock, OpenText(IfBlock, name) + rest);
  }

  /** A pass that moves the text to a fixpoint of itself stops the iteration there. */
  lemma UntilFixedSettles(f: string -> string, t: string, c: string, n: nat)
    requires n >= 2 && f(t) == c && c != t && f(c) == c
    ensures UntilFixed(f, t, n) == c
  {
  }

  /** The nested-if loop settles on the chosen branch of a lone if/else block after one rewrite. */
  lemma IfElseConditionals(vars: Vars, name: string, a: string, b: string)
    requires IsName(name) && NoBrace(a) && NoBrace(b)
    ensures Conditionals(vars, OpenText(IfBlock, name) + (a + ElseTag + b + CloseTag(IfBlock)))
            == if Holds(Lookup(vars, name)) then a else b
  {
    var t := OpenText(IfBlock, name) + (a + ElseTag + b + CloseTag(IfBlock));
    var chosen := if Holds(Lookup(vars, name)) then a else b;
    IfElseSemantics(vars, name, a, b);
    SubAllNoBrace(vars, IfBlock, chosen);
    assert |chosen| < |t|;
    UntilFixedSettles(IfPass(vars), t, chosen, 10);
  }

  /** `{{#if V}}a{{/if}}` becomes a when V holds and nothing otherwise. */
  lemma IfSemantics(vars: Vars, name: string, a: string)
    requires IsName(name) && NoBrace(a)
    ensures SubAll(vars, IfBlock, OpenText(IfBlock, name) + a + CloseTag(IfBlock))
            == (if Holds(Lookup(vars, name)) then a else "")
  {
    TagsLike();
    var close := CloseTag(IfBlock);
    IfBody(a, close, ElseTag);
    BlockWithOpen(OpenWord(IfBlock), name, a + close, close, Some(ElseTag));
    var t := OpenText(IfBlock, name) + (a + close);
    AppendAssoc(OpenText(IfBlock, name), a, close);
    SubAllWhole(vars, IfBlock, t);
  }

  /** `{{#unless V}}a{{/unless}}` becomes nothing when V holds and a otherwise. */
  lemma UnlessSemantics(vars: Vars, name: string, a: string)
    requires IsName(name) && !Contains(a, CloseTag(UnlessBlock))
    ensures SubAll(vars, UnlessBlock, OpenText(UnlessBlock, name) + a + CloseTag(UnlessBlock))
            == (if Holds(Lookup(vars, name)) then "" else a)
  {
    TagsLike();
    var close := CloseTag(UnlessBlock);
    PlainBody(a, close);
    BlockWithOpen(OpenWord(UnlessBlock), name, a + close, close, None);
    var t := OpenText(UnlessBlock, name) + (a + close);
    AppendAssoc(OpenText(UnlessBlock, name), a, close);
    SubAllWhole(vars, UnlessBlock, t);
  }

  /**
   * `{{#each L}}body{{/each}}` becomes one copy of the body per item of
   * the list L, joined by newlines, and nothing when L is missing or not
   * a list.
   */
  lemma EachSemantics(vars: Vars, name: string, body: string)
    requires IsName(name) && !Contains(body, CloseTag(EachBlock))
    ensures Lookup(vars, name).Some? && Lookup(vars, name).value.JArr? ==>
              SubAll(vars, EachBlock, OpenText(EachBlock, name) + (body + CloseTag(EachBlock)))
              == Join(EachItems(body, Lookup(vars, name).value.items, 0), "\n")
    ensures !(Lookup(vars, name).Some? && Lookup(vars, name).value.JArr?) ==>
              SubAll(vars, EachBlock, OpenText(EachBlock, name) + (body + CloseTag(EachBlock))) == ""
  {
    TagsLike();
    var close := CloseTag(EachBlock);
    PlainBody(body, close);
    BlockWithOpen(OpenWord(EachBlock), name, body + close, close, None);
    SubAllWhole(vars, EachBlock, OpenText(EachBlock, name) + (body + close));
  }

  /** The copy for the item at position i is that item's own text, numbered from `from`. */
  lemma EachItemsAt(body: string, items: seq<Json>, from: nat, i: nat)
    requires i < |items|
    ensures EachItems(body, items, from)[i] == ItemText(body, items[i], from + i)
  {
    NumberedAt(items, from, (item: Json, index: nat) => ItemText(body, item, index), i);
  }

  lemma {:induction false} NumberedAt(items: seq<Json>, from: nat, copy: (Json, nat) -> string, i: nat)
    requires i < |items|
    ensures Numbered(items, from, copy)[i] == copy(items[i], from + i)
    decreases i
  {
    var tail := Numbered(items[1..], from + 1, copy);
    var head := copy(items[0], from);
    assert Numbered(items, from, copy) == [head] + tail;
    if i > 0 {
      NumberedAt(items[1..], from + 1, copy, i - 1);
      assert ([head] + tail)[i] == tail[i - 1];
      assert items[1..][i - 1] == items[i] && from + 1 + (i - 1) == from + i;
    } else {
      assert ([head] + tail)[0] == head;
    }
  }

  /** `{{@index}}` in an each-body counts the items from 1. */
  lemma IndexNumbering(body: string, items: seq<Json>, i: nat)
    requires i < |items| && !items[i].JObj? && !Contains(body, "{{this}}")
    ensures EachItems(body, items, 0)[i] == Replace(body, "{{@index}}", NatToString(i + 1))
  {
    EachItemsAt(body, items, 0, i);
    ReplaceAbsent(body, "{{this}}", Show(items[i]));
  }

  lemma {:induction false} SubstitutedNoBrace(vars: Vars, t: string)
    requires NoBrace(t)
    ensures Substituted(vars, t) == t
    decreases |vars|
  {
    if vars != [] {
      SubstitutedNoBrace(vars[..|vars| - 1], t);
      NoBraceNoTag(t, Placeholder(vars[|vars| - 1].key));
      ReplaceAbsent(t, Placeholder(vars[|vars| - 1].key), ReplacementText(vars[|vars| - 1].value));
    }
  }

  /** Splitting at the one occurrence of a tag gives the text on either side. */
  lemma SplitAround(a: string, p: string, b: string)
    requires TagLike(p) && !Contains(a, p) && !Contains(b, p)
    ensures Split(a + p + b, p) == [a, b]
  {
    var t := a + p + b;
    TagFirst(a, p, b);
    assert t[..|a|] == a && t[|a| + |p|..] == b;
    IndexOfContains(b, p);
    assert Split(b, p) == [b];
  }

  lemma PlaceholderLike(key: string)
    requires NoBrace(key)
    ensures TagLike(Placeholder(key))
  {
    var p := Placeholder(key);
    forall i | 2 <= i < |p| ensures p[i] != '{' {
      if i < 2 + |key| {
        assert p[i] == key[i - 2];
      }
    }
  }

  /** A placeholder between brace-free text is replaced by its variable's rendering. */
  lemma SubstituteOne(key: string, v: Json, a: string, b: string)
    requires NoBrace(key) && NoBrace(a) && NoBrace(b)
    ensures Substituted([Member(key, v)], a + Placeholder(key) + b) == a + ReplacementText(v) + b
  {
    var p := Placeholder(key);
    PlaceholderLike(key);
    NoBraceNoTag(a, p);
    NoBraceNoTag(b, p);
    SplitAround(a, p, b);
    assert [Member(key, v)][..0] == [];
    assert Substituted([Member(key, v)], a + p + b) == Join([a, b], ReplacementText(v));
  }

  /** No block starts where its opening does not. */
  lemma NoOpenNoBlock(t: string, k: Kind)
    requires !StartsWith(t, "{{" + OpenWord(k))
    ensures BlockAt(t, k).None?
  {
    assert OpenTag(t, OpenWord(k)).None?;
  }

  /** Text without the opening of a block passes through a block pass unchanged. */
  lemma {:induction false} SubAllAbsent(vars: Vars, k: Kind, t: string)
    requires !Contains(t, "{{" + OpenWord(k))
    ensures SubAll(vars, k, t) == t
    decreases |t|
  {
    if t != [] {
      assert !Occurs(t, "{{" + OpenWord(k), 0);
      NoOpenNoBlock(t, k);
      NotContainsTail(t, "{{" + OpenWord(k));
      SubAllAbsent(vars, k, t[1..]);
      assert [t[0]] + t[1..] == t;
    }
  }

  lemma SubAllNoBrace(vars: Vars, k: Kind, t: string)
    requires NoBrace(t)
    ensures SubAll(vars, k, t) == t
  {
    NoBraceNoTag(t, "{{" + OpenWord(k));
    SubAllAbsent(vars, k, t);
  }

  /** An if/else template with brace-free branches renders to the cleaned chosen branch. */
  lemma RenderIfElse(vars: Vars, name: string, a: string, b: string)
    requires IsName(name) && NoBrace(a) && NoBrace(b)
    ensures Rendered(vars, OpenText(IfBlock, name) + (a + ElseTag + b + CloseTag(IfBlock)))
            == Cleanup(if Holds(Lookup(vars, name)) then a else b)
  {
    IfElseConditionals(vars, name, a, b);
    var chosen := if Holds(Lookup(vars, name)) then a else b;
    SubAllNoBrace(vars, UnlessBlock, chosen);
    SubAllNoBrace(vars, EachBlock, chosen);
    SubstitutedNoBrace(vars, chosen);
  }

  /** Brace-free text is only cleaned. */
  lemma RenderPlain(vars: Vars, t: string)
    requires NoBrace(t)
    ensures Rendered(vars, t) == Cleanup(t)
  {
    SubAllNoBrace(vars, IfBlock, t);
    assert IfPass(vars)(t) == t;
    SubAllNoBrace(vars, UnlessBlock, t);
    SubAllNoBrace(vars, EachBlock, t);
    SubstitutedNoBrace(vars, t);
  }

  /** One entry of `REMAINING_SUBTASKS`. */
  datatype Subtask = Subtask(name: Json, status: Json, priority: Json)

  /** The variables `build_variables_from_gas_dir` produces, one field per key. */
  datatype PromptVariables = PromptVariables(
    generation: int, nextGeneration: int, parentGeneration: int,
    projectName: Json, projectSlug: Json, taskObjective: Json, timestamp: string,
    isFirstGeneration: bool, workspace: string, currentSubtask: Json,
    remainingSubtasks: seq<Subtask>, transferDocument: string, initialContext: Json,
    successPatterns: Json, antiPatterns: Json, agentId: string, agentNumber: string)

  function SubtaskJson(t: Subtask): Json
  {
    JObj([Member("name", t.name), Member("status", t.status), Member("priority", t.priority)])
  }

  function SubtasksJson(ts: seq<Subtask>): (r: seq<Json>)
    ensures |r| == |ts| && forall i :: 0 <= i < |ts| ==> r[i] == SubtaskJson(ts[i])
  {
    if ts == [] then [] else [SubtaskJson(ts[0])] + SubtasksJson(ts[1..])
  }

  /** The variables as the template renderer sees them, keys in the order the dict literal gives. */
  function AsVars(p: PromptVariables): (r: Vars)
    ensures |r| == 17
  {
    [ Member("GENERATION", JInt(p.generation)),
      Member("NEXT_GENERATION", JInt(p.nextGeneration)),
      Member("PARENT_GENERATION", JInt(p.parentGeneration)),
      Member("PROJECT_NAME", p.projectName),
      Member("PROJECT_SLUG", p.projectSlug),
      Member("TASK_OBJECTIVE", p.taskObjective),
      Member("TIMESTAMP", JStr(p.timestamp)),
      Member("IS_FIRST_GENERATION", JBool(p.isFirstGeneration)),
      Member("WORKSPACE", JStr(p.workspace)),
      Member("CURRENT_SUBTASK", p.currentSubtask),
      Member("REMAINING_SUBTASKS", JArr(SubtasksJson(p.remainingSubtasks))),
      Member("TRANSFER_DOCUMENT", JStr(p.transferDocument)),
      Member("INITIAL_CONTEXT", p.initialContext),
      Member("SUCCESS_PATTERNS", p.successPatterns),
      Member("ANTI_PATTERNS", p.antiPatterns),
      Member("AGENT_ID", JStr(p.agentId)),
      Member("AGENT_NUMBER", JStr(p.agentNumber)) ]
  }

  /** `d.get(key, default)` on a dict. */
  function GetOrDefault(d: Json, key: string, default: Json): Json
  {
    Get(d, key).GetOr(default)
  }

  /** One remaining phase as a subtask entry: a string is a pending, normal-priority task of that name. */
  function SubtaskOf(s: Json): (r: Result<Subtask, string>)
    ensures s.JStr? ==> r == Ok(Subtask(s, JStr("pending"), JStr("normal")))
    ensures r.Ok? <==> (s.JStr? || s.JObj?)
  {
    if s.JStr? then Ok(Subtask(s, JStr("pending"), JStr("normal")))
    else if s.JObj? then Ok(Subtask(GetOrDefault(s, "name", JStr("Task")), GetOrDefault(s, "status", JStr("pending")), GetOrDefault(s, "priority", JStr("normal"))))
    else Err("object has no attribute 'get'")
  }

  function SubtasksOf(items: seq<Json>): (r: Result<seq<Subtask>, string>)
    ensures r.Ok? ==> |r.value| == |items| && forall i :: 0 <= i < |items| ==> SubtaskOf(items[i]) == Ok(r.value[i])
    ensures r.Ok? <==> forall i :: 0 <= i < |items| ==> SubtaskOf(items[i]).Ok?
  {
    if items == [] then Ok([])
    else
      match SubtaskOf(items[0])
      case Err(e) => Err(e)
      case Ok(t) =>
        match SubtasksOf(items[1..])
        case Err(e) =>
          assert forall i :: 1 <= i < |items| ==> items[i] == items[1..][i - 1];
          Err(e)
        case Ok(ts) =>
          assert forall i :: 1 <= i < |items| ==> items[i] == items[1..][i - 1];
          Ok([t] + ts)
  }

  /**
   * The current subtask once the remaining phases are known: their first
   * entry, by name when it is a dict, when there are any.
   */
  function CurrentSubtask(remaining: Json, default: Json): (r: Result<Json, string>)
    ensures !Truthy(remaining) ==> r == Ok(default)
    ensures remaining.JArr? && remaining.items != [] && remaining.items[0].JStr? ==> r == Ok(remaining.items[0])
  {
    if !Truthy(remaining) then Ok(default)
    else
      var first :=
        match remaining
        case JArr(items) => Ok(items[0])
        case JStr(s) => Ok(JStr([s[0]]))
        case JObj(_) => Err("KeyError: 0")
        case _ => Err("object is not subscriptable");
      match first
      case Err(e) => Err(e)
      case Ok(f) =>
        if f.JStr? then Ok(f)
        else if f.JObj? then Ok(GetOrDefault(f, "name", default))
        else Err("object has no attribute 'get'")
  }

  function Min5(n: nat): nat
  {
    if n < 5 then n else 5
  }

  /** `knowledge.get(key, [])[:5] if knowledge else []`. */
  function Patterns(knowledge: Option<Json>, key: string): (r: Result<Json, string>)
    ensures knowledge.None? || !Truthy(knowledge.value) ==> r == Ok(JArr([]))
    ensures r.Ok? && r.value.JArr? ==> |r.value.items| <= 5
    ensures r.Ok? && knowledge.Some? && Truthy(knowledge.value) ==>
      var v := GetOrDefault(knowledge.value, key, JArr([]));
      || (v.JArr? && r.value.JArr? && r.value.items <= v.items && |r.value.items| == Min5(|v.items|))
      || (v.JStr? && r.value.JStr? && r.value.s <= v.s && |r.value.s| == Min5(|v.s|))
  {
    if knowledge.None? || !Truthy(knowledge.value) then Ok(JArr([]))
    else if !knowledge.value.JObj? then Err("object has no attribute 'get'")
    else
      match GetOrDefault(knowledge.value, key, JArr([]))
      case JArr(items) => Ok(JArr(PyUpTo(items, 5)))
      case JStr(s) => Ok(JStr(PyUpTo(s, 5)))
      case _ => Err("unhashable type: 'slice'")
  }

  /** `agent_id.split("-")[1]` when the id has a dash, else "1". */
  function AgentNumber(agentId: Option<string>): string
  {
    if Given(agentId) && Contains(agentId.value, "-") then
      SplitHasSecond(agentId.value);
      Split(agentId.value, "-")[1]
    else "1"
  }

  lemma SplitHasSecond(s: string)
    requires Contains(s, "-")
    ensures |Split(s, "-")| >= 2
  {
    IndexOfContains(s, "-");
  }

  /**
   * `build_variables_from_gas_dir`.  The workspace's files arrive already
   * read: `state` and `knowledge` as `read_json` returns them, `parentTransfer`
   * as the parent generation's transfer document when it exists; the clock
   * reading and the workspace path are parameters.  Every exception the
   * script would raise is an `Err`.
   */
  function BuildVariables(state: Option<Json>, knowledge: Option<Json>, parentTransfer: Option<Json>,
                          generation: int, agentId: Option<string>, workspace: string, timestamp: string)
    : (r: Result<PromptVariables, string>)
    ensures state.None? || !Truthy(state.value) ==> r.Err?
    ensures r.Ok? ==> state.Some? && state.value.JObj?
    ensures r.Ok? ==> r.value.generation == generation && r.value.nextGeneration == generation + 1
    ensures r.Ok? ==> (r.value.isFirstGeneration <==> generation == 1)
    ensures r.Ok? ==> r.value.parentGeneration == (if generation > 1 then generation - 1 else 0)
    ensures r.Ok? && generation != 1 ==> r.value.initialContext == JStr("")
    ensures r.Ok? && generation <= 1 ==> r.value.transferDocument == "" && r.value.remainingSubtasks == []
    ensures r.Ok? ==> r.value.agentId == agentId.GetOr("")
  {
    if state.None? || !Truthy(state.value) then Err("Cannot read GAS state")
    else
      var st := state.value;
      if !st.JObj? then Err("object has no attribute 'get'")
      else
        var objective := GetOrDefault(st, "task_objective", JStr("Complete the assigned task"));
        var transfer := if generation > 1 then parentTransfer else None;
        var given := transfer.Some? && Truthy(transfer.value);
        var remaining :=
          if !given then Ok(JArr([]))
          else if !transfer.value.JObj? then Err("object has no attribute 'get'")
          else
            var taskState := GetOrDefault(transfer.value, "task_state", JObj([]));
            if !taskState.JObj? then Err("object has no attribute 'get'")
            else Ok(GetOrDefault(taskState, "remaining_phases", JArr([])));
        if remaining.Err? then Err(remaining.error)
        else
          var current := CurrentSubtask(remaining.value, objective);
          if current.Err? then Err(current.error)
          else
            var slugSource := GetOrDefault(st, "project_name", JStr("project"));
            if !slugSource.JStr? then Err("object has no attribute 'lower'")
            else
              var walked := Iterated(remaining.value);
              if walked.Err? then Err(walked.error)
              else
                var subtasks := SubtasksOf(walked.value);
                if subtasks.Err? then Err(subtasks.error)
                else
                  var success := Patterns(knowledge, "success_patterns");
                  if success.Err? then Err(success.error)
                  else
                    var anti := Patterns(knowledge, "anti_patterns");
                    if anti.Err? then Err(anti.error)
                    else
                      Ok(PromptVariables(
                        generation, generation + 1, if generation > 1 then generation - 1 else 0,
                        GetOrDefault(st, "project_name", JStr("Project")),
                        GetOrDefault(st, "project_slug", JStr(Orchestrator.Slugify(slugSource.s))),
                        objective, timestamp, generation == 1, workspace, current.value,
                        subtasks.value,
                        if given then Pretty(transfer.value, 0) else "",
                        if generation == 1 then GetOrDefault(st, "task_objective", JStr("")) else JStr(""),
                        success.value, anti.value,
                        if Given(agentId) then agentId.value else "",
                        AgentNumber(agentId)))
  }

  /** The agent number is the text between the id's first dash and the next one. */
  lemma AgentNumberShape(agentId: Option<string>)
    ensures Given(agentId) && Contains(agentId.value, "-") ==>
      var n := AgentNumber(agentId);
      && !Contains(n, "-")
      && exists i :: 0 <= i && i + 1 + |n| <= |agentId.value| && agentId.value[i] == '-'
                     && !Contains(agentId.value[..i], "-") && agentId.value[i + 1..i + 1 + |n|] == n
    ensures !(Given(agentId) && Contains(agentId.value, "-")) ==> AgentNumber(agentId) == "1"
  {
    if Given(agentId) && Contains(agentId.value, "-") {
      var s := agentId.value;
      IndexOfContains(s, "-");
      var i := IndexOf(s, "-").value;
      var rest := s[i + 1..];
      var n := Split(rest, "-")[0];
      assert n == AgentNumber(agentId);
      SplitPiecesFree(rest, "-");
      SplitPiecesFree(s, "-");
      assert Split(s, "-")[0] == s[..i];
      assert n <= rest by {
        match IndexOf(rest, "-")
        case None =>
        case Some(j) =>
      }
      assert s[i] == '-' by { assert Occurs(s, "-", i); }
      assert s[i + 1..i + 1 + |n|] == rest[..|n|];
    }
  }

  /** A state file `build_variables_from_gas_dir` accepts: a non-empty dict whose project name, if any, is text. */
  predicate UsableState(state: Json)
  {
    state.JObj? && Truthy(state) && (Get(state, "project_name").None? || Get(state, "project_name").value.JStr?)
  }

  /** The first generation starts from the state alone: nothing remains, the current task is the objective. */
  lemma FirstGenerationVariables(state: Json, parentTransfer: Option<Json>, agentId: Option<string>, workspace: string, timestamp: string)
    requires UsableState(state)
    ensures var r := BuildVariables(Some(state), None, parentTransfer, 1, agentId, workspace, timestamp);
      && r.Ok?
      && r.value.remainingSubtasks == [] && r.value.transferDocument == ""
      && r.value.currentSubtask == GetOrDefault(state, "task_objective", JStr("Complete the assigned task"))
      && r.value.initialContext == GetOrDefault(state, "task_objective", JStr(""))
      && r.value.successPatterns == JArr([]) && r.value.antiPatterns == JArr([])
  {
  }

  /**
   * A later generation takes its subtasks from the parent's transfer document:
   * every remaining phase named by text becomes a pending, normal-priority
   * subtask, in order, and the first of them is the current subtask.
   */
  lemma TransferredSubtasks(state: Json, transfer: Json, generation: int, phases: seq<Json>,
                            agentId: Option<string>, workspace: string, timestamp: string)
    requires UsableState(state) && generation > 1
    requires transfer == JObj([Member("task_state", JObj([Member("remaining_phases", JArr(phases))]))])
    requires forall i :: 0 <= i < |phases| ==> phases[i].JStr?
    ensures var r := BuildVariables(Some(state), None, Some(transfer), generation, agentId, workspace, timestamp);
      && r.Ok?
      && |r.value.remainingSubtasks| == |phases|
      && (forall i :: 0 <= i < |phases| ==>
            r.value.remainingSubtasks[i] == Subtask(phases[i], JStr("pending"), JStr("normal")))
      && (phases != [] ==> r.value.currentSubtask == phases[0])
      && r.value.transferDocument == Pretty(transfer, 0)
  {
    assert Truthy(transfer);
    var ts := SubtasksOf(phases);
    assert ts.Ok?;
  }
}
