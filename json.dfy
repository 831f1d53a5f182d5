/**
 * JSON documents as the scripts see them after `json.loads`: Python values
 * built from dicts, lists, strings, numbers, booleans and None.  A float
 * carries the text Python's `repr` gives it, since its printed form cannot be
 * recomputed from a real number.
 */
module Json {
  import opened Wrappers
  import opened Text

  datatype Json =
    | JNull
    | JBool(b: bool)
    | JInt(i: int)
    | JFloat(r: real, repr: string)
    | JStr(s: string)
    | JArr(items: seq<Json>)
    | JObj(members: seq<Member>)

  datatype Member = Member(key: string, value: Json)

  /** Python's `bool(v)`. */
  predicate Truthy(v: Json)
  {
    match v
    case JNull => false
    case JBool(b) => b
    case JInt(i) => i != 0
    case JFloat(r, _) => r != 0.0
    case JStr(s) => s != ""
    case JArr(items) => items != []
    case JObj(members) => members != []
  }

  /** Values that can be dict keys: lists and dicts cannot. */
  predicate Hashable(v: Json)
  {
    !v.JArr? && !v.JObj?
  }

  /** Values that Python compares with numbers: int, float and bool. */
  predicate Numeric(v: Json)
  {
    v.JInt? || v.JFloat? || v.JBool?
  }

  /** The number a numeric value stands for. */
  function Num(v: Json): real
  {
    match v
    case JInt(i) => i as real
    case JFloat(r, _) => r
    case JBool(b) => if b then 1.0 else 0.0
    case _ => 0.0
  }

  /** A dict built by `json.loads` keeps the last of repeated keys. */
  function Lookup(ms: seq<Member>, key: string): Option<Json>
  {
    if ms == [] then None
    else if ms[|ms| - 1].key == key then Some(ms[|ms| - 1].value)
    else Lookup(ms[..|ms| - 1], key)
  }

  /** `v.get(key)` on a dict; any other value has no members. */
  function Get(v: Json, key: string): Option<Json>
  {
    if v.JObj? then Lookup(v.members, key) else None
  }

  /** `v.get(key, default)` where the value is used as text. */
  function GetText(v: Json, key: string, default: string): string
  {
    match Get(v, key)
    case None => default
    case Some(x) => Show(x)
  }

  /** `v.get(key, [])` where the value is iterated as a list. */
  function GetList(v: Json, key: string): seq<Json>
  {
    match Get(v, key)
    case Some(JArr(items)) => items
    case _ => []
  }

  function Quote(s: string, q: char): string
  {
    [q] + s + [q]
  }

  /**
   * Python's `repr` (py) or `json.dumps` with default separators (not py).
   * Escaping inside strings is not modelled.
   */
  function Render(v: Json, py: bool): string
    decreases v, 1
  {
    match v
    case JNull => if py then "None" else "null"
    case JBool(b) => if py then (if b then "True" else "False") else (if b then "true" else "false")
    case JInt(i) => IntToString(i)
    case JFloat(_, repr) => repr
    case JStr(s) => if py then Quote(s, '\'') else Quote(s, '"')
    case JArr(items) => "[" + RenderItems(v, items, py) + "]"
    case JObj(members) => "{" + RenderMembers(v, members, py) + "}"
  }

  function RenderItems(ghost parent: Json, items: seq<Json>, py: bool): string
    requires forall i :: 0 <= i < |items| ==> items[i] < parent
    decreases parent, 0, |items|
  {
    if items == [] then ""
    else Render(items[0], py) + (if |items| == 1 then "" else ", " + RenderItems(parent, items[1..], py))
  }

  function RenderMembers(ghost parent: Json, ms: seq<Member>, py: bool): string
    requires forall i :: 0 <= i < |ms| ==> ms[i].value < parent
    decreases parent, 0, |ms|
  {
    if ms == [] then ""
    else
      Quote(ms[0].key, if py then '\'' else '"') + ": " + Render(ms[0].value, py)
      + (if |ms| == 1 then "" else ", " + RenderMembers(parent, ms[1..], py))
  }

  /** Python's `str(v)`: a string is itself, anything else its `repr`. */
  function Show(v: Json): string
  {
    if v.JStr? then v.s else Render(v, true)
  }

  /** Python's `json.dumps(v)`. */
  function Dumps(v: Json): string
  {
    Render(v, false)
  }

  function Spaces(n: nat): (r: string)
    ensures |r| == n && forall i :: 0 <= i < n ==> r[i] == ' '
  {
    seq(n, _ => ' ')
  }

  /** Python's `json.dumps(v, indent=2)` for a value nested `level` deep. */
  function Pretty(v: Json, level: nat): string
    decreases v, 1
  {
    match v
    case JArr(items) =>
      if items == [] then "[]" else "[\n" + PrettyItems(v, items, level + 1) + "\n" + Spaces(2 * level) + "]"
    case JObj(members) =>
      if members == [] then "{}" else "{\n" + PrettyMembers(v, members, level + 1) + "\n" + Spaces(2 * level) + "}"
    case _ => Render(v, false)
  }

  function PrettyItems(ghost parent: Json, items: seq<Json>, level: nat): string
    requires forall i :: 0 <= i < |items| ==> items[i] < parent
    decreases parent, 0, |items|
  {
    if items == [] then ""
    else Spaces(2 * level) + Pretty(items[0], level)
         + (if |items| == 1 then "" else ",\n" + PrettyItems(parent, items[1..], level))
  }

  function PrettyMembers(ghost parent: Json, ms: seq<Member>, level: nat): string
    requires forall i :: 0 <= i < |ms| ==> ms[i].value < parent
    decreases parent, 0, |ms|
  {
    if ms == [] then ""
    else Spaces(2 * level) + Quote(ms[0].key, '"') + ": " + Pretty(ms[0].value, level)
         + (if |ms| == 1 then "" else ",\n" + PrettyMembers(parent, ms[1..], level))
  }

  /** What `for s in v` walks through: a list's items, a string's characters, a dict's keys; anything else cannot be iterated. */
  function Iterated(v: Json): (r: Result<seq<Json>, string>)
    ensures v.JArr? ==> r == Ok(v.items)
    ensures r.Ok? <==> (v.JArr? || v.JStr? || v.JObj?)
  {
    match v
    case JArr(items) => Ok(items)
    case JStr(s) => Ok(seq(|s|, i requires 0 <= i < |s| => JStr([s[i]])))
    case JObj(ms) => Ok(seq(|ms|, i requires 0 <= i < |ms| => JStr(ms[i].key)))
    case _ => Err("object is not iterable")
  }

  /** A dict's value is a part of the dict, so a recursion into it terminates. */
  lemma {:induction false} LookupSmaller(ms: seq<Member>, key: string)
    ensures Lookup(ms, key).Some? ==> exists i :: 0 <= i < |ms| && ms[i].value == Lookup(ms, key).value
  {
    if ms != [] && ms[|ms| - 1].key != key {
      LookupSmaller(ms[..|ms| - 1], key);
    }
  }

  lemma GetSmaller(v: Json, key: string)
    ensures Get(v, key).Some? ==> Get(v, key).value < v
  {
    if v.JObj? && Get(v, key).Some? {
      LookupSmaller(v.members, key);
      var i :| 0 <= i < |v.members| && v.members[i].value == Get(v, key).value;
      assert v.members[i] in v.members;
    }
  }
}
