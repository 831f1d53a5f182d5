/**
 * The single-file GAS dashboard server's data side: it reads each agent's
 * generation records, merges them into the agent's status, summarises the
 * shared knowledge store and aggregates the swarm (wave flags, succession
 * events, counts and the mean progress).
 *
 * The directory listing of an agent's `generations` folder and the result of
 * reading each `status.json` are inputs: `None` stands for a folder that is
 * missing or unreadable, or (for the other documents) a file that is missing
 * or not JSON.  The
 * standalone server carries the same code for these parts and builds on
 * this module.
 */
module Dashboard {
  import opened Wrappers
  import opened Seqs
  import opened Text
  import opened Json
  import Sorting
  import Counter
  import opened Means

  // ---------------------------------------------------------------------
  // Generation records

  /**
   * What `read_json_file` does with a generation's `status.json`: returns
   * None (missing, not readable, not JSON), raises UnicodeDecodeError (bytes
   * that are not UTF-8; a ValueError, which the listing loop catches), or
   * returns the decoded value.
   */
  datatype FileRead = Unreadable | NotUtf8 | Loaded(doc: Json)

  /** One entry of an agent's `generations` folder and what reading its `status.json` gave. */
  datatype GenDir = GenDir(name: string, status: FileRead)

  /** `int(name.replace('gen-', ''))`; `None` is the `ValueError`. */
  function GenNumber(name: string): Option<int>
  {
    ParseInt(Replace(name, "gen-", ""))
  }

  /** The record used for a generation whose status file gave nothing. */
  function DefaultGeneration(n: int): Json
  {
    JObj([Member("generation", JInt(n)), Member("status", JStr("pending")),
          Member("progress", JInt(0)), Member("confidence", JFloat(1.0, "1.0"))])
  }

  /** `read_json_file(...) or {...}`: the status file when it gave a truthy value, the default otherwise. */
  predicate Found(doc: Option<Json>)
  {
    doc.Some? && Truthy(doc.value)
  }

  /**
   * The record the listing loop keeps for one entry: only `gen-` names with
   * a number count, and an entry whose status file is not UTF-8 is dropped.
   */
  function GenRecord(d: GenDir): Option<Json>
  {
    if !StartsWith(d.name, "gen-") then None
    else
      match GenNumber(d.name)
      case None => None
      case Some(n) =>
        match d.status
        case NotUtf8 => None
        case Unreadable => Some(DefaultGeneration(n))
        case Loaded(v) => Some(if Truthy(v) then v else DefaultGeneration(n))
  }

  /** The records of a listing, in listing order. */
  function GenRecords(dirs: seq<GenDir>): (r: seq<Json>)
    ensures |r| <= |dirs|
  {
    Picked(dirs, GenRecord)
  }

  /** What a reader keeps of each entry of a listing, in listing order. */
  function Picked(dirs: seq<GenDir>, pick: GenDir -> Option<Json>): (r: seq<Json>)
    ensures |r| <= |dirs|
  {
    if dirs == [] then []
    else
      var last := pick(dirs[|dirs| - 1]);
      Picked(dirs[..|dirs| - 1], pick) + (if last.Some? then [last.value] else [])
  }

  /** A record is kept exactly when some `gen-` entry with a number produced it. */
  lemma GenRecordsMembers(dirs: seq<GenDir>, x: Json)
    ensures x in GenRecords(dirs) <==> exists k :: 0 <= k < |dirs| && GenRecord(dirs[k]) == Some(x)
  {
    PickedMembers(dirs, GenRecord, x);
  }

  /** A value is kept exactly when the reader kept it for some entry. */
  lemma {:induction false} PickedMembers(dirs: seq<GenDir>, pick: GenDir -> Option<Json>, x: Json)
    ensures x in Picked(dirs, pick) <==> exists k :: 0 <= k < |dirs| && pick(dirs[k]) == Some(x)
  {
    if dirs != [] {
      var init := dirs[..|dirs| - 1];
      PickedMembers(init, pick, x);
      assert forall k :: 0 <= k < |init| ==> init[k] == dirs[k];
      if x in Picked(init, pick) {
        var k :| 0 <= k < |init| && pick(init[k]) == Some(x);
        assert pick(dirs[k]) == Some(x);
      }
    }
  }

  /**
   * A missing or falsy status file gives the pending default for its
   * generation number, and one that is not UTF-8 drops the entry.
   */
  lemma MissingStatusIsPending(name: string, n: int)
    requires StartsWith(name, "gen-") && GenNumber(name) == Some(n)
    ensures GenRecord(GenDir(name, Unreadable)) == Some(DefaultGeneration(n))
    ensures forall v :: !Truthy(v) ==> GenRecord(GenDir(name, Loaded(v))) == Some(DefaultGeneration(n))
    ensures GenRecord(GenDir(name, NotUtf8)) == None
    ensures Get(DefaultGeneration(n), "status") == Some(JStr("pending"))
    ensures Get(DefaultGeneration(n), "generation") == Some(JInt(n))
    ensures Get(DefaultGeneration(n), "progress") == Some(JInt(0))
  {
    DefaultGenerationFields(n);
  }

  /** The default record's status, generation and progress. */
  lemma DefaultGenerationFields(n: int)
    ensures Get(DefaultGeneration(n), "status") == Some(JStr("pending"))
    ensures Get(DefaultGeneration(n), "generation") == Some(JInt(n))
    ensures Get(DefaultGeneration(n), "progress") == Some(JInt(0))
  {
    var ms := DefaultGeneration(n).members;
    var m3, m2, m1 := ms[..3], ms[..2], ms[..1];
    assert m3[..2] == m2 && m2[..1] == m1;
    assert Lookup(ms, "progress") == Lookup(m3, "progress") == Some(JInt(0));
    assert Lookup(ms, "status") == Lookup(m3, "status") == Lookup(m2, "status") == Some(JStr("pending"));
    assert Lookup(ms, "generation") == Lookup(m3, "generation") == Lookup(m2, "generation") == Lookup(m1, "generation");
  }

  /** `x.get('generation', 0)`, the key `sorted` and `max` compare. */
  function KeyValue(rec: Json): Json
  {
    Get(rec, "generation").GetOr(JInt(0))
  }

  /** Keys `sorted` can compare with each other: numbers (bool included) with numbers, strings with strings. */
  predicate KeysComparable(a: Json, b: Json)
  {
    (Numeric(a) && Numeric(b)) || (a.JStr? && b.JStr?)
  }

  /** Numbers, then strings, then keys Python never orders. */
  function KeyRank(k: Json): nat
  {
    if Numeric(k) then 0 else if k.JStr? then 1 else 2
  }

  /**
   * Python's `a < b` on two comparable keys: numbers by value, strings code
   * point by code point.  Keys of different ranks are ordered by rank, which
   * makes the order total; no comparison `sorted` completes ever mixes them.
   */
  predicate KeyLess(a: Json, b: Json)
  {
    if KeyRank(a) != KeyRank(b) then KeyRank(a) < KeyRank(b)
    else if Numeric(a) then Num(a) < Num(b)
    else if a.JStr? then StrLess(a.s, b.s)
    else false
  }

  lemma KeyLessOrder(a: Json, b: Json, c: Json)
    ensures KeyLess(a, b) ==> !KeyLess(b, a)
    ensures KeyLess(a, c) ==> KeyLess(a, b) || KeyLess(b, c)
  {
    if a.JStr? && b.JStr? {
      StrLessTotal(a.s, b.s);
    }
    if a.JStr? && b.JStr? && c.JStr? && StrLess(a.s, c.s) && !StrLess(a.s, b.s) {
      StrLessTotal(a.s, b.s);
      if a.s != b.s {
        StrLessTransitive(b.s, a.s, c.s);
      }
    }
  }

  function ByGeneration(): (Json, Json) -> bool
  {
    (a: Json, b: Json) => KeyLess(KeyValue(a), KeyValue(b))
  }

  lemma ByGenerationIsOrder()
    ensures Sorting.StrictWeakOrder(ByGeneration())
  {
    forall a, b, c ensures ByGeneration()(a, b) ==> !ByGeneration()(b, a)
                   ensures ByGeneration()(a, c) ==> ByGeneration()(a, b) || ByGeneration()(b, c)
    {
      KeyLessOrder(KeyValue(a), KeyValue(b), KeyValue(c));
    }
  }

  /** Every two keys of the records can be compared. */
  predicate Orderable(recs: seq<Json>)
  {
    forall i, j :: 0 <= i < |recs| && 0 <= j < |recs| ==> KeysComparable(KeyValue(recs[i]), KeyValue(recs[j]))
  }

  /**
   * `sorted(generations, key=lambda x: x.get('generation', 0))`: the key is
   * taken of every record (a record that is not a dict raises
   * AttributeError), and once there are two records the keys are compared,
   * which raises TypeError unless they are all numbers or all strings (a sort
   * that finishes has compared every pair of neighbours in its result, so
   * two kinds of key always meet).
   */
  function SortedGenerations(recs: seq<Json>): (r: Result<seq<Json>, string>)
    ensures r.Ok? <==> (forall i :: 0 <= i < |recs| ==> recs[i].JObj?) && (|recs| >= 2 ==> Orderable(recs))
    ensures r.Ok? ==> Sorting.Sorted(r.value, ByGeneration()) && multiset(r.value) == multiset(recs)
    ensures r.Ok? ==> forall i :: 0 <= i < |r.value| ==> r.value[i].JObj?
  {
    if exists i :: 0 <= i < |recs| && !recs[i].JObj? then Err("AttributeError: object has no attribute 'get'")
    else if |recs| >= 2 && !Orderable(recs) then
      Err("TypeError: '<' not supported between instances")
    else
      ByGenerationIsOrder();
      Sorting.SortSorted(recs, ByGeneration());
      var sorted := Sorting.Sort(recs, ByGeneration());
      SameObjects(sorted, recs);
      Ok(sorted)
  }

  /** A status record that names only its generation. */
  function GenerationOnly(g: Json): Json
  {
    JObj([Member("generation", g)])
  }

  /** Two records with string generations sort as strings. */
  lemma StringGenerationsSort()
    ensures SortedGenerations([GenerationOnly(JStr("2")), GenerationOnly(JStr("1"))])
            == Ok([GenerationOnly(JStr("1")), GenerationOnly(JStr("2"))])
  {
    var a, b := GenerationOnly(JStr("1")), GenerationOnly(JStr("2"));
    StringKeysOrdered();
    var recs := [b, a];
    assert Orderable(recs);
    assert !(exists i :: 0 <= i < |recs| && !recs[i].JObj?);
    assert SortedGenerations(recs) == Ok(Sorting.Sort(recs, ByGeneration()));
    Sorting.SwapsPair(b, a, ByGeneration());
  }

  lemma StringKeysOrdered()
    ensures KeyValue(GenerationOnly(JStr("1"))) == JStr("1") && KeyValue(GenerationOnly(JStr("2"))) == JStr("2")
    ensures ByGeneration()(GenerationOnly(JStr("1")), GenerationOnly(JStr("2")))
  {
    assert StrLess("1", "2");
  }

  /** A number and a string among the generation keys cannot be sorted. */
  lemma MixedGenerationsRaise()
    ensures SortedGenerations([GenerationOnly(JStr("1")), GenerationOnly(JInt(2))]).Err?
  {
    var recs := [GenerationOnly(JStr("1")), GenerationOnly(JInt(2))];
    assert KeyValue(recs[0]) == JStr("1") && KeyValue(recs[1]) == JInt(2);
    assert !KeysComparable(KeyValue(recs[0]), KeyValue(recs[1]));
  }

  /** A rearrangement of dicts holds only dicts. */
  lemma SameObjects(xs: seq<Json>, ys: seq<Json>)
    requires multiset(xs) == multiset(ys) && forall i :: 0 <= i < |ys| ==> ys[i].JObj?
    ensures forall i :: 0 <= i < |xs| ==> xs[i].JObj?
  {
    forall i | 0 <= i < |xs| ensures xs[i].JObj? {
      assert xs[i] in multiset(ys);
    }
  }

  /** What `get_agent_generations` returns for a listing; no folder gives no records. */
  function Generations(listing: Option<seq<GenDir>>): Result<seq<Json>, string>
  {
    match listing
    case None => Ok([])
    case Some(dirs) => SortedGenerations(GenRecords(dirs))
  }

  /**
   * `get_agent_generations`: collects one record per numbered `gen-` entry,
   * in listing order, and sorts them by generation number.
   */
  method AgentGenerations(listing: Option<seq<GenDir>>) returns (r: Result<seq<Json>, string>)
    ensures r == Generations(listing)
    ensures listing.Some? && r.Ok? ==>
      && Sorting.Sorted(r.value, ByGeneration())
      && forall x :: x in r.value <==> exists k :: 0 <= k < |listing.value| && GenRecord(listing.value[k]) == Some(x)
  {
    if listing.None? {
      return Ok([]);
    }
    var dirs := listing.value;
    var generations := CollectGenerations(dirs);
    r := SortedGenerations(generations);
    GenerationsFacts(dirs);
  }

  /** The listing loop of `get_agent_generations`: one record per numbered `gen-` entry, in listing order. */
  method CollectGenerations(dirs: seq<GenDir>) returns (generations: seq<Json>)
    ensures generations == GenRecords(dirs)
  {
    generations := [];
    var k := 0;
    while k < |dirs|
      invariant 0 <= k <= |dirs|
      invariant generations == GenRecords(dirs[..k])
    {
      var d := dirs[k];
      GenRecordsStep(dirs, k);
      if StartsWith(d.name, "gen-") {
        var n := GenNumber(d.name);
        if n.Some? {
          match d.status {
            case NotUtf8 =>
            case Unreadable =>
              generations := generations + [DefaultGeneration(n.value)];
            case Loaded(v) =>
              var status := if Truthy(v) then v else DefaultGeneration(n.value);
              generations := generations + [status];
          }
        }
      }
      k := k + 1;
    }
    TakeAll(dirs);
  }

  /** One more entry of the listing adds its record, if it has one. */
  lemma GenRecordsStep(dirs: seq<GenDir>, k: nat)
    requires k < |dirs|
    ensures GenRecords(dirs[..k + 1]) == GenRecords(dirs[..k]) + (if GenRecord(dirs[k]).Some? then [GenRecord(dirs[k]).value] else [])
  {
    TakeSnoc(dirs, k);
  }

  /** The sorted records are in generation order and are exactly the records of the listing. */
  lemma GenerationsFacts(dirs: seq<GenDir>)
    ensures var r := Generations(Some(dirs));
      r.Ok? ==>
      && Sorting.Sorted(r.value, ByGeneration())
      && forall x :: x in r.value <==> exists k :: 0 <= k < |dirs| && GenRecord(dirs[k]) == Some(x)
  {
    var generations := GenRecords(dirs);
    var r := SortedGenerations(generations);
    if r.Ok? {
      forall x ensures x in r.value <==> exists k :: 0 <= k < |dirs| && GenRecord(dirs[k]) == Some(x) {
        assert x in r.value <==> x in multiset(r.value);
        assert x in generations <==> x in multiset(generations);
        GenRecordsMembers(dirs, x);
      }
    }
  }

  /**
   * `max(generations, key=...)`: the first record of greatest generation.
   * It runs on the sorted records, whose keys `sorted` has already compared.
   */
  function Latest(gens: seq<Json>): (i: nat)
    requires gens != []
    ensures i < |gens|
    ensures forall j :: 0 <= j < |gens| ==> !KeyLess(KeyValue(gens[i]), KeyValue(gens[j]))
    ensures forall j :: 0 <= j < i ==> KeyLess(KeyValue(gens[j]), KeyValue(gens[i]))
  {
    if |gens| == 1 then
      KeyLessOrder(KeyValue(gens[0]), KeyValue(gens[0]), KeyValue(gens[0]));
      0
    else
      var init := gens[..|gens| - 1];
      var i := Latest(init);
      var last := KeyValue(gens[|gens| - 1]);
      assert forall j :: 0 <= j < |init| ==> gens[j] == init[j];
      if KeyLess(KeyValue(gens[i]), last) then
        LastIsLatest(gens, i);
        |gens| - 1
      else
        i
  }

  /** A last key above the first maximum of the others is above every other key. */
  lemma LastIsLatest(gens: seq<Json>, i: nat)
    requires |gens| >= 2 && i < |gens| - 1
    requires forall j :: 0 <= j < |gens| - 1 ==> !KeyLess(KeyValue(gens[i]), KeyValue(gens[j]))
    requires KeyLess(KeyValue(gens[i]), KeyValue(gens[|gens| - 1]))
    ensures forall j :: 0 <= j < |gens| ==> !KeyLess(KeyValue(gens[|gens| - 1]), KeyValue(gens[j]))
    ensures forall j :: 0 <= j < |gens| - 1 ==> KeyLess(KeyValue(gens[j]), KeyValue(gens[|gens| - 1]))
  {
    var last := KeyValue(gens[|gens| - 1]);
    forall j | 0 <= j < |gens|
      ensures !KeyLess(last, KeyValue(gens[j]))
      ensures j < |gens| - 1 ==> KeyLess(KeyValue(gens[j]), last)
    {
      KeyLessOrder(KeyValue(gens[i]), KeyValue(gens[j]), last);
      KeyLessOrder(last, KeyValue(gens[i]), KeyValue(gens[j]));
      KeyLessOrder(KeyValue(gens[j]), last, last);
    }
  }

  // ---------------------------------------------------------------------
  // Agent status

  /** The agent record the server reports. */
  datatype AgentInfo = AgentInfo(id: string, role: Json, wave: Json, status: Json, currentGeneration: Json,
                                 totalGenerations: nat, progress: Json, generations: seq<Json>)

  /** The generation records of an agent are dicts, as `get_agent_generations` leaves them. */
  predicate Records(info: AgentInfo)
  {
    forall i :: 0 <= i < |info.generations| ==> info.generations[i].JObj?
  }

  /** The record `get_agent_status` returns, or the text of what it raises. */
  function Record(id: string, config: Json, roleDefault: Json, statusDoc: Option<Json>, listing: Option<seq<GenDir>>)
    : Result<AgentInfo, string>
  {
    if !config.JObj? || (Found(statusDoc) && !statusDoc.value.JObj?) then
      Err("AttributeError: object has no attribute 'get'")
    else
      match Generations(listing)
      case Err(e) => Err(e)
      case Ok(gens) =>
        var init := AgentInfo(id, Get(config, "role").GetOr(roleDefault), Get(config, "wave").GetOr(JInt(1)),
                              JStr("pending"), Get(config, "current_generation").GetOr(JInt(0)), |gens|, JInt(0), gens);
        var info := if !Found(statusDoc) then init
                    else init.(status := Get(statusDoc.value, "status").GetOr(JStr("running")),
                               progress := Get(statusDoc.value, "progress").GetOr(JInt(0)),
                               currentGeneration := Get(statusDoc.value, "generation").GetOr(JInt(1)));
        if gens == [] then Ok(info)
        else
          var latest := gens[Latest(gens)];
          Ok(info.(progress := Get(latest, "progress").GetOr(JInt(0)),
                   status := Get(latest, "status").GetOr(JStr("running")),
                   currentGeneration := Get(latest, "generation").GetOr(JInt(1))))
  }

  /**
   * `get_agent_status`: the defaults from the agent's configuration (whose
   * role falls back to `roleDefault`), overridden by its status file and then
   * by its latest generation record.
   */
  method AgentStatus(id: string, config: Json, roleDefault: Json, statusDoc: Option<Json>, listing: Option<seq<GenDir>>)
    returns (r: Result<AgentInfo, string>)
    ensures r == Record(id, config, roleDefault, statusDoc, listing)
    ensures r.Err? <==> !config.JObj? || (Found(statusDoc) && !statusDoc.value.JObj?) || Generations(listing).Err?
    ensures r.Ok? ==>
      && Records(r.value)
      && r.value.id == id
      && r.value.role == Get(config, "role").GetOr(roleDefault)
      && r.value.wave == Get(config, "wave").GetOr(JInt(1))
      && r.value.generations == Generations(listing).value
      && r.value.totalGenerations == |Generations(listing).value|
    ensures r.Ok? && Generations(listing).value != [] ==>
      var gens := Generations(listing).value;
      var latest := gens[Latest(gens)];
      && r.value.status == Get(latest, "status").GetOr(JStr("running"))
      && r.value.progress == Get(latest, "progress").GetOr(JInt(0))
      && r.value.currentGeneration == Get(latest, "generation").GetOr(JInt(1))
    ensures r.Ok? && Generations(listing).value == [] && Found(statusDoc) ==>
      && r.value.status == Get(statusDoc.value, "status").GetOr(JStr("running"))
      && r.value.progress == Get(statusDoc.value, "progress").GetOr(JInt(0))
      && r.value.currentGeneration == Get(statusDoc.value, "generation").GetOr(JInt(1))
    ensures r.Ok? && Generations(listing).value == [] && !Found(statusDoc) ==>
      && r.value.status == JStr("pending")
      && r.value.progress == JInt(0)
      && r.value.currentGeneration == Get(config, "current_generation").GetOr(JInt(0))
  {
    if !config.JObj? {
      return Err("AttributeError: object has no attribute 'get'");
    }
    var info := AgentInfo(id, Get(config, "role").GetOr(roleDefault), Get(config, "wave").GetOr(JInt(1)),
                          JStr("pending"), Get(config, "current_generation").GetOr(JInt(0)), 0, JInt(0), []);
    if Found(statusDoc) {
      var doc := statusDoc.value;
      if !doc.JObj? {
        return Err("AttributeError: object has no attribute 'get'");
      }
      info := info.(status := Get(doc, "status").GetOr(JStr("running")),
                    progress := Get(doc, "progress").GetOr(JInt(0)),
                    currentGeneration := Get(doc, "generation").GetOr(JInt(1)));
    }
    var generations := AgentGenerations(listing);
    if generations.Err? {
      return Err(generations.error);
    }
    var gens := generations.value;
    info := info.(generations := gens, totalGenerations := |gens|);
    if gens != [] {
      var latest := gens[Latest(gens)];
      info := info.(progress := Get(latest, "progress").GetOr(JInt(0)),
                    status := Get(latest, "status").GetOr(JStr("running")),
                    currentGeneration := Get(latest, "generation").GetOr(JInt(1)));
    }
    r := Ok(info);
  }

  // ---------------------------------------------------------------------
  // Knowledge summary

  datatype Knowledge = Knowledge(successPatterns: nat, antiPatterns: nat, domainInsights: nat,
                                 totalGenerations: Json, patterns: Json,
                                 contributions: Counter.Counts<Json>)

  /** The summary of a store that could not be read or is empty. */
  const NoKnowledge := Knowledge(0, 0, 0, JInt(0), JArr([]), [])

  /** `len(v)`: items of a list, characters of a string, keys of a dict. */
  function Len(v: Json): (r: Result<nat, string>)
    ensures v.JArr? ==> r == Ok(|v.items|)
  {
    match v
    case JArr(items) => Ok(|items|)
    case JStr(s) => Ok(|s|)
    case JObj(ms) => Ok(|set i | 0 <= i < |ms| :: ms[i].key|)
    case _ => Err("TypeError: object has no len()")
  }

  /** `store.get(key, [])`. */
  function ListAt(store: Json, key: string): Json
  {
    Get(store, key).GetOr(JArr([]))
  }

  /** `pattern.get('source_agent', 'unknown')` as a dict key: the pattern must be a dict and the value hashable. */
  function Source(pattern: Json): Result<Json, string>
  {
    if !pattern.JObj? then Err("AttributeError: object has no attribute 'get'")
    else
      var agent := Get(pattern, "source_agent").GetOr(JStr("unknown"));
      if Hashable(agent) then Ok(agent) else Err("TypeError: unhashable type")
  }

  /** The contributing agents of the patterns, in order; the first bad pattern raises. */
  function Sources(patterns: seq<Json>): (r: Result<seq<Json>, string>)
    ensures r.Ok? <==> forall i :: 0 <= i < |patterns| ==> Source(patterns[i]).Ok?
    ensures r.Ok? ==> |r.value| == |patterns| && forall i :: 0 <= i < |patterns| ==> r.value[i] == Source(patterns[i]).value
  {
    if patterns == [] then Ok([])
    else
      var init := patterns[..|patterns| - 1];
      assert forall i :: 0 <= i < |init| ==> init[i] == patterns[i];
      match Sources(init)
      case Err(e) => Err(e)
      case Ok(agents) =>
        match Source(patterns[|patterns| - 1])
        case Err(e) => Err(e)
        case Ok(a) => Ok(agents + [a])
  }

  /**
   * What `for pattern in success_patterns` visits: the items of a list, and
   * nothing for an empty string or dict; a non-empty string or dict yields
   * strings, whose `.get` raises, and any other value is not iterable.
   */
  function Iterated(success: Json): (r: Result<seq<Json>, string>)
    ensures success.JArr? ==> r == Ok(success.items)
    ensures r.Ok? ==> success.JArr? || success == JStr("") || success == JObj([])
  {
    match success
    case JArr(items) => Ok(items)
    case JStr(t) => if t == "" then Ok([]) else Err("AttributeError: 'str' object has no attribute 'get'")
    case JObj(ms) => if ms == [] then Ok([]) else Err("AttributeError: 'str' object has no attribute 'get'")
    case _ => Err("TypeError: object is not iterable")
  }

  /**
   * The store can be summarised: a dict whose success patterns are a list of
   * dicts or the empty string (which the loop visits no times, and which
   * `len` and `[:5]` accept), and whose other lists have a length.
   */
  predicate Summarisable(store: Json)
  {
    && store.JObj?
    && (ListAt(store, "success_patterns") == JStr("")
        || (ListAt(store, "success_patterns").JArr? && Sources(ListAt(store, "success_patterns").items).Ok?))
    && Len(ListAt(store, "anti_patterns")).Ok?
    && Len(ListAt(store, "domain_knowledge")).Ok?
  }

  /**
   * `get_knowledge_store`: counts the patterns of each kind, keeps the first
   * five success patterns and counts the success patterns per contributing
   * agent.  The errors come in the code's order: the loop, the lengths, then
   * `[:5]`, which an empty dict does not allow.
   */
  function Summary(store: Option<Json>): (r: Result<Knowledge, string>)
    ensures !Found(store) ==> r == Ok(NoKnowledge)
    ensures Found(store) ==> (r.Ok? <==> Summarisable(store.value))
    ensures r.Ok? && Found(store) ==>
      var success := ListAt(store.value, "success_patterns");
      var items := if success.JArr? then success.items else [];
      && r.value.successPatterns == |items|
      && r.value.antiPatterns == Len(ListAt(store.value, "anti_patterns")).value
      && r.value.domainInsights == Len(ListAt(store.value, "domain_knowledge")).value
      && r.value.totalGenerations == Get(store.value, "total_generations_across_swarm").GetOr(JInt(0))
      && (success.JArr? ==> r.value.patterns == JArr(PyUpTo(items, 5)))
      && (!success.JArr? ==> success == JStr("") && r.value.patterns == JStr(""))
      && r.value.contributions == Counter.CountAll(Sources(items).value)
    ensures r.Ok? ==> Len(r.value.patterns).Ok? && Len(r.value.patterns).value <= 5
    ensures r.Ok? ==> Counter.Total(r.value.contributions) == r.value.successPatterns
    ensures r.Ok? ==> Counter.DistinctKeys(r.value.contributions)
  {
    if !Found(store) then Ok(NoKnowledge)
    else
      var doc := store.value;
      if !doc.JObj? then Err("AttributeError: object has no attribute 'get'")
      else
        var success := ListAt(doc, "success_patterns");
        match Iterated(success)
        case Err(e) => Err(e)
        case Ok(items) =>
          match Sources(items)
          case Err(e) => Err(e)
          case Ok(agents) =>
            var anti := Len(ListAt(doc, "anti_patterns"));
            var domain := Len(ListAt(doc, "domain_knowledge"));
            if anti.Err? then Err(anti.error)
            else if domain.Err? then Err(domain.error)
            else if success.JObj? then Err("TypeError: unhashable type: 'slice'")
            else
              Counter.CountAllTotal(agents);
              Counter.CountAllDistinct(agents);
              Ok(Knowledge(|items|, anti.value, domain.value,
                           Get(doc, "total_generations_across_swarm").GetOr(JInt(0)),
                           if success.JArr? then JArr(PyUpTo(items, 5)) else success,
                           Counter.CountAll(agents)))
  }

  /** A store whose success patterns are the empty string is summarised with no patterns; an empty dict there raises at `[:5]`. */
  lemma EmptyTextPatternsSummarised()
    ensures Summary(Some(JObj([Member("success_patterns", JStr(""))]))) == Ok(Knowledge(0, 0, 0, JInt(0), JStr(""), []))
    ensures Summary(Some(JObj([Member("success_patterns", JObj([]))]))).Err?
  {
    var store := JObj([Member("success_patterns", JStr(""))]);
    assert ListAt(store, "success_patterns") == JStr("");
    assert ListAt(store, "anti_patterns") == JArr([]);
    assert ListAt(store, "domain_knowledge") == JArr([]);
    var odd := JObj([Member("success_patterns", JObj([]))]);
    assert ListAt(odd, "success_patterns") == JObj([]);
  }

  /** `get_knowledge_store` as the server runs it, counting the contributions in a loop. */
  method KnowledgeSummary(store: Option<Json>) returns (r: Result<Knowledge, string>)
    ensures r == Summary(store)
  {
    if !Found(store) {
      return Ok(NoKnowledge);
    }
    var doc := store.value;
    if !doc.JObj? {
      return Err("AttributeError: object has no attribute 'get'");
    }
    var success := ListAt(doc, "success_patterns");
    var iterated := Iterated(success);
    if iterated.Err? {
      return Err(iterated.error);
    }
    var items := iterated.value;
    var counted := CountSources(items);
    if counted.Err? {
      return Err(counted.error);
    }
    var contributions := counted.value;
    var anti := Len(ListAt(doc, "anti_patterns"));
    if anti.Err? {
      return Err(anti.error);
    }
    var domain := Len(ListAt(doc, "domain_knowledge"));
    if domain.Err? {
      return Err(domain.error);
    }
    if success.JObj? {
      return Err("TypeError: unhashable type: 'slice'");
    }
    r := Ok(Knowledge(|items|, anti.value, domain.value,
                      Get(doc, "total_generations_across_swarm").GetOr(JInt(0)),
                      if success.JArr? then JArr(PyUpTo(items, 5)) else success, contributions));
  }

  /** The loop of `get_knowledge_store` counting the success patterns per source agent. */
  method CountSources(items: seq<Json>) returns (r: Result<Counter.Counts<Json>, string>)
    ensures r.Ok? <==> Sources(items).Ok?
    ensures r.Ok? ==> r.value == Counter.CountAll(Sources(items).value)
    ensures r.Err? ==> r.error == Sources(items).error
  {
    var contributions: Counter.Counts<Json> := [];
    var k := 0;
    while k < |items|
      invariant 0 <= k <= |items|
      invariant Sources(items[..k]).Ok?
      invariant contributions == Counter.CountAll(Sources(items[..k]).value)
    {
      SourcesStep(items, k);
      var agent := Source(items[k]);
      if agent.Err? {
        SourcesErrSticky(items, k + 1);
        return Err(agent.error);
      }
      contributions := Counter.Inc(contributions, agent.value);
      k := k + 1;
    }
    TakeAll(items);
    r := Ok(contributions);
  }

  /** One more pattern: its source appended, or the error its source raises. */
  /** Once a prefix of the patterns raises, the whole loop raises the same error. */
  lemma {:induction false} SourcesErrSticky(items: seq<Json>, k: nat)
    requires k <= |items| && Sources(items[..k]).Err?
    ensures Sources(items) == Sources(items[..k])
    decreases |items| - k
  {
    if k == |items| {
      assert items[..k] == items;
    } else {
      assert items[..k + 1][..k] == items[..k];
      SourcesErrSticky(items, k + 1);
    }
  }

  lemma SourcesStep(items: seq<Json>, k: nat)
    requires k < |items| && Sources(items[..k]).Ok?
    ensures Sources(items[..k + 1]) ==
              match Source(items[k])
              case Err(e) => Err(e)
              case Ok(a) => Ok(Sources(items[..k]).value + [a])
  {
    TakeSnoc(items, k);
  }

  // ---------------------------------------------------------------------
  // Waves

  /** The agents dict of the status, in the order of the configuration. */
  type Agents = seq<(string, AgentInfo)>

  predicate DistinctIds(agents: Agents)
  {
    forall i, j :: 0 <= i < j < |agents| ==> agents[i].0 != agents[j].0
  }

  function FindAgent(agents: Agents, id: string): (r: Option<AgentInfo>)
    ensures r.Some? ==> exists i :: 0 <= i < |agents| && agents[i] == (id, r.value)
    ensures r.None? <==> forall i :: 0 <= i < |agents| ==> agents[i].0 != id
  {
    if agents == [] then None
    else if agents[0].0 == id then Some(agents[0].1)
    else
      var r := FindAgent(agents[1..], id);
      assert forall i :: 1 <= i < |agents| ==> agents[i] == agents[1..][i - 1];
      r
  }

  /** `agents.get(a, {}).get('status') == status`: an id names an agent only as a string; an unhashable id raises. */
  predicate HasStatus(agents: Agents, a: Json, status: string)
  {
    a.JStr? && FindAgent(agents, a.s).Some? && FindAgent(agents, a.s).value.status == JStr(status)
  }

  /** `all(... == 'completed' for a in members)`, which stops at the first agent that is not completed. */
  function AllCompleted(agents: Agents, members: seq<Json>): (r: Result<bool, string>)
    ensures r == Ok(true) <==> forall i :: 0 <= i < |members| ==> HasStatus(agents, members[i], "completed")
  {
    if members == [] then Ok(true)
    else
      assert forall i :: 1 <= i < |members| ==> members[i] == members[1..][i - 1];
      if !Hashable(members[0]) then Err("TypeError: unhashable type")
      else if !HasStatus(agents, members[0], "completed") then Ok(false)
      else AllCompleted(agents, members[1..])
  }

  /** `all` raises exactly when it reaches an unhashable id: one after completed agents only. */
  lemma {:induction false} AllCompletedRaises(agents: Agents, members: seq<Json>)
    ensures AllCompleted(agents, members).Err? <==>
              exists i :: 0 <= i < |members| && !Hashable(members[i])
                          && forall j :: 0 <= j < i ==> HasStatus(agents, members[j], "completed")
  {
    if members != [] {
      var rest := members[1..];
      assert forall i :: 1 <= i < |members| ==> members[i] == rest[i - 1];
      AllCompletedRaises(agents, rest);
      if Hashable(members[0]) && HasStatus(agents, members[0], "completed") {
        if AllCompleted(agents, rest).Err? {
          var i :| 0 <= i < |rest| && !Hashable(rest[i]) && forall j :: 0 <= j < i ==> HasStatus(agents, rest[j], "completed");
          assert forall j :: 0 <= j < i + 1 ==> HasStatus(agents, members[j], "completed");
        }
      }
    }
  }

  /** `any(... == 'running' for a in members)`, which stops at the first running agent. */
  function AnyRunning(agents: Agents, members: seq<Json>): (r: Result<bool, string>)
    ensures r == Ok(true) ==> exists i :: 0 <= i < |members| && HasStatus(agents, members[i], "running")
  {
    if members == [] then Ok(false)
    else
      assert forall i :: 1 <= i < |members| ==> members[i] == members[1..][i - 1];
      if !Hashable(members[0]) then Err("TypeError: unhashable type")
      else if HasStatus(agents, members[0], "running") then Ok(true)
      else AnyRunning(agents, members[1..])
  }

  /** When `any` returns, its answer is whether some member is running. */
  lemma {:induction false} AnyRunningDecides(agents: Agents, members: seq<Json>)
    ensures AnyRunning(agents, members).Ok? ==>
              (AnyRunning(agents, members).value <==> exists i :: 0 <= i < |members| && HasStatus(agents, members[i], "running"))
  {
    if members != [] && Hashable(members[0]) && !HasStatus(agents, members[0], "running") {
      AnyRunningDecides(agents, members[1..]);
      assert forall i :: 1 <= i < |members| ==> members[i] == members[1..][i - 1];
    }
  }

  /** `any` raises exactly when it reaches an unhashable id: one after agents that are not running. */
  lemma {:induction false} AnyRunningRaises(agents: Agents, members: seq<Json>)
    ensures AnyRunning(agents, members).Err? <==>
              exists i :: 0 <= i < |members| && !Hashable(members[i])
                          && forall j :: 0 <= j < i ==> Hashable(members[j]) && !HasStatus(agents, members[j], "running")
  {
    if members != [] {
      var rest := members[1..];
      assert forall i :: 1 <= i < |members| ==> members[i] == rest[i - 1];
      AnyRunningRaises(agents, rest);
      if Hashable(members[0]) && !HasStatus(agents, members[0], "running") {
        if AnyRunning(agents, rest).Err? {
          var i :| 0 <= i < |rest| && !Hashable(rest[i])
                   && forall j :: 0 <= j < i ==> Hashable(rest[j]) && !HasStatus(agents, rest[j], "running");
          assert forall j :: 0 <= j < i + 1 ==> Hashable(members[j]) && !HasStatus(agents, members[j], "running");
        }
      }
    }
  }

  /** Members that are all hashable never make `all` or `any` raise. */
  lemma FlagsOfHashable(agents: Agents, members: seq<Json>)
    ensures (forall i :: 0 <= i < |members| ==> Hashable(members[i])) ==>
              AllCompleted(agents, members).Ok? && AnyRunning(agents, members).Ok?
  {
    AllCompletedRaises(agents, members);
    AnyRunningRaises(agents, members);
  }

  /** One entry of `wave_status`. */
  datatype WaveFlags = WaveFlags(agents: Json, completed: bool, inProgress: bool)

  /** The flags of one wave; a member list that cannot be iterated raises. */
  function Flags(agents: Agents, waveAgents: Json): (r: Result<WaveFlags, string>)
    ensures r.Ok? ==> r.value.agents == waveAgents && Iterated(waveAgents).Ok?
    ensures waveAgents.JArr? && (forall i :: 0 <= i < |waveAgents.items| ==> Hashable(waveAgents.items[i])) ==> r.Ok?
  {
    match Iterated(waveAgents)
    case Err(e) => Err(e)
    case Ok(members) =>
      FlagsOfHashable(agents, members);
      match AllCompleted(agents, members)
      case Err(e) => Err(e)
      case Ok(completed) =>
        match AnyRunning(agents, members)
        case Err(e) => Err(e)
        case Ok(running) => Ok(WaveFlags(waveAgents, completed, running))
  }

  /** A wave is completed when all its members are, and in progress when any member is running. */
  lemma FlagsMeaning(agents: Agents, waveAgents: Json)
    requires Flags(agents, waveAgents).Ok?
    ensures var f := Flags(agents, waveAgents).value; var members := Iterated(waveAgents).value;
      && (f.completed <==> forall i :: 0 <= i < |members| ==> HasStatus(agents, members[i], "completed"))
      && (f.inProgress <==> exists i :: 0 <= i < |members| && HasStatus(agents, members[i], "running"))
  {
    AnyRunningDecides(agents, Iterated(waveAgents).value);
  }

  /** The `wave_status` dict built from the items of the swarm's `waves` dict. */
  function WaveStatus(agents: Agents, waves: seq<(string, Json)>): (r: Result<seq<(string, WaveFlags)>, string>)
    ensures r.Ok? <==> forall i :: 0 <= i < |waves| ==> Flags(agents, waves[i].1).Ok?
    ensures r.Ok? ==> |r.value| == |waves|
    ensures r.Ok? ==> forall i :: 0 <= i < |waves| ==> r.value[i].0 == waves[i].0 && Flags(agents, waves[i].1) == Ok(r.value[i].1)
  {
    FlagsOf(waves, members => Flags(agents, members))
  }

  /** Each wave's name with the flags of its members, in order; the first flags that raise end it. */
  function FlagsOf(waves: seq<(string, Json)>, flags: Json -> Result<WaveFlags, string>): (r: Result<seq<(string, WaveFlags)>, string>)
    ensures r.Ok? <==> forall i :: 0 <= i < |waves| ==> flags(waves[i].1).Ok?
    ensures r.Ok? ==> |r.value| == |waves|
    ensures r.Ok? ==> forall i :: 0 <= i < |waves| ==> r.value[i].0 == waves[i].0 && flags(waves[i].1) == Ok(r.value[i].1)
  {
    if waves == [] then Ok([])
    else
      var init := waves[..|waves| - 1];
      assert forall i :: 0 <= i < |init| ==> init[i] == waves[i];
      match FlagsOf(init, flags)
      case Err(e) => Err(e)
      case Ok(done) =>
        match flags(waves[|waves| - 1].1)
        case Err(e) => Err(e)
        case Ok(f) =>
          var all := done + [(waves[|waves| - 1].0, f)];
          assert forall i :: 0 <= i < |init| ==> all[i] == done[i];
          assert forall i :: 0 <= i < |init| ==> all[i].0 == waves[i].0 && flags(waves[i].1) == Ok(all[i].1);
          assert all[|init|] == (waves[|init|].0, f);
          Ok(all)
  }

  /** A wave without members counts as completed and not in progress. */
  lemma EmptyWaveCompleted(agents: Agents)
    ensures Flags(agents, JArr([])) == Ok(WaveFlags(JArr([]), true, false))
  {
  }

  // ---------------------------------------------------------------------
  // Succession events

  datatype Succession = Succession(agent: string, fromGen: Json, toGen: Json, reason: Json)

  /** `v + 1` on a generation number; anything but a number raises TypeError. */
  function Successor(v: Json): (r: Result<Json, string>)
    ensures r.Ok? <==> Numeric(v)
    ensures r.Ok? ==> Numeric(r.value) && Num(r.value) == Num(v) + 1.0
  {
    match v
    case JInt(i) => Ok(JInt(i + 1))
    case JBool(b) => Ok(JInt(if b then 2 else 1))
    case JFloat(x, _) => Ok(JFloat(x + 1.0, ""))
    case _ => Err("TypeError: unsupported operand type(s) for +")
  }

  /** `gen.get('status') in ['completed', 'needs_succession']`. */
  predicate Handed(gen: Json)
  {
    Get(gen, "status") == Some(JStr("completed")) || Get(gen, "status") == Some(JStr("needs_succession"))
  }

  /** The generation number an event starts from: the record's own, or its 1-based position. */
  function FromGen(gen: Json, i: nat): Json
  {
    Get(gen, "generation").GetOr(JInt(i + 1))
  }

  /** The event for the i-th generation record of an agent, if it is one that handed over. */
  function Step(id: string, gen: Json, i: nat): (r: Result<Option<Succession>, string>)
    ensures r.Ok? <==> !Handed(gen) || Numeric(FromGen(gen, i))
    ensures r.Ok? ==> (r.value.Some? <==> Handed(gen))
  {
    if !Handed(gen) then Ok(None)
    else
      match Successor(FromGen(gen, i))
      case Err(e) => Err(e)
      case Ok(to) => Ok(Some(Succession(id, FromGen(gen, i), to, Get(gen, "succession_reason").GetOr(JStr("unknown")))))
  }

  /** The events of the first n generation records of one agent. */
  function AgentEvents(id: string, gens: seq<Json>, n: nat): (r: Result<seq<Succession>, string>)
    requires n <= |gens|
    ensures r.Ok? <==> forall i :: 0 <= i < n ==> Step(id, gens[i], i).Ok?
  {
    if n == 0 then Ok([])
    else
      match AgentEvents(id, gens, n - 1)
      case Err(e) => Err(e)
      case Ok(done) =>
        match Step(id, gens[n - 1], n - 1)
        case Err(e) => Err(e)
        case Ok(s) => Ok(done + (if s.Some? then [s.value] else []))
  }

  /** The events are exactly those of the handed-over generations among the first n. */
  lemma {:induction false} AgentEventsMembers(id: string, gens: seq<Json>, n: nat, e: Succession)
    requires n <= |gens| && AgentEvents(id, gens, n).Ok?
    ensures e in AgentEvents(id, gens, n).value <==> exists i :: 0 <= i < n && Step(id, gens[i], i) == Ok(Some(e))
  {
    if n > 0 {
      AgentEventsMembers(id, gens, n - 1, e);
    }
  }

  /** How many generations hand over among a list's non-last generations: one event each. */
  function Handovers(gens: seq<Json>, n: nat): nat
    requires n <= |gens|
  {
    if n == 0 then 0 else Handovers(gens, n - 1) + (if Handed(gens[n - 1]) then 1 else 0)
  }

  /** Each succession event starts at a handed-over generation and ends at the next generation number. */
  lemma {:induction false} AgentEventsShape(id: string, gens: seq<Json>, n: nat)
    requires n <= |gens|
    requires AgentEvents(id, gens, n).Ok?
    ensures |AgentEvents(id, gens, n).value| == Handovers(gens, n)
    ensures forall e :: e in AgentEvents(id, gens, n).value ==>
              e.agent == id && Numeric(e.fromGen) && Num(e.toGen) == Num(e.fromGen) + 1.0
  {
    if n > 0 {
      AgentEventsShape(id, gens, n - 1);
    }
  }

  /** `enumerate(agent.get('generations', [])[:-1])`: every generation record but the last one. */
  function Handing(gens: seq<Json>): nat
  {
    if gens == [] then 0 else |gens| - 1
  }

  /** The succession events of all agents, agent by agent. */
  function EventsOf(agents: Agents): (r: Result<seq<Succession>, string>)
  {
    if agents == [] then Ok([])
    else
      var last := agents[|agents| - 1];
      match EventsOf(agents[..|agents| - 1])
      case Err(e) => Err(e)
      case Ok(done) =>
        match AgentEvents(last.0, last.1.generations, Handing(last.1.generations))
        case Err(e) => Err(e)
        case Ok(es) => Ok(done + es)
  }

  /** The latest generation of an agent never yields an event. */
  lemma NoEventFromLast(id: string, gens: seq<Json>, e: Succession)
    requires AgentEvents(id, gens, Handing(gens)).Ok?
    requires e in AgentEvents(id, gens, Handing(gens)).value
    ensures exists i :: 0 <= i < |gens| - 1 && Handed(gens[i]) && e.fromGen == FromGen(gens[i], i)
  {
    AgentEventsMembers(id, gens, Handing(gens), e);
    var i :| 0 <= i < Handing(gens) && Step(id, gens[i], i) == Ok(Some(e));
  }

  /** The loop that collects the succession events. */
  method Successions(agents: Agents) returns (r: Result<seq<Succession>, string>)
    ensures r == EventsOf(agents)
  {
    var events: seq<Succession> := [];
    var k := 0;
    while k < |agents|
      invariant 0 <= k <= |agents|
      invariant EventsOf(agents[..k]) == Ok(events)
    {
      TakeSnoc(agents, k);
      assert agents[..k + 1][k] == agents[k];
      var mine := AgentSuccessions(agents[k].0, agents[k].1.generations);
      if mine.Err? {
        assert EventsOf(agents[..k + 1]) == Err(mine.error);
        EventsOfErr(agents, k + 1);
        return Err(mine.error);
      }
      assert EventsOf(agents[..k + 1]) == Ok(events + mine.value);
      events := events + mine.value;
      k := k + 1;
    }
    TakeAll(agents);
    r := Ok(events);
  }

  /** The inner loop: the events of one agent's generations but the last. */
  method AgentSuccessions(id: string, gens: seq<Json>) returns (r: Result<seq<Succession>, string>)
    ensures r == AgentEvents(id, gens, Handing(gens))
  {
    var i := 0;
    var mine: seq<Succession> := [];
    while i < Handing(gens)
      invariant 0 <= i <= Handing(gens) <= |gens|
      invariant AgentEvents(id, gens, i) == Ok(mine)
    {
      var step := Step(id, gens[i], i);
      if step.Err? {
        assert AgentEvents(id, gens, i + 1) == Err(step.error);
        AgentEventsErr(id, gens, i + 1, Handing(gens));
        return Err(step.error);
      }
      ghost var before := mine;
      if step.value.Some? {
        mine := mine + [step.value.value];
      }
      assert AgentEvents(id, gens, i + 1) == Ok(before + (if step.value.Some? then [step.value.value] else []));
      assert mine == before + (if step.value.Some? then [step.value.value] else []);
      i := i + 1;
    }
    r := Ok(mine);
  }

  /** An error among the first records stays an error over more records. */
  lemma {:induction false} AgentEventsErr(id: string, gens: seq<Json>, m: nat, n: nat)
    requires m <= n <= |gens|
    requires AgentEvents(id, gens, m).Err?
    ensures AgentEvents(id, gens, n) == AgentEvents(id, gens, m)
  {
    if m < n {
      AgentEventsErr(id, gens, m, n - 1);
    }
  }

  /** An error among the first agents stays an error over all agents. */
  lemma {:induction false} EventsOfErr(agents: Agents, k: nat)
    requires k <= |agents|
    requires EventsOf(agents[..k]).Err?
    ensures EventsOf(agents) == EventsOf(agents[..k])
  {
    if k < |agents| {
      assert agents[..|agents| - 1][..k] == agents[..k];
      EventsOfErr(agents[..|agents| - 1], k);
    } else {
      TakeAll(agents);
    }
  }

  // ---------------------------------------------------------------------
  // Aggregates

  /** `sum(1 for a in agents.values() if a['status'] == status)`. */
  function CountWithStatus(agents: Agents, status: string): (n: nat)
    ensures n <= |agents|
  {
    if agents == [] then 0
    else CountWithStatus(agents[..|agents| - 1], status) + (if agents[|agents| - 1].1.status == JStr(status) then 1 else 0)
  }

  /** `sum(a.get('total_generations', 0) for a in agents.values())`. */
  function TotalGenerations(agents: Agents): nat
  {
    if agents == [] then 0 else TotalGenerations(agents[..|agents| - 1]) + agents[|agents| - 1].1.totalGenerations
  }

  /** The sum of the agents' progress values; a value that is not a number raises TypeError. */
  function ProgressSum(agents: Agents): (r: Result<real, string>)
    ensures r.Ok? <==> forall i :: 0 <= i < |agents| ==> Numeric(agents[i].1.progress)
  {
    if agents == [] then Ok(0.0)
    else
      var init := agents[..|agents| - 1];
      assert forall i :: 0 <= i < |init| ==> init[i] == agents[i];
      var p := agents[|agents| - 1].1.progress;
      match ProgressSum(init)
      case Err(e) => Err(e)
      case Ok(s) => if Numeric(p) then Ok(s + Num(p)) else Err("TypeError: unsupported operand type(s) for +")
  }

  /** The overall progress: the mean of the agents' progress values, 0 without agents. */
  function MeanProgress(agents: Agents): (r: Result<real, string>)
    ensures r.Ok? <==> forall i :: 0 <= i < |agents| ==> Numeric(agents[i].1.progress)
    ensures agents == [] ==> r == Ok(0.0)
  {
    if agents == [] then Ok(0.0)
    else
      match ProgressSum(agents)
      case Err(e) => Err(e)
      case Ok(s) => Ok(s / (|agents| as real))
  }

  /** A sum of values within the bounds lies between as many copies of each bound. */
  lemma {:induction false} ProgressSumWithin(agents: Agents, lo: real, hi: real)
    requires forall i :: 0 <= i < |agents| ==> Numeric(agents[i].1.progress) && lo <= Num(agents[i].1.progress) <= hi
    ensures Times(|agents|, lo) <= ProgressSum(agents).value <= Times(|agents|, hi)
  {
    if agents != [] {
      var init := agents[..|agents| - 1];
      assert forall i :: 0 <= i < |init| ==> init[i] == agents[i];
      ProgressSumWithin(init, lo, hi);
      var s := ProgressSum(init).value;
      var p := Num(agents[|agents| - 1].1.progress);
      assert ProgressSum(agents) == Ok(s + p);
      assert Times(|agents|, lo) == Times(|init|, lo) + lo && Times(|agents|, hi) == Times(|init|, hi) + hi;
    }
  }

  /** The mean lies between the least and the greatest progress; all agents at p give exactly p. */
  lemma MeanWithin(agents: Agents, lo: real, hi: real)
    requires agents != []
    requires forall i :: 0 <= i < |agents| ==> Numeric(agents[i].1.progress) && lo <= Num(agents[i].1.progress) <= hi
    ensures lo <= MeanProgress(agents).value <= hi
  {
    ProgressSumWithin(agents, lo, hi);
    var s := ProgressSum(agents).value;
    assert MeanProgress(agents).value == s / (|agents| as real);
    AverageWithin(|agents|, s, lo, hi);
  }

  /** The figures `get_gas_status` reports about the swarm as a whole. */
  datatype Totals = Totals(totalAgents: nat, completedAgents: nat, runningAgents: nat,
                           totalGenerations: nat, overallProgress: real)

  /** The aggregates of the status; the percentage is left unrounded. */
  function Aggregates(agents: Agents): (r: Result<Totals, string>)
    ensures r.Ok? <==> MeanProgress(agents).Ok?
    ensures r.Ok? ==> r.value.completedAgents + r.value.runningAgents <= r.value.totalAgents == |agents|
  {
    CompletedRunningDisjoint(agents);
    match MeanProgress(agents)
    case Err(e) => Err(e)
    case Ok(p) =>
      Ok(Totals(|agents|, CountWithStatus(agents, "completed"), CountWithStatus(agents, "running"),
                TotalGenerations(agents), p))
  }

  /** No agent is counted both completed and running. */
  lemma {:induction false} CompletedRunningDisjoint(agents: Agents)
    ensures CountWithStatus(agents, "completed") + CountWithStatus(agents, "running") <= |agents|
  {
    if agents != [] {
      CompletedRunningDisjoint(agents[..|agents| - 1]);
    }
  }

  /** Every generation record of every agent is counted once in the total. */
  lemma {:induction false} TotalGenerationsCounts(agents: Agents)
    requires forall i :: 0 <= i < |agents| ==> agents[i].1.totalGenerations == |agents[i].1.generations|
    ensures TotalGenerations(agents) == |AllRecords(agents)|
  {
    if agents != [] {
      var init := agents[..|agents| - 1];
      assert forall i :: 0 <= i < |init| ==> init[i] == agents[i];
      TotalGenerationsCounts(init);
    }
  }

  /** All generation records of the agents, agent by agent. */
  function AllRecords(agents: Agents): seq<Json>
  {
    if agents == [] then [] else AllRecords(agents[..|agents| - 1]) + agents[|agents| - 1].1.generations
  }

  // ---------------------------------------------------------------------
  // Elapsed time

  /** Python's `int(x)` of a time difference in seconds, given in microseconds: truncation toward zero. */
  function WholeSeconds(micros: int): int
  {
    if micros >= 0 then micros / 1000000 else -((-micros) / 1000000)
  }

  /** The text for hours, minutes and seconds: the fields from the leading non-zero unit on. */
  function Hms(hours: nat, minutes: nat, seconds: nat): string
  {
    if hours > 0 then NatToString(hours) + "h " + NatToString(minutes) + "m " + NatToString(seconds) + "s"
    else if minutes > 0 then NatToString(minutes) + "m " + NatToString(seconds) + "s"
    else NatToString(seconds) + "s"
  }

  /** The text for a non-negative number of seconds, split by `divmod` into hours, minutes and seconds. */
  function ElapsedText(total: nat): string
  {
    Hms(total / 3600, (total % 3600) / 60, total % 60)
  }

  /**
   * `format_elapsed_time`: `wallClock` is the start time's reading as
   * `fromisoformat` gives it, in microseconds (`None` when it raises), and
   * `now` the UTC clock's; the server subtracts the two readings directly.
   * A non-negative difference is shown so that it reads back exactly.
   */
  function FormatElapsed(wallClock: Option<int>, now: int): (r: string)
    ensures wallClock.None? ==> r == "Unknown"
    ensures wallClock.Some? && WholeSeconds(now - wallClock.value) < 0 ==> r == "0s"
    ensures wallClock.Some? && WholeSeconds(now - wallClock.value) >= 0 ==>
              ReadElapsed(r) == Some(WholeSeconds(now - wallClock.value) as nat)
  {
    match wallClock
    case None => "Unknown"
    case Some(start) =>
      var total := WholeSeconds(now - start);
      if total < 0 then "0s"
      else
        ElapsedRoundTrip(total);
        ElapsedText(total)
  }

  /** A piece such as "12m": a number followed by its unit letter. */
  function UnitValue(piece: string, unit: char): Option<nat>
  {
    if |piece| > 0 && piece[|piece| - 1] == unit then ParseNat(piece[..|piece| - 1]) else None
  }

  /** Reading an elapsed-time text back into seconds. */
  function ReadElapsed(text: string): Option<nat>
  {
    var pieces := Split(text, " ");
    if |pieces| == 1 then UnitValue(pieces[0], 's')
    else if |pieces| == 2 then
      match (UnitValue(pieces[0], 'm'), UnitValue(pieces[1], 's'))
      case (Some(m), Some(s)) => Some(m * 60 + s)
      case _ => None
    else if |pieces| == 3 then
      match (UnitValue(pieces[0], 'h'), UnitValue(pieces[1], 'm'), UnitValue(pieces[2], 's'))
      case (Some(h), Some(m), Some(s)) => Some(h * 3600 + m * 60 + s)
      case _ => None
    else None
  }

  /** The numeral of a piece reads back as its number. */
  lemma UnitValueOf(n: nat, unit: char)
    ensures UnitValue(NatToString(n) + [unit], unit) == Some(n)
  {
    var p := NatToString(n) + [unit];
    assert p[..|p| - 1] == NatToString(n);
    ParseNatToString(n);
  }

  /** Three pieces with their units read back as hours, minutes and seconds. */
  lemma ReadThree(hp: string, mp: string, sp: string, hours: nat, minutes: nat, seconds: nat)
    requires Split(hp + " " + mp + " " + sp, " ") == [hp, mp, sp]
    requires UnitValue(hp, 'h') == Some(hours) && UnitValue(mp, 'm') == Some(minutes) && UnitValue(sp, 's') == Some(seconds)
    ensures ReadElapsed(hp + " " + mp + " " + sp) == Some(hours * 3600 + minutes * 60 + seconds)
  {
  }

  lemma ReadTwo(mp: string, sp: string, minutes: nat, seconds: nat)
    requires Split(mp + " " + sp, " ") == [mp, sp]
    requires UnitValue(mp, 'm') == Some(minutes) && UnitValue(sp, 's') == Some(seconds)
    ensures ReadElapsed(mp + " " + sp) == Some(minutes * 60 + seconds)
  {
  }

  /** Reading the text of hours, minutes and seconds gives their total. */
  lemma {:induction false} ReadHms(hours: nat, minutes: nat, seconds: nat)
    ensures ReadElapsed(Hms(hours, minutes, seconds)) == Some(hours * 3600 + minutes * 60 + seconds)
  {
    if hours > 0 {
      ReadHmsThree(hours, minutes, seconds);
    } else if minutes > 0 {
      ReadHmsTwo(hours, minutes, seconds);
    } else {
      ReadHmsOne(hours, minutes, seconds);
    }
  }

  lemma ReadHmsThree(hours: nat, minutes: nat, seconds: nat)
    requires hours > 0
    ensures ReadElapsed(Hms(hours, minutes, seconds)) == Some(hours * 3600 + minutes * 60 + seconds)
  {
    var hp, mp, sp := NatToString(hours) + "h", NatToString(minutes) + "m", NatToString(seconds) + "s";
    UnitValueOf(hours, 'h');
    UnitValueOf(minutes, 'm');
    UnitValueOf(seconds, 's');
    NumeralPieceHasNoSpace(hours, 'h');
    NumeralPieceHasNoSpace(minutes, 'm');
    NumeralPieceHasNoSpace(seconds, 's');
    assert Hms(hours, minutes, seconds) == hp + " " + mp + " " + sp;
    SplitThree(hp, mp, sp);
    ReadThree(hp, mp, sp, hours, minutes, seconds);
  }

  lemma ReadHmsTwo(hours: nat, minutes: nat, seconds: nat)
    requires hours == 0 && minutes > 0
    ensures ReadElapsed(Hms(hours, minutes, seconds)) == Some(hours * 3600 + minutes * 60 + seconds)
  {
    var mp, sp := NatToString(minutes) + "m", NatToString(seconds) + "s";
    UnitValueOf(minutes, 'm');
    UnitValueOf(seconds, 's');
    NumeralPieceHasNoSpace(minutes, 'm');
    NumeralPieceHasNoSpace(seconds, 's');
    assert Hms(hours, minutes, seconds) == mp + " " + sp;
    SplitTwo(mp, sp);
    ReadTwo(mp, sp, minutes, seconds);
  }

  lemma ReadHmsOne(hours: nat, minutes: nat, seconds: nat)
    requires hours == 0 && minutes == 0
    ensures ReadElapsed(Hms(hours, minutes, seconds)) == Some(hours * 3600 + minutes * 60 + seconds)
  {
    UnitValueOf(seconds, 's');
    NumeralPieceHasNoSpace(seconds, 's');
    SplitNoSpace(NatToString(seconds) + "s");
  }

  /** Reading the elapsed-time text back gives the number of seconds it was made from. */
  lemma ElapsedRoundTrip(total: nat)
    ensures ReadElapsed(ElapsedText(total)) == Some(total)
  {
    ReadHms(total / 3600, (total % 3600) / 60, total % 60);
  }
}
