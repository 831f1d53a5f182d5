/**
 * How the standalone dashboard reads an agent's output: the text is split
 * into newline-delimited JSON events, and the events give the tool-usage
 * counts, the live event feed and the list of files the agent wrote.
 *
 * `json.loads` is the parameter `decode`.  The extractors call `.get` on
 * every event, so an event that is not a dict raises, as does a name or
 * path that is not hashable when it goes into a dict or a set.
 */
module StandaloneEvents {
  import opened Wrappers
  import opened Seqs
  import opened Text
  import opened Json
  import Counter

  const MaxLiveEvents: int := 30
  const MaxContentLength: int := 200
  const MaxFilesCreated: int := 20

  const NotADict := "AttributeError: object has no attribute 'get'"
  const Unhashable := "TypeError: unhashable type"

  // ---------------------------------------------------------------------
  // Gathering per-event results

  /** The lists `f` gives for each element, joined in order; the first error stops the walk. */
  function Gather<T, U>(xs: seq<T>, f: T -> Result<seq<U>, string>): (r: Result<seq<U>, string>)
  {
    if xs == [] then Ok([])
    else
      match Gather(xs[..|xs| - 1], f)
      case Err(e) => Err(e)
      case Ok(done) =>
        match f(xs[|xs| - 1])
        case Err(e) => Err(e)
        case Ok(more) => Ok(done + more)
  }

  /** One more element: its list is appended, or its error becomes the result. */
  lemma GatherStep<T, U>(xs: seq<T>, f: T -> Result<seq<U>, string>, k: nat)
    requires k < |xs| && Gather(xs[..k], f).Ok?
    ensures f(xs[k]).Ok? ==> Gather(xs[..k + 1], f) == Ok(Gather(xs[..k], f).value + f(xs[k]).value)
    ensures f(xs[k]).Err? ==> Gather(xs[..k + 1], f) == Err(f(xs[k]).error)
  {
    TakeSnoc(xs, k);
  }

  /** An error among the first elements is the error of the whole walk. */
  lemma {:induction false} GatherErr<T, U>(xs: seq<T>, f: T -> Result<seq<U>, string>, k: nat)
    requires k <= |xs| && Gather(xs[..k], f).Err?
    ensures Gather(xs, f) == Gather(xs[..k], f)
  {
    if k < |xs| {
      assert xs[..|xs| - 1][..k] == xs[..k];
      GatherErr(xs[..|xs| - 1], f, k);
    } else {
      TakeAll(xs);
    }
  }

  /** The walk succeeds exactly when every element's list can be built. */
  lemma {:induction false} GatherOk<T, U>(xs: seq<T>, f: T -> Result<seq<U>, string>)
    ensures Gather(xs, f).Ok? <==> forall i :: 0 <= i < |xs| ==> f(xs[i]).Ok?
  {
    if xs != [] {
      var init := xs[..|xs| - 1];
      GatherOk(init, f);
      assert forall i :: 0 <= i < |init| ==> init[i] == xs[i];
    }
  }

  /** What the walk yields is what some element's list holds. */
  lemma {:induction false} GatherMembers<T, U>(xs: seq<T>, f: T -> Result<seq<U>, string>, y: U)
    requires Gather(xs, f).Ok?
    ensures y in Gather(xs, f).value <==> exists i :: 0 <= i < |xs| && f(xs[i]).Ok? && y in f(xs[i]).value
  {
    if xs != [] {
      var init := xs[..|xs| - 1];
      GatherMembers(init, f, y);
      assert forall i :: 0 <= i < |init| ==> init[i] == xs[i];
    }
  }

  // ---------------------------------------------------------------------
  // parse_json_lines

  /** The events of a list of lines: each stripped, non-blank line that decodes. */
  function JsonLines(lines: seq<string>, decode: string -> Option<Json>): (r: seq<Json>)
    ensures |r| <= |lines|
  {
    if lines == [] then []
    else
      var done := JsonLines(lines[..|lines| - 1], decode);
      var line := Strip(lines[|lines| - 1]);
      if line == "" then done
      else match decode(line)
        case None => done
        case Some(v) => done + [v]
  }

  /** Every event is the decoding of one non-blank stripped line. */
  lemma {:induction false} JsonLinesMembers(lines: seq<string>, decode: string -> Option<Json>, v: Json)
    requires v in JsonLines(lines, decode)
    ensures exists i :: 0 <= i < |lines| && Strip(lines[i]) != "" && decode(Strip(lines[i])) == Some(v)
  {
    var init := lines[..|lines| - 1];
    if v in JsonLines(init, decode) {
      JsonLinesMembers(init, decode, v);
      var i :| 0 <= i < |init| && Strip(init[i]) != "" && decode(Strip(init[i])) == Some(v);
      assert init[i] == lines[i];
    } else {
      var line := Strip(lines[|lines| - 1]);
      assert line != "" && decode(line).Some?;
      assert JsonLines(lines, decode) == JsonLines(init, decode) + [decode(line).value];
      assert decode(line) == Some(v);
    }
  }

  /** `parse_json_lines`: blank and undecodable lines are skipped, so there are no more events than lines. */
  method ParseJsonLines(content: string, decode: string -> Option<Json>) returns (events: seq<Json>)
    ensures events == JsonLines(Split(content, "\n"), decode)
    ensures |events| <= |Split(content, "\n")|
  {
    var lines := Split(content, "\n");
    events := [];
    for k := 0 to |lines|
      invariant events == JsonLines(lines[..k], decode)
    {
      TakeSnoc(lines, k);
      var line := Strip(lines[k]);
      if line == "" {
        continue;
      }
      var v := decode(line);
      if v.Some? {
        events := events + [v.value];
      }
    }
    TakeAll(lines);
  }

  // ---------------------------------------------------------------------
  // Assistant messages

  /** `event.get('type') == 'assistant' and 'message' in event`. */
  predicate IsAssistantMessage(event: Json)
  {
    Get(event, "type") == Some(JStr("assistant")) && Get(event, "message").Some?
  }

  /**
   * The items `for item in msg['content']` walks when `'content' in msg`
   * and the content is a list.  `in` on a string is a substring test and on
   * a list a membership test, after which `msg['content']` raises; `in` on
   * a number, a bool or None raises at once.
   */
  function ContentOf(msg: Json): (r: Result<seq<Json>, string>)
    ensures msg.JObj? ==> r.Ok?
  {
    match msg
    case JObj(_) =>
      if Get(msg, "content").Some? && Get(msg, "content").value.JArr? then Ok(Get(msg, "content").value.items) else Ok([])
    case JStr(s) => if Contains(s, "content") then Err("TypeError: string indices must be integers") else Ok([])
    case JArr(xs) => if JStr("content") in xs then Err("TypeError: list indices must be integers") else Ok([])
    case _ => Err("TypeError: argument is not iterable")
  }

  /** The message items of an event that the extractors walk; none for other events. */
  function MessageItems(event: Json): Result<seq<Json>, string>
  {
    if IsAssistantMessage(event) then ContentOf(Get(event, "message").value) else Ok([])
  }

  /** `isinstance(item, dict) and item.get('type') == 'tool_use'`. */
  predicate IsToolUse(item: Json)
  {
    item.JObj? && Get(item, "type") == Some(JStr("tool_use"))
  }

  // ---------------------------------------------------------------------
  // extract_tool_usage

  /** The name a `tool_use` item is counted under: its `name`, or "unknown". */
  function ItemToolNames(item: Json): (r: Result<seq<Json>, string>)
  {
    if !IsToolUse(item) then Ok([])
    else
      var name := Get(item, "name").GetOr(JStr("unknown"));
      if Hashable(name) then Ok([name]) else Err(Unhashable)
  }

  /** The names one event counts, in order: its own `name`, then those of its `tool_use` items. */
  function EventToolNames(event: Json): (r: Result<seq<Json>, string>)
  {
    if !event.JObj? then Err(NotADict)
    else
      var direct := if Get(event, "name").Some? then [Get(event, "name").value] else [];
      if direct != [] && !Hashable(direct[0]) then Err(Unhashable)
      else
        match MessageItems(event)
        case Err(e) => Err(e)
        case Ok(items) =>
          match Gather(items, ItemToolNames)
          case Err(e) => Err(e)
          case Ok(names) => Ok(direct + names)
  }

  /** The tool-usage dict: every counted name, counted in order. */
  function ToolUsage(events: seq<Json>): Result<Counter.Counts<Json>, string>
  {
    match Gather(events, EventToolNames)
    case Err(e) => Err(e)
    case Ok(names) => Ok(Counter.CountAll(names))
  }

  /** Counting one more name. */
  lemma CountAllSnoc(names: seq<Json>, name: Json)
    ensures Counter.CountAll(names + [name]) == Counter.Inc(Counter.CountAll(names), name)
  {
    assert (names + [name])[..|names|] == names;
  }

  /**
   * `extract_tool_usage`: the counts of the tool names, each count the
   * number of times its name occurs; the counts sum to the number of names.
   */
  method ExtractToolUsage(events: seq<Json>) returns (r: Result<Counter.Counts<Json>, string>)
    ensures r == ToolUsage(events)
    ensures r.Ok? ==> Counter.DistinctKeys(r.value)
                      && Counter.Total(r.value) == |Gather(events, EventToolNames).value|
  {
    var tools: Counter.Counts<Json> := [];
    ghost var names: seq<Json> := [];
    for k := 0 to |events|
      invariant Gather(events[..k], EventToolNames) == Ok(names)
      invariant tools == Counter.CountAll(names)
    {
      GatherStep(events, EventToolNames, k);
      var counted := CountEvent(events[k], tools, names);
      if counted.Err? {
        GatherErr(events, EventToolNames, k + 1);
        return Err(counted.error);
      }
      tools := counted.value;
      names := names + EventToolNames(events[k]).value;
    }
    TakeAll(events);
    Counter.CountAllTotal(names);
    Counter.CountAllDistinct(names);
    r := Ok(tools);
  }

  /** The body of the loop of `extract_tool_usage`: counting one event's names. */
  method CountEvent(event: Json, tools: Counter.Counts<Json>, ghost names: seq<Json>)
    returns (r: Result<Counter.Counts<Json>, string>)
    requires tools == Counter.CountAll(names)
    ensures r.Err? <==> EventToolNames(event).Err?
    ensures r.Err? ==> r.error == EventToolNames(event).error
    ensures r.Ok? ==> r.value == Counter.CountAll(names + EventToolNames(event).value)
  {
    if !event.JObj? {
      return Err(NotADict);
    }
    var counts := tools;
    ghost var seen := names;
    var name := Get(event, "name");
    if name.Some? {
      if !Hashable(name.value) {
        return Err(Unhashable);
      }
      CountAllSnoc(names, name.value);
      counts := Counter.Inc(counts, name.value);
      seen := names + [name.value];
    }
    var items := MessageItems(event);
    if items.Err? {
      return Err(items.error);
    }
    var counted := CountItems(items.value, counts, seen);
    if counted.Err? {
      return Err(counted.error);
    }
    ghost var direct := if name.Some? then [name.value] else [];
    ghost var g := Gather(items.value, ItemToolNames).value;
    assert EventToolNames(event) == Ok(direct + g);
    EmptyAppend(names);
    assert seen == names + direct;
    AppendAssoc(names, direct, g);
    r := counted;
  }

  /** The inner loop of `extract_tool_usage`: counting the `tool_use` items of one message. */
  method CountItems(items: seq<Json>, tools: Counter.Counts<Json>, ghost names: seq<Json>)
    returns (r: Result<Counter.Counts<Json>, string>)
    requires tools == Counter.CountAll(names)
    ensures r.Err? <==> Gather(items, ItemToolNames).Err?
    ensures r.Err? ==> r.error == Gather(items, ItemToolNames).error
    ensures r.Ok? ==> r.value == Counter.CountAll(names + Gather(items, ItemToolNames).value)
  {
    var counts := tools;
    ghost var mine: seq<Json> := [];
    assert names + mine == names;
    for j := 0 to |items|
      invariant Gather(items[..j], ItemToolNames) == Ok(mine)
      invariant counts == Counter.CountAll(names + mine)
    {
      GatherStep(items, ItemToolNames, j);
      var item := items[j];
      if IsToolUse(item) {
        var name := Get(item, "name").GetOr(JStr("unknown"));
        if !Hashable(name) {
          GatherErr(items, ItemToolNames, j + 1);
          return Err(Unhashable);
        }
        CountAllSnoc(names + mine, name);
        AppendAssoc(names, mine, [name]);
        counts := Counter.Inc(counts, name);
        mine := mine + [name];
      } else {
        assert ItemToolNames(item) == Ok([]);
        assert mine + [] == mine;
      }
    }
    TakeAll(items);
    r := Ok(counts);
  }

  // ---------------------------------------------------------------------
  // extract_live_events

  /** An entry of the live feed. */
  datatype LiveEvent = LiveEvent(kind: Json, tool: Json, content: string, timestamp: Json, uuid: Json)

  /** `str(v)[:MAX_CONTENT_LENGTH]`. */
  function Clip(v: Json): (r: string)
    ensures |r| <= MaxContentLength
  {
    PyUpTo(Show(v), MaxContentLength)
  }

  /** The feed entry of a `tool_use` item, or of a non-blank `text` item, of an assistant event. */
  function ItemEntries(event: Json, item: Json): (r: Result<seq<LiveEvent>, string>)
    ensures r.Ok? && |r.value| <= 1
  {
    if !item.JObj? then Ok([])
    else if Get(item, "type") == Some(JStr("tool_use")) then
      Ok([LiveEvent(JStr("tool"), Get(item, "name").GetOr(JStr("")), Clip(Get(item, "input").GetOr(JStr(""))),
                    Get(event, "timestamp").GetOr(JNull), Get(item, "id").GetOr(JNull))])
    else if Get(item, "type") == Some(JStr("text")) then
      var text := Clip(Get(item, "text").GetOr(JStr("")));
      if Strip(text) != "" then
        Ok([LiveEvent(JStr("thinking"), JStr(""), text, Get(event, "timestamp").GetOr(JNull), Get(event, "uuid").GetOr(JNull))])
      else Ok([])
    else Ok([])
  }

  /** The event's own feed entry, built before it is known whether it is used. */
  function Direct(event: Json): LiveEvent
  {
    LiveEvent(Get(event, "type").GetOr(JStr("unknown")), Get(event, "name").GetOr(JStr("")),
              Clip(Get(event, "content").GetOr(JStr(""))),
              Get(event, "timestamp").GetOr(JNull), Get(event, "uuid").GetOr(JNull))
  }

  /** The entries one event adds: one per item of an assistant message, or the event itself when it says something. */
  function EventEntries(event: Json): (r: Result<seq<LiveEvent>, string>)
  {
    if !event.JObj? then Err(NotADict)
    else if IsAssistantMessage(event) then
      match ContentOf(Get(event, "message").value)
      case Err(e) => Err(e)
      case Ok(items) => Gather(items, item => ItemEntries(event, item))
    else if Direct(event).content != "" || Truthy(Direct(event).tool) then Ok([Direct(event)])
    else Ok([])
  }

  /** The live feed: the entries of the last 2·max events, of which the last max are kept. */
  function Live(events: seq<Json>, maxEvents: int): Result<seq<LiveEvent>, string>
  {
    match Gather(PyFrom(events, -maxEvents * 2), EventEntries)
    case Err(e) => Err(e)
    case Ok(entries) => Ok(PyFrom(entries, -maxEvents))
  }

  /** `extract_live_events`: at most `max_events` entries. */
  method ExtractLiveEvents(events: seq<Json>, maxEvents: int) returns (r: Result<seq<LiveEvent>, string>)
    ensures r == Live(events, maxEvents)
    ensures r.Ok? && maxEvents > 0 ==> |r.value| <= maxEvents
  {
    var window := PyFrom(events, -maxEvents * 2);
    var live: seq<LiveEvent> := [];
    for k := 0 to |window|
      invariant Gather(window[..k], EventEntries) == Ok(live)
    {
      GatherStep(window, EventEntries, k);
      var event := window[k];
      if !event.JObj? {
        GatherErr(window, EventEntries, k + 1);
        return Err(NotADict);
      }
      if IsAssistantMessage(event) {
        var items := ContentOf(Get(event, "message").value);
        if items.Err? {
          GatherErr(window, EventEntries, k + 1);
          return Err(items.error);
        }
        var mine := ItemsFeed(event, items.value);
        assert EventEntries(event) == Ok(mine);
        live := live + mine;
      } else {
        var direct := Direct(event);
        if direct.content != "" || Truthy(direct.tool) {
          assert EventEntries(event) == Ok([direct]);
          live := live + [direct];
        } else {
          assert EventEntries(event) == Ok([]);
          assert live + [] == live;
        }
      }
    }
    TakeAll(window);
    r := Ok(PyFrom(live, -maxEvents));
  }

  /** The inner loop of `extract_live_events`: the entries of one message's items. */
  method ItemsFeed(event: Json, items: seq<Json>) returns (mine: seq<LiveEvent>)
    ensures Gather(items, item => ItemEntries(event, item)) == Ok(mine)
  {
    var f := item => ItemEntries(event, item);
    mine := [];
    for j := 0 to |items|
      invariant Gather(items[..j], f) == Ok(mine)
    {
      GatherStep(items, f, j);
      var item := items[j];
      assert f(item) == ItemEntries(event, item);
      ghost var before := mine;
      if item.JObj? {
        if Get(item, "type") == Some(JStr("tool_use")) {
          mine := mine + [LiveEvent(JStr("tool"), Get(item, "name").GetOr(JStr("")), Clip(Get(item, "input").GetOr(JStr(""))),
                                    Get(event, "timestamp").GetOr(JNull), Get(item, "id").GetOr(JNull))];
        } else if Get(item, "type") == Some(JStr("text")) {
          var text := Clip(Get(item, "text").GetOr(JStr("")));
          if Strip(text) != "" {
            mine := mine + [LiveEvent(JStr("thinking"), JStr(""), text, Get(event, "timestamp").GetOr(JNull),
                                      Get(event, "uuid").GetOr(JNull))];
          }
        }
      }
      assert mine == before + f(item).value;
    }
    TakeAll(items);
  }

  /** Only the last 2·max events matter: older events change nothing in the feed. */
  lemma LiveIgnoresOlder(older: seq<Json>, recent: seq<Json>, maxEvents: int)
    requires maxEvents > 0 && |recent| >= 2 * maxEvents
    ensures Live(older + recent, maxEvents) == Live(recent, maxEvents)
  {
    var all := older + recent;
    assert PyFrom(all, -maxEvents * 2) == all[|all| - 2 * maxEvents..];
    assert PyFrom(recent, -maxEvents * 2) == recent[|recent| - 2 * maxEvents..];
    assert all[|all| - 2 * maxEvents..] == recent[|recent| - 2 * maxEvents..];
  }

  /** With a bound of 0 the slices `[-0:]` keep everything: every event and every entry. */
  lemma ZeroBoundKeepsAll(events: seq<Json>)
    ensures Live(events, 0) == Gather(events, EventEntries)
  {
  }

  // ---------------------------------------------------------------------
  // extract_files_created

  /** `name in ('Write', 'Edit', 'NotebookEdit')`. */
  predicate IsFileTool(name: Option<Json>)
  {
    name == Some(JStr("Write")) || name == Some(JStr("Edit")) || name == Some(JStr("NotebookEdit"))
  }

  /** `input_data.get('file_path') or input_data.get('notebook_path')`, added to the set when truthy. */
  function InputPath(input: Json): (r: Result<seq<Json>, string>)
    ensures r.Ok? ==> |r.value| <= 1 && forall p :: p in r.value ==> Truthy(p) && Hashable(p)
  {
    if !input.JObj? then Ok([])
    else
      var first := Get(input, "file_path");
      var path := if first.Some? && Truthy(first.value) then first.value else Get(input, "notebook_path").GetOr(JNull);
      if !Truthy(path) then Ok([])
      else if Hashable(path) then Ok([path])
      else Err(Unhashable)
  }

  /** The path a `tool_use` item of a file-writing tool names. */
  function ItemPaths(item: Json): (r: Result<seq<Json>, string>)
  {
    if IsToolUse(item) && IsFileTool(Get(item, "name")) then InputPath(Get(item, "input").GetOr(JObj([])))
    else Ok([])
  }

  /** The path of the event's own input, when the event names a file-writing tool. */
  function DirectPaths(event: Json): (r: Result<seq<Json>, string>)
    ensures r.Ok? ==> |r.value| <= 1
  {
    if IsFileTool(Get(event, "name")) then InputPath(Get(event, "input").GetOr(JObj([]))) else Ok([])
  }

  /** The paths one event names, in order: its own input's, then those of its items. */
  function EventPaths(event: Json): (r: Result<seq<Json>, string>)
  {
    if !event.JObj? then Err(NotADict)
    else
      match DirectPaths(event)
      case Err(e) => Err(e)
      case Ok(direct) =>
        match MessageItems(event)
        case Err(e) => Err(e)
        case Ok(items) =>
          match Gather(items, ItemPaths)
          case Err(e) => Err(e)
          case Ok(more) => Ok(direct + more)
  }

  /** The distinct values of a list, in the order they are first seen. */
  function Dedup(s: seq<Json>): (r: seq<Json>)
    ensures Distinct(r)
    ensures forall x :: x in r <==> x in s
  {
    if s == [] then []
    else
      var done := Dedup(s[..|s| - 1]);
      assert forall x :: x in s <==> x in s[..|s| - 1] || x == s[|s| - 1];
      if s[|s| - 1] in done then done else done + [s[|s| - 1]]
  }

  /** The files created: the distinct paths, cut to `max_files`. */
  function FilesCreated(events: seq<Json>, maxFiles: int): Result<seq<Json>, string>
  {
    match Gather(events, EventPaths)
    case Err(e) => Err(e)
    case Ok(paths) => Ok(PyUpTo(Dedup(paths), maxFiles))
  }

  /** Adding one more path to the set. */
  lemma DedupSnoc(s: seq<Json>, x: Json)
    ensures Dedup(s + [x]) == if x in Dedup(s) then Dedup(s) else Dedup(s) + [x]
  {
    assert (s + [x])[..|s|] == s;
  }

  /** `extract_files_created`: no path twice and at most `max_files` of them. */
  method ExtractFilesCreated(events: seq<Json>, maxFiles: int) returns (r: Result<seq<Json>, string>)
    ensures r == FilesCreated(events, maxFiles)
    ensures r.Ok? ==> Distinct(r.value) && (maxFiles >= 0 ==> |r.value| <= maxFiles)
    ensures r.Ok? && maxFiles >= 0 ==> forall p :: p in r.value ==> p in Gather(events, EventPaths).value
  {
    var files: seq<Json> := [];
    ghost var paths: seq<Json> := [];
    for k := 0 to |events|
      invariant Gather(events[..k], EventPaths) == Ok(paths)
      invariant files == Dedup(paths)
    {
      GatherStep(events, EventPaths, k);
      var added := AddEventPaths(events[k], files, paths);
      if added.Err? {
        GatherErr(events, EventPaths, k + 1);
        return Err(added.error);
      }
      files := added.value;
      paths := paths + EventPaths(events[k]).value;
    }
    TakeAll(events);
    r := Ok(PyUpTo(files, maxFiles));
  }

  /** The body of the loop of `extract_files_created`: adding one event's paths to the set. */
  method AddEventPaths(event: Json, files: seq<Json>, ghost paths: seq<Json>) returns (r: Result<seq<Json>, string>)
    requires files == Dedup(paths)
    ensures r.Err? <==> EventPaths(event).Err?
    ensures r.Err? ==> r.error == EventPaths(event).error
    ensures r.Ok? ==> r.value == Dedup(paths + EventPaths(event).value)
  {
    if !event.JObj? {
      return Err(NotADict);
    }
    var direct := DirectPaths(event);
    if direct.Err? {
      return Err(direct.error);
    }
    var seen := files;
    if direct.value != [] {
      DedupSnoc(paths, direct.value[0]);
      assert direct.value == [direct.value[0]];
      if direct.value[0] !in seen {
        seen := seen + [direct.value[0]];
      }
    } else {
      assert paths + direct.value == paths;
    }
    var items := MessageItems(event);
    if items.Err? {
      return Err(items.error);
    }
    var added := AddItemPaths(items.value, seen, paths + direct.value);
    if added.Err? {
      return Err(added.error);
    }
    ghost var g := Gather(items.value, ItemPaths).value;
    assert EventPaths(event) == Ok(direct.value + g);
    AppendAssoc(paths, direct.value, g);
    r := added;
  }

  /** The inner loop of `extract_files_created`: the paths of one message's items. */
  method AddItemPaths(items: seq<Json>, files: seq<Json>, ghost paths: seq<Json>) returns (r: Result<seq<Json>, string>)
    requires files == Dedup(paths)
    ensures r.Err? <==> Gather(items, ItemPaths).Err?
    ensures r.Err? ==> r.error == Gather(items, ItemPaths).error
    ensures r.Ok? ==> r.value == Dedup(paths + Gather(items, ItemPaths).value)
  {
    var seen := files;
    ghost var mine: seq<Json> := [];
    assert paths + mine == paths;
    for j := 0 to |items|
      invariant Gather(items[..j], ItemPaths) == Ok(mine)
      invariant seen == Dedup(paths + mine)
    {
      GatherStep(items, ItemPaths, j);
      var p := ItemPaths(items[j]);
      if p.Err? {
        GatherErr(items, ItemPaths, j + 1);
        return Err(p.error);
      }
      if p.value != [] {
        DedupSnoc(paths + mine, p.value[0]);
        assert p.value == [p.value[0]];
        AppendAssoc(paths, mine, p.value);
        if p.value[0] !in seen {
          seen := seen + [p.value[0]];
        }
        mine := mine + p.value;
      } else {
        assert mine + p.value == mine;
      }
    }
    TakeAll(items);
    r := Ok(seen);
  }
}
