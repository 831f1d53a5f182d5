/**
 * Parsing of an agent's NDJSON output stream into the counters, file lists
 * and live feed the dashboard shows.  What the parser takes from its
 * surroundings (`json.loads`, `datetime.fromisoformat`, the regular
 * expression that finds a file path in a message, and the clock) is given
 * to it as an `Env`.
 */
module OutputParser {
  import opened Wrappers
  import opened Seqs
  import opened Text
  import opened Json
  import Counter
  import Config

  /**
   * A parsed timestamp: microseconds since the epoch (a time without a UTC
   * offset read as UTC), and whether it carries an offset.
   */
  datatype Stamp = Stamp(instant: int, aware: bool)

  /**
   * The outside world as the parser sees it: `decode` is `json.loads` (None
   * for a decoding error), `isoTime` is `datetime.fromisoformat` (None for a
   * `ValueError`), `pathIn` is the file-path search on a message text and
   * `now` is the ISO text of the current UTC time.
   */
  datatype Env = Env(
    decode: string -> Option<Json>,
    isoTime: string -> Option<Stamp>,
    pathIn: string -> Option<string>,
    now: string)

  /** One entry of the live feed. */
  datatype Display = Display(timestamp: Json, kind: string, content: Json, tool: Json)

  /** `ParsedOutput`: everything learnt from an output stream so far. */
  datatype Parsed = Parsed(
    totalEvents: nat,
    toolsUsed: Counter.Counts<Json>,
    filesCreated: seq<Json>,
    filesModified: seq<Json>,
    liveEvents: seq<Display>,
    lastActivity: Option<Stamp>,
    hasCompletionMarker: bool,
    progressEstimate: int,
    currentTask: Json,
    errors: seq<string>,
    rawLinesCount: nat,
    assistantMessages: nat,
    toolResults: nat)

  /** `ParsedOutput()`. */
  const Fresh := Parsed(0, [], [], [], [], None, false, 0, JStr(""), [], 0, 0, 0)

  /** Python `len(v)` for the values that have one here. */
  predicate Sized(v: Json)
  {
    v.JStr? || v.JArr?
  }

  function Len(v: Json): nat
    requires Sized(v)
  {
    if v.JStr? then |v.s| else |v.items|
  }

  /** `v[:n]`: strings and lists slice, anything else raises. */
  function Slice(v: Json, n: int): (r: Result<Json, string>)
    ensures r.Ok? <==> Sized(v)
    ensures r.Ok? ==> Sized(r.value) && (0 <= n ==> Len(r.value) <= n) && (0 <= n <= Len(v) ==> Len(r.value) == n)
    ensures r.Ok? && 0 <= n && Len(v) <= n ==> r.value == v
  {
    match v
    case JStr(s) => Ok(JStr(PyUpTo(s, n)))
    case JArr(items) => Ok(JArr(PyUpTo(items, n)))
    case _ => Err("TypeError: object is not subscriptable")
  }

  /** Python `x or y` on two looked-up values, a missing one being None. */
  function Or(x: Option<Json>, y: Option<Json>): Json
  {
    if x.Some? && Truthy(x.value) then x.value else y.GetOr(JNull)
  }

  // ---------------------------------------------------------------------
  // Lines and events

  /**
   * `parse_ndjson_line` as written: a blank line is None, anything else is
   * whatever `json.loads` makes of the stripped text, dict or not.
   */
  function ParseNdjsonLineAsWritten(line: string, decode: string -> Option<Json>): (r: Option<Json>)
    ensures Strip(line) == [] ==> r == None
    ensures Strip(line) != [] ==> r == decode(Strip(line))
  {
    var text := Strip(line);
    if text == [] then None else decode(text)
  }

  /**
   * `parse_ndjson_line` as its `Optional[dict]` result type promises: a line
   * that does not decode to an object is skipped like an undecodable one.
   */
  function ParseNdjsonLine(line: string, decode: string -> Option<Json>): (r: Option<Json>)
    ensures r.Some? ==> r.value.JObj? && r == ParseNdjsonLineAsWritten(line, decode)
    ensures r.None? ==> match ParseNdjsonLineAsWritten(line, decode) case Some(v) => !v.JObj? case None => true
    ensures Strip(line) == [] ==> r == None
  {
    match ParseNdjsonLineAsWritten(line, decode)
    case Some(JObj(ms)) => Some(JObj(ms))
    case _ => None
  }

  /** A line that the parse loop counts as an event. */
  predicate IsEvent(line: string, decode: string -> Option<Json>)
  {
    ParseNdjsonLine(line, decode).Some? && Truthy(ParseNdjsonLine(line, decode).value)
  }

  // ---------------------------------------------------------------------
  // Tools

  /** One tool call of an event: its name and its `input` (JNull when there is none). */
  datatype ToolUse = ToolUse(name: Json, input: Json)

  predicate IsToolUseItem(item: Json)
  {
    item.JObj? && Get(item, "type") == Some(JStr("tool_use"))
  }

  /** The tool calls among the items of a content list, in order. */
  function ToolUses(items: seq<Json>): (r: seq<ToolUse>)
    ensures |r| == CountIf(items, IsToolUseItem)
  {
    if items == [] then []
    else
      (if IsToolUseItem(items[0])
       then [ToolUse(Get(items[0], "name").GetOr(JStr("unknown")), Get(items[0], "input").GetOr(JNull))]
       else [])
      + ToolUses(items[1..])
  }

  /** The items of `v.get('content', [])` when it is a list. */
  function ContentItems(v: Json): seq<Json>
  {
    match Get(v, "content")
    case Some(JArr(items)) => items
    case _ => []
  }

  /**
   * `extract_all_tools_from_event`: a `tool_use` event is one call; an
   * `assistant` event holds the calls of its content list and of its nested
   * message's content list; any other event holds none.
   */
  function ExtractAllTools(event: Json): (r: seq<ToolUse>)
    requires event.JObj?
    ensures Get(event, "type") == Some(JStr("tool_use")) ==> |r| == 1
    ensures Get(event, "type") == Some(JStr("assistant")) ==>
      |r| == CountIf(ContentItems(event), IsToolUseItem)
             + (match Get(event, "message") case Some(m) => CountIf(ContentItems(m), IsToolUseItem) case None => 0)
    ensures Get(event, "type") != Some(JStr("tool_use")) && Get(event, "type") != Some(JStr("assistant")) ==> r == []
  {
    var kind := Get(event, "type");
    if kind == Some(JStr("tool_use")) then
      [ToolUse(Get(event, "name").GetOr(JStr("unknown")), Get(event, "input").GetOr(JNull))]
    else if kind == Some(JStr("assistant")) then
      ToolUses(ContentItems(event))
      + (match Get(event, "message") case Some(m) => ToolUses(ContentItems(m)) case None => [])
    else []
  }

  /** The name of the first tool call in a content list, if there is one. */
  function FirstToolUseName(items: seq<Json>): Option<Json>
  {
    if items == [] then None
    else if IsToolUseItem(items[0]) then Some(Get(items[0], "name").GetOr(JNull))
    else FirstToolUseName(items[1..])
  }

  /** `extract_tool_name`: the tool an event of a simpler format names, or JNull. */
  function ExtractToolName(event: Json): Json
    requires event.JObj?
    decreases event
  {
    var kind := Get(event, "type");
    if kind == Some(JStr("tool_use")) then
      Or(Get(event, "name"), Get(event, "tool"))
    else
      var inContent :=
        match Get(event, "content")
        case Some(JArr(items)) => if kind == Some(JStr("assistant")) then FirstToolUseName(items) else None
        case _ => None;
      if inContent.Some? then inContent.value
      else if Get(event, "tool").Some? then Get(event, "tool").value
      else if Get(event, "name").Some? && kind != Some(JStr("assistant")) then Get(event, "name").value
      else
        match Get(event, "message")
        case Some(JObj(ms)) =>
          var inMessage :=
            match Lookup(ms, "content")
            case Some(JArr(items)) => FirstToolUseName(items)
            case _ => None;
          if inMessage.Some? then inMessage.value
          else
            GetSmaller(event, "message");
            ExtractToolName(JObj(ms))
        case _ => JNull
  }

  /** `extract_file_path`: the input's `file_path` or `path`, else a path found in a text content, else JNull. */
  function ExtractFilePath(event: Json, pathIn: string -> Option<string>): Json
  {
    match Get(event, "input")
    case Some(JObj(ms)) => Or(Lookup(ms, "file_path"), Lookup(ms, "path"))
    case _ =>
      match Get(event, "content")
      case Some(JStr(text)) => (match pathIn(text) case Some(p) => JStr(p) case None => JNull)
      case _ => JNull
  }

  // ---------------------------------------------------------------------
  // Completion markers

  /** Some completion marker occurs in the text, ignoring case. */
  predicate HasMarker(text: string)
  {
    exists i :: 0 <= i < |Config.CompletionMarkers| && Contains(Lower(text), Lower(Config.CompletionMarkers[i]))
  }

  /** `check_completion_markers`: the markers are tried in order and the first one found answers. */
  method CheckCompletionMarkers(text: string) returns (found: bool)
    ensures found <==> HasMarker(text)
  {
    var textLower := Lower(text);
    var markers := Config.CompletionMarkers;
    var i := 0;
    while i < |markers|
      invariant 0 <= i <= |markers|
      invariant forall j :: 0 <= j < i ==> !Contains(textLower, Lower(markers[j]))
    {
      if Contains(textLower, Lower(markers[i])) {
        return true;
      }
      i := i + 1;
    }
    return false;
  }

  /** Lower-casing a text first does not change whether a marker is found in it. */
  lemma MarkerIgnoresCase(text: string)
    ensures HasMarker(Lower(text)) <==> HasMarker(text)
  {
    assert Lower(Lower(text)) == Lower(text);
  }

  // ---------------------------------------------------------------------
  // The live feed

  /** What an event shows: its kind, its content and the tool it names. */
  datatype Shown = Shown(kind: string, content: Json, tool: Json)

  /** The content line of a tool call, from the first of its input's keys that is present. */
  function InputSummary(input: Json, maxLength: int): (r: Result<Json, string>)
    requires input.JObj?
    ensures r.Ok? ==> r.value.JStr?
  {
    if Get(input, "file_path").Some? then
      Ok(JStr("File: " + Show(Get(input, "file_path").value)))
    else if Get(input, "command").Some? then
      match Slice(Get(input, "command").value, 100)
      case Ok(command) => Ok(JStr("Command: " + Show(command)))
      case Err(e) => Err(e)
    else if Get(input, "pattern").Some? then
      Ok(JStr("Pattern: " + Show(Get(input, "pattern").value)))
    else if Get(input, "prompt").Some? then
      match Slice(Get(input, "prompt").value, 80)
      case Ok(prompt) => Ok(JStr("Prompt: " + Show(prompt) + "..."))
      case Err(e) => Err(e)
    else
      Ok(JStr(PyUpTo(Show(input), maxLength)))
  }

  /** The text of the first `text` item of an assistant's content list, sliced. */
  function FirstText(items: seq<Json>, maxLength: int): (r: Result<Json, string>)
    ensures r.Ok? ==> Sized(r.value) && (0 <= maxLength ==> Len(r.value) <= maxLength)
  {
    if items == [] then Ok(JStr(""))
    else if items[0].JObj? && Get(items[0], "type") == Some(JStr("text")) then
      Slice(Get(items[0], "text").GetOr(JStr("")), maxLength)
    else FirstText(items[1..], maxLength)
  }

  /** The kind, content and tool `format_event_for_display` derives before its final truncation. */
  function Describe(event: Json, maxLength: int): (r: Result<Shown, string>)
    requires event.JObj?
    ensures r.Ok? ==> Sized(r.value.content)
    ensures r.Ok? ==> r.value.kind in {"tool", "result", "thinking", "text", "unknown"}
    ensures r.Err? ==> Get(event, "type") in {Some(JStr("tool_use")), Some(JStr("assistant")), Some(JStr("text"))}
  {
    match Get(event, "type")
    case None => Ok(Shown("unknown", JStr(""), JNull))
    case Some(kind) =>
      if kind == JStr("tool_use") then
        var tool := Or(Get(event, "name"), Some(Get(event, "tool").GetOr(JStr("Unknown"))));
        match Get(event, "input")
        case Some(JObj(ms)) =>
          (match InputSummary(JObj(ms), maxLength)
           case Ok(c) => Ok(Shown("tool", c, tool))
           case Err(e) => Err(e))
        case _ => Ok(Shown("tool", JStr("Using " + Show(tool)), tool))
      else if kind == JStr("tool_result") then
        var content := Get(event, "content").GetOr(JStr(""));
        var text := if content.JStr? then content.s else if content.JObj? then Dumps(content) else Show(content);
        Ok(Shown("result", JStr(PyUpTo(text, maxLength)), JNull))
      else if kind == JStr("assistant") then
        match Get(event, "content").GetOr(JStr(""))
        case JStr(s) => Ok(Shown("thinking", JStr(PyUpTo(s, maxLength)), JNull))
        case JArr(items) =>
          (match FirstText(items, maxLength)
           case Ok(c) => Ok(Shown("thinking", c, JNull))
           case Err(e) => Err(e))
        case _ => Ok(Shown("thinking", JStr(""), JNull))
      else if kind == JStr("text") then
        match Slice(Get(event, "text").GetOr(JStr("")), maxLength)
        case Ok(c) => Ok(Shown("text", c, JNull))
        case Err(e) => Err(e)
      else Ok(Shown("unknown", JStr(""), JNull))
  }

  /**
   * `format_event_for_display`: the event's own timestamp (else now), and a
   * content that, for a non-negative limit, is never longer than the limit
   * plus the three dots of the truncation mark.
   */
  function FormatEvent(event: Json, maxLength: int, now: string): (r: Result<Display, string>)
    requires event.JObj?
    ensures r.Ok? ==> r.value.timestamp == Get(event, "timestamp").GetOr(JStr(now))
    ensures r.Ok? ==> Sized(r.value.content)
    ensures r.Ok? && 0 <= maxLength ==> Len(r.value.content) <= maxLength + 3
    ensures r.Ok? ==> r.value.kind in {"tool", "result", "thinking", "text", "unknown"}
    ensures Describe(event, maxLength).Ok? && 0 <= maxLength ==> r.Ok?
  {
    match Describe(event, maxLength)
    case Err(e) => Err(e)
    case Ok(shown) =>
      var timestamp := Get(event, "timestamp").GetOr(JStr(now));
      var content := shown.content;
      if Len(content) <= maxLength then Ok(Display(timestamp, shown.kind, content, shown.tool))
      else if content.JStr? then Ok(Display(timestamp, shown.kind, JStr(PyUpTo(content.s, maxLength) + "..."), shown.tool))
      else Err("TypeError: can only concatenate list (not \"str\") to list")
  }

  /** Appending to the live feed: only an entry with content goes in, and the oldest drops out past the limit. */
  function PushLive(live: seq<Display>, d: Display): (r: seq<Display>)
    ensures !Truthy(d.content) ==> r == live
    ensures Truthy(d.content) ==> |r| > 0 && r[|r| - 1] == d && r == LastN(live + [d], |r|)
    ensures |live| <= Config.MaxLiveEvents ==> |r| <= Config.MaxLiveEvents
    ensures |r| <= |live| + 1
    ensures LiveWell(live) && Sized(d.content) ==> LiveWell(r)
  {
    if !Truthy(d.content) then live
    else
      var grown := live + [d];
      if |grown| > Config.MaxLiveEvents then grown[1..] else grown
  }

  // ---------------------------------------------------------------------
  // One event

  /**
   * A newer string timestamp that `fromisoformat` accepts becomes the last
   * activity; comparing a naive with an aware time raises `TypeError`, which
   * the `except` clause does not catch.
   */
  function NoteTimestamp(last: Option<Stamp>, event: Json, isoTime: string -> Option<Stamp>): (r: Result<Option<Stamp>, string>)
    ensures r.Ok? && last.Some? ==>
              r.value.Some? && r.value.value.aware == last.value.aware && r.value.value.instant >= last.value.instant
    ensures r.Err? ==> last.Some?
  {
    match Get(event, "timestamp")
    case Some(JStr(t)) =>
      if t == [] then Ok(last)
      else
        (match isoTime(Replace(t, "Z", "+00:00"))
         case None => Ok(last)
         case Some(ts) =>
           if last.None? then Ok(Some(ts))
           else if ts.aware != last.value.aware then Err("TypeError: can't compare offset-naive and offset-aware datetimes")
           else if ts.instant > last.value.instant then Ok(Some(ts))
           else Ok(last))
    case _ => Ok(last)
  }

  const FileTools := {JStr("Write"), JStr("Edit"), JStr("NotebookEdit")}

  /** A written file joins `files_created`, an edited one `files_modified`, each at most once. */
  function NoteFile(a: Parsed, tool: Json, path: Json): (r: Parsed)
    ensures r == a || r == a.(filesCreated := a.filesCreated + [path]) || r == a.(filesModified := a.filesModified + [path])
    ensures FilesWell(a.filesCreated) ==> FilesWell(r.filesCreated)
    ensures FilesWell(a.filesModified) ==> FilesWell(r.filesModified)
    ensures tool == JStr("Write") && Truthy(path) ==> path in r.filesCreated
    ensures tool == JStr("Edit") && Truthy(path) ==> path in r.filesModified
    ensures r != a ==> Truthy(path)
  {
    if !Truthy(path) then a
    else if tool == JStr("Write") && path !in a.filesCreated then a.(filesCreated := a.filesCreated + [path])
    else if tool == JStr("Edit") && path !in a.filesModified then a.(filesModified := a.filesModified + [path])
    else a
  }

  /** The task of the first todo that is in progress: its `activeForm`, else its `content`, else "". */
  function InProgressTask(todos: seq<Json>): Option<Json>
  {
    if todos == [] then None
    else if todos[0].JObj? && Get(todos[0], "status") == Some(JStr("in_progress")) then
      Some(Get(todos[0], "activeForm").GetOr(Get(todos[0], "content").GetOr(JStr(""))))
    else InProgressTask(todos[1..])
  }

  /** The counted tools, the file lists and the current task after one tool call. */
  function NoteTool(a: Parsed, t: ToolUse): (r: Result<Parsed, string>)
    ensures r.Err? <==> !Hashable(t.name) || (t.name == JStr("TodoWrite") && Truthy(t.input) && t.input.JObj?
                                               && Iterated(Get(t.input, "todos").GetOr(JArr([]))).Err?)
    ensures r.Ok? ==> r.value.toolsUsed == Counter.Inc(a.toolsUsed, t.name)
    ensures r.Ok? ==> r.value.(toolsUsed := a.toolsUsed, filesCreated := a.filesCreated,
                               filesModified := a.filesModified, currentTask := a.currentTask) == a
    ensures r.Ok? && Well(a) ==> Well(r.value)
  {
    if !Hashable(t.name) then Err("TypeError: unhashable type")
    else
      KeysAfterInc(a.toolsUsed, t.name);
      var counted := a.(toolsUsed := Counter.Inc(a.toolsUsed, t.name));
      var filed :=
        if t.name in FileTools && Truthy(t.input) then
          NoteFile(counted, t.name, if t.input.JObj? then Or(Get(t.input, "file_path"), Get(t.input, "notebook_path")) else JNull)
        else counted;
      if t.name == JStr("TodoWrite") && Truthy(t.input) then
        var todos := if t.input.JObj? then Get(t.input, "todos").GetOr(JArr([])) else JArr([]);
        match Iterated(todos)
        case Err(_) => Err("TypeError: object is not iterable")
        case Ok(items) =>
          match InProgressTask(items)
          case Some(task) => Ok(filed.(currentTask := task))
          case None => Ok(filed)
      else Ok(filed)
  }

  /** The tool calls of one event, in order; each adds one to the total of `tools_used`. */
  function NoteTools(a: Parsed, tools: seq<ToolUse>): (r: Result<Parsed, string>)
    ensures r.Ok? ==> Counter.Total(r.value.toolsUsed) == Counter.Total(a.toolsUsed) + |tools|
    ensures r.Ok? ==> r.value.(toolsUsed := a.toolsUsed, filesCreated := a.filesCreated,
                               filesModified := a.filesModified, currentTask := a.currentTask) == a
    ensures r.Ok? && Well(a) ==> Well(r.value)
    decreases |tools|
  {
    if tools == [] then Ok(a)
    else
      match NoteTool(a, tools[0])
      case Err(e) => Err(e)
      case Ok(b) =>
        Counter.IncTotal(a.toolsUsed, tools[0].name);
        NoteTools(b, tools[1..])
  }

  /** The fallback for an event without tool calls: the single tool it names, if any. */
  function Fallback(a: Parsed, event: Json, pathIn: string -> Option<string>): (r: Result<Parsed, string>)
    requires event.JObj?
    ensures r.Ok? ==> r.value.(toolsUsed := a.toolsUsed, filesCreated := a.filesCreated, filesModified := a.filesModified) == a
    ensures r.Ok? && Well(a) ==> Well(r.value)
  {
    var name := ExtractToolName(event);
    if !Truthy(name) then Ok(a)
    else if !Hashable(name) then Err("TypeError: unhashable type")
    else
      KeysAfterInc(a.toolsUsed, name);
      var counted := a.(toolsUsed := Counter.Inc(a.toolsUsed, name));
      Ok(if name in FileTools then NoteFile(counted, name, ExtractFilePath(event, pathIn)) else counted)
  }

  /** An `error` event, or one flagged `is_error`, records its message when that is a string under 200 characters. */
  function NoteError(errors: seq<string>, event: Json): (r: seq<string>)
    ensures r == errors || (|r| == |errors| + 1 && r[..|errors|] == errors && |r[|errors|]| < 200)
    ensures ErrorsWell(errors) ==> ErrorsWell(r)
  {
    if Get(event, "type") == Some(JStr("error")) || Truthy(Get(event, "is_error").GetOr(JNull)) then
      var message := Get(event, "message").GetOr(Get(event, "content").GetOr(JStr(Show(event))));
      if message.JStr? && |message.s| < 200 then errors + [message.s] else errors
    else errors
  }

  /** Counting an event, its timestamp and its kind. */
  function Opened(a: Parsed, event: Json, isoTime: string -> Option<Stamp>): (r: Result<Parsed, string>)
    ensures r.Ok? ==> r.value.totalEvents == a.totalEvents + 1
    ensures r.Ok? ==> r.value.(totalEvents := a.totalEvents, lastActivity := a.lastActivity,
                               assistantMessages := a.assistantMessages, toolResults := a.toolResults) == a
  {
    match NoteTimestamp(a.lastActivity, event, isoTime)
    case Err(e) => Err(e)
    case Ok(last) =>
      var kind := Get(event, "type");
      Ok(a.(totalEvents := a.totalEvents + 1,
            lastActivity := last,
            assistantMessages := a.assistantMessages + (if kind == Some(JStr("assistant")) then 1 else 0),
            toolResults := a.toolResults + (if kind == Some(JStr("tool_result")) then 1 else 0)))
  }

  /** Counting an event's tool calls, or the single tool the fallback finds when it has none. */
  function Tooled(a: Parsed, event: Json, pathIn: string -> Option<string>): (r: Result<Parsed, string>)
    requires event.JObj?
    ensures r.Ok? ==> r.value.(toolsUsed := a.toolsUsed, filesCreated := a.filesCreated,
                               filesModified := a.filesModified, currentTask := a.currentTask) == a
    ensures r.Ok? && Well(a) ==> Well(r.value)
  {
    var tools := ExtractAllTools(event);
    match NoteTools(a, tools)
    case Err(e) => Err(e)
    case Ok(b) => if tools == [] then Fallback(b, event, pathIn) else Ok(b)
  }

  /** A completion marker in the event's JSON text, its error message and its live-feed entry. */
  function Closed(a: Parsed, event: Json, now: string): (r: Result<Parsed, string>)
    requires event.JObj?
    ensures r.Ok? ==> (r.value.hasCompletionMarker <==> a.hasCompletionMarker || HasMarker(Dumps(event)))
    ensures r.Ok? ==> r.value.(hasCompletionMarker := a.hasCompletionMarker, errors := a.errors, liveEvents := a.liveEvents) == a
    ensures r.Ok? ==> FormatEvent(event, Config.MaxContentLength, now).Ok?
                      && r.value.liveEvents == PushLive(a.liveEvents, FormatEvent(event, Config.MaxContentLength, now).value)
    ensures r.Ok? && Well(a) ==> Well(r.value)
  {
    match FormatEvent(event, Config.MaxContentLength, now)
    case Err(e) => Err(e)
    case Ok(d) =>
      Ok(a.(hasCompletionMarker := a.hasCompletionMarker || HasMarker(Dumps(event)),
            errors := NoteError(a.errors, event),
            liveEvents := PushLive(a.liveEvents, d)))
  }

  /**
   * What the parse loop's body does with one decoded, non-empty event: count
   * it, track its timestamp, its kind, its tools, a completion marker in its
   * JSON text, an error message and its live-feed entry.
   */
  function AddEvent(a: Parsed, event: Json, env: Env): (r: Result<Parsed, string>)
    requires event.JObj?
    ensures r.Ok? ==> r.value.totalEvents == a.totalEvents + 1
    ensures r.Ok? ==> r.value.rawLinesCount == a.rawLinesCount && r.value.progressEstimate == a.progressEstimate
    ensures r.Ok? ==> (r.value.hasCompletionMarker <==> a.hasCompletionMarker || HasMarker(Dumps(event)))
    ensures r.Ok? && Well(a) ==> Well(r.value)
  {
    match Opened(a, event, env.isoTime)
    case Err(e) => Err(e)
    case Ok(b) =>
      assert Well(a) ==> Well(b);
      match Tooled(b, event, env.pathIn)
      case Err(e) => Err(e)
      case Ok(c) => Closed(c, event, env.now)
  }

  /** An event that goes through pushes its formatted entry onto the live feed. */
  lemma AddEventLive(a: Parsed, event: Json, env: Env)
    requires event.JObj?
    ensures AddEvent(a, event, env).Ok? ==>
              && FormatEvent(event, Config.MaxContentLength, env.now).Ok?
              && AddEvent(a, event, env).value.liveEvents == PushLive(a.liveEvents, FormatEvent(event, Config.MaxContentLength, env.now).value)
  {
  }

  // ---------------------------------------------------------------------
  // The parse loop

  /** The body of the loop over lines: a non-empty object is an event, anything else is skipped. */
  function LineStep(a: Parsed, line: string, env: Env): Result<Parsed, string>
  {
    match ParseNdjsonLine(line, env.decode)
    case Some(event) => if Truthy(event) then AddEvent(a, event, env) else Ok(a)
    case None => Ok(a)
  }

  /** The body as written: a non-empty decoded value that is not a dict raises at its first `.get`. */
  function LineStepAsWritten(a: Parsed, line: string, env: Env): Result<Parsed, string>
  {
    match ParseNdjsonLineAsWritten(line, env.decode)
    case Some(event) =>
      if !Truthy(event) then Ok(a)
      else if event.JObj? then AddEvent(a, event, env)
      else Err("AttributeError: object has no attribute 'get'")
    case None => Ok(a)
  }

  /** A loop over lines with a given body, from a starting accumulator; the first exception ends it. */
  function Fold(a: Parsed, lines: seq<string>, step: (Parsed, string) -> Result<Parsed, string>): Result<Parsed, string>
  {
    if lines == [] then Ok(a)
    else
      match Fold(a, lines[..|lines| - 1], step)
      case Err(e) => Err(e)
      case Ok(b) => step(b, lines[|lines| - 1])
  }

  /** The loop body for an environment, as a value. */
  function Body(env: Env): (Parsed, string) -> Result<Parsed, string>
  {
    (b, line) => LineStep(b, line, env)
  }

  /** The parse loop over the lines from a starting accumulator. */
  function Lines(a: Parsed, lines: seq<string>, env: Env): Result<Parsed, string>
  {
    Fold(a, lines, Body(env))
  }

  /** One more line runs the body once more on what the loop had. */
  lemma FoldStep(a: Parsed, lines: seq<string>, i: nat, step: (Parsed, string) -> Result<Parsed, string>)
    requires i < |lines|
    ensures Fold(a, lines[..i + 1], step) ==
              match Fold(a, lines[..i], step)
              case Err(e) => Err(e)
              case Ok(b) => step(b, lines[i])
  {
    TakeSnoc(lines, i);
  }

  /** The number of lines the loop counts as events. */
  function Events(lines: seq<string>, decode: string -> Option<Json>): nat
  {
    if lines == [] then 0
    else Events(lines[..|lines| - 1], decode) + (if IsEvent(lines[|lines| - 1], decode) then 1 else 0)
  }

  /** An event line whose JSON text holds a completion marker. */
  predicate MarkedLine(line: string, decode: string -> Option<Json>)
  {
    IsEvent(line, decode) && HasMarker(Dumps(ParseNdjsonLine(line, decode).value))
  }

  /** What one run of the body counts: one event for an event line, and no line or estimate. */
  predicate StepCounts(b: Parsed, line: string, c: Parsed, decode: string -> Option<Json>)
  {
    && c.totalEvents == b.totalEvents + (if IsEvent(line, decode) then 1 else 0)
    && c.rawLinesCount == b.rawLinesCount
    && c.progressEstimate == b.progressEstimate
  }

  /** What one run of the body marks: the completion marker of the line, if it has one. */
  predicate StepMarks(b: Parsed, line: string, c: Parsed, marked: string -> bool)
  {
    c.hasCompletionMarker <==> b.hasCompletionMarker || marked(line)
  }

  lemma LineStepFacts(b: Parsed, line: string, env: Env)
    ensures LineStep(b, line, env).Ok? ==> StepCounts(b, line, LineStep(b, line, env).value, env.decode)
    ensures LineStep(b, line, env).Ok? ==>
              (LineStep(b, line, env).value.hasCompletionMarker <==> b.hasCompletionMarker || MarkedLine(line, env.decode))
    ensures LineStep(b, line, env).Ok? && Well(b) ==> Well(LineStep(b, line, env).value)
  {
    match ParseNdjsonLine(line, env.decode)
    case None =>
      assert LineStep(b, line, env) == Ok(b);
      assert !IsEvent(line, env.decode);
    case Some(event) =>
      if Truthy(event) {
        assert LineStep(b, line, env) == AddEvent(b, event, env);
        assert IsEvent(line, env.decode);
        assert MarkedLine(line, env.decode) <==> HasMarker(Dumps(event));
      } else {
        assert LineStep(b, line, env) == Ok(b);
        assert !IsEvent(line, env.decode);
      }
  }

  /** The loop counts one event per event line, and touches neither the line count nor the estimate. */
  lemma LinesCount(a: Parsed, lines: seq<string>, env: Env)
    ensures Lines(a, lines, env).Ok? ==>
      && Lines(a, lines, env).value.totalEvents == a.totalEvents + Events(lines, env.decode)
      && Lines(a, lines, env).value.rawLinesCount == a.rawLinesCount
      && Lines(a, lines, env).value.progressEstimate == a.progressEstimate
  {
    var step := Body(env);
    forall b: Parsed, line: string | step(b, line).Ok?
      ensures StepCounts(b, line, step(b, line).value, env.decode)
    {
      LineStepFacts(b, line, env);
    }
    FoldCounts(a, lines, step, env.decode);
  }

  /** The loop ends with a completion marker exactly when it started with one or some event line carries one. */
  lemma LinesMarked(a: Parsed, lines: seq<string>, env: Env)
    ensures Lines(a, lines, env).Ok? ==>
      (Lines(a, lines, env).value.hasCompletionMarker <==>
         a.hasCompletionMarker || exists i :: 0 <= i < |lines| && MarkedLine(lines[i], env.decode))
  {
    var step := Body(env);
    var marked := line => MarkedLine(line, env.decode);
    forall b: Parsed, line: string | step(b, line).Ok?
      ensures StepMarks(b, line, step(b, line).value, marked)
    {
      LineStepFacts(b, line, env);
    }
    FoldMarks(a, lines, step, marked);
  }

  /** The loop keeps every invariant of the accumulator. */
  lemma LinesWell(a: Parsed, lines: seq<string>, env: Env)
    ensures Lines(a, lines, env).Ok? && Well(a) ==> Well(Lines(a, lines, env).value)
  {
    var step := Body(env);
    forall b: Parsed, line: string | step(b, line).Ok?
      ensures Well(b) ==> Well(step(b, line).value)
    {
      LineStepFacts(b, line, env);
    }
    FoldWell(a, lines, step);
  }

  /** The loop counts one event per event line, for any body that does so once. */
  lemma {:induction false} FoldCounts(a: Parsed, lines: seq<string>, step: (Parsed, string) -> Result<Parsed, string>,
                                      decode: string -> Option<Json>)
    requires forall b, line :: step(b, line).Ok? ==> StepCounts(b, line, step(b, line).value, decode)
    ensures Fold(a, lines, step).Ok? ==>
      && Fold(a, lines, step).value.totalEvents == a.totalEvents + Events(lines, decode)
      && Fold(a, lines, step).value.rawLinesCount == a.rawLinesCount
      && Fold(a, lines, step).value.progressEstimate == a.progressEstimate
  {
    if lines != [] && Fold(a, lines, step).Ok? {
      var init := lines[..|lines| - 1];
      FoldCounts(a, init, step, decode);
      var b := Fold(a, init, step).value;
      assert Fold(a, lines, step) == step(b, lines[|lines| - 1]);
    }
  }

  /** The loop ends marked exactly when it started marked or some line is marked. */
  lemma {:induction false} FoldMarks(a: Parsed, lines: seq<string>, step: (Parsed, string) -> Result<Parsed, string>,
                                     marked: string -> bool)
    requires forall b, line :: step(b, line).Ok? ==> StepMarks(b, line, step(b, line).value, marked)
    ensures Fold(a, lines, step).Ok? ==>
      (Fold(a, lines, step).value.hasCompletionMarker
       <==> a.hasCompletionMarker || exists i :: 0 <= i < |lines| && marked(lines[i]))
  {
    if lines != [] && Fold(a, lines, step).Ok? {
      var init := lines[..|lines| - 1];
      var last := lines[|lines| - 1];
      FoldMarks(a, init, step, marked);
      var b := Fold(a, init, step).value;
      var p := Fold(a, lines, step).value;
      assert Fold(a, lines, step) == step(b, last);
      assert p.hasCompletionMarker <==> b.hasCompletionMarker || marked(last);
      if p.hasCompletionMarker && !a.hasCompletionMarker {
        if b.hasCompletionMarker {
          var i :| 0 <= i < |init| && marked(init[i]);
          assert lines[i] == init[i];
        } else {
          assert marked(lines[|lines| - 1]);
        }
      }
      if !p.hasCompletionMarker {
        forall i | 0 <= i < |lines| ensures !marked(lines[i]) {
          if i < |init| {
            assert lines[i] == init[i];
          }
        }
      }
    }
  }

  /** The loop keeps the invariant of the accumulator, for any body that keeps it. */
  lemma {:induction false} FoldWell(a: Parsed, lines: seq<string>, step: (Parsed, string) -> Result<Parsed, string>)
    requires forall b, line :: step(b, line).Ok? && Well(b) ==> Well(step(b, line).value)
    ensures Fold(a, lines, step).Ok? && Well(a) ==> Well(Fold(a, lines, step).value)
  {
    if lines != [] && Fold(a, lines, step).Ok? {
      var init := lines[..|lines| - 1];
      FoldWell(a, init, step);
      assert Fold(a, lines, step) == step(Fold(a, init, step).value, lines[|lines| - 1]);
    }
  }

  /** The live-feed entry an event line yields: the formatted event, when the line is an event and the entry has content. */
  function LineEntries(line: string, env: Env): seq<Display>
  {
    match ParseNdjsonLine(line, env.decode)
    case Some(event) => if Truthy(event) then EventEntries(event, env) else []
    case None => []
  }

  /** The live-feed entry of a decoded event: the formatted event, when it has content. */
  function EventEntries(event: Json, env: Env): seq<Display>
    requires event.JObj?
  {
    match FormatEvent(event, Config.MaxContentLength, env.now)
    case Ok(d) => if Truthy(d.content) then [d] else []
    case Err(_) => []
  }

  /** The live-feed entries of a run of lines, oldest first. */
  function Entries(lines: seq<string>, env: Env): seq<Display>
  {
    Collected(lines, line => LineEntries(line, env))
  }

  /** What a function gives for each of some lines, one after the other. */
  function Collected(lines: seq<string>, entry: string -> seq<Display>): seq<Display>
  {
    if lines == [] then [] else Collected(lines[..|lines| - 1], entry) + entry(lines[|lines| - 1])
  }

  /** Within the limit, pushing an entry keeps the last `MAX_LIVE_EVENTS` of the feed with the entry added when it has content. */
  lemma PushLiveKeepsLast(live: seq<Display>, d: Display)
    requires |live| <= Config.MaxLiveEvents
    ensures PushLive(live, d) == LastN(live + (if Truthy(d.content) then [d] else []), Config.MaxLiveEvents)
  {
  }

  /**
   * The live feed after the loop: the last `MAX_LIVE_EVENTS` of the feed it
   * started with followed by the entries of the lines, whatever the other
   * fields of the accumulator hold.
   */
  lemma LiveAccumulate(a: Parsed, lines: seq<string>, env: Env)
    requires |a.liveEvents| <= Config.MaxLiveEvents
    ensures Lines(a, lines, env).Ok? ==>
              Lines(a, lines, env).value.liveEvents == LastN(a.liveEvents + Entries(lines, env), Config.MaxLiveEvents)
  {
    var trim := (s: seq<Display>) => LastN(s, Config.MaxLiveEvents);
    forall x: seq<Display>, y: seq<Display>
      ensures trim(trim(x) + y) == trim(x + y)
    {
      LastNAppend(x, y, Config.MaxLiveEvents);
    }
    forall b: Parsed, line: string | b.liveEvents == trim(b.liveEvents)
      ensures Body(env)(b, line).Ok? ==> Body(env)(b, line).value.liveEvents == trim(b.liveEvents + LineEntries(line, env))
    {
      LineStepLive(b, line, env);
    }
    FoldLive(a, lines, Body(env), line => LineEntries(line, env), trim);
  }

  /**
   * The live feed of the loop, for any body that adds each line's entries to
   * the feed and trims it: the trimmed feed it started with and the entries.
   */
  lemma {:induction false} FoldLive(a: Parsed, lines: seq<string>, step: (Parsed, string) -> Result<Parsed, string>,
                                    entry: string -> seq<Display>, trim: seq<Display> -> seq<Display>)
    requires a.liveEvents == trim(a.liveEvents)
    requires forall x, y :: trim(trim(x) + y) == trim(x + y)
    requires forall b: Parsed, line: string :: b.liveEvents == trim(b.liveEvents) && step(b, line).Ok? ==>
               step(b, line).value.liveEvents == trim(b.liveEvents + entry(line))
    ensures Fold(a, lines, step).Ok? ==>
              Fold(a, lines, step).value.liveEvents == trim(a.liveEvents + Collected(lines, entry))
  {
    if lines == [] {
      assert a.liveEvents + Collected(lines, entry) == a.liveEvents;
    } else if Fold(a, lines, step).Ok? {
      var init := lines[..|lines| - 1];
      var last := lines[|lines| - 1];
      FoldLive(a, init, step, entry, trim);
      var b := Fold(a, init, step).value;
      var before := a.liveEvents + Collected(init, entry);
      assert b.liveEvents == trim(before);
      assert trim(trim(before) + []) == trim(before + []);
      assert before + [] == before && trim(before) + [] == trim(before);
      assert b.liveEvents == trim(b.liveEvents);
      assert Fold(a, lines, step) == step(b, last);
      assert step(b, last).value.liveEvents == trim(trim(before) + entry(last));
      assert trim(trim(before) + entry(last)) == trim(before + entry(last));
      assert Collected(lines, entry) == Collected(init, entry) + entry(last);
      AppendAssoc(a.liveEvents, Collected(init, entry), entry(last));
    }
  }

  /** One line of the loop adds its entry, if any, to the live feed. */
  lemma LineStepLive(b: Parsed, line: string, env: Env)
    requires |b.liveEvents| <= Config.MaxLiveEvents
    ensures LineStep(b, line, env).Ok? ==>
              LineStep(b, line, env).value.liveEvents == LastN(b.liveEvents + LineEntries(line, env), Config.MaxLiveEvents)
  {
    var parsed := ParseNdjsonLine(line, env.decode);
    if parsed.Some? && Truthy(parsed.value) {
      EventLive(b, parsed.value, env);
    } else {
      assert LineStep(b, line, env) == Ok(b) && LineEntries(line, env) == [];
      assert b.liveEvents + [] == b.liveEvents;
    }
  }

  /** An event that goes through adds its entry, if it has content, to the live feed. */
  lemma EventLive(b: Parsed, event: Json, env: Env)
    requires |b.liveEvents| <= Config.MaxLiveEvents
    requires event.JObj?
    ensures AddEvent(b, event, env).Ok? ==>
              AddEvent(b, event, env).value.liveEvents == LastN(b.liveEvents + EventEntries(event, env), Config.MaxLiveEvents)
  {
    AddEventLive(b, event, env);
    var f := FormatEvent(event, Config.MaxContentLength, env.now);
    if f.Ok? {
      PushLiveKeepsLast(b.liveEvents, f.value);
    }
  }

  /** Once the loop has raised on a prefix of the lines, it has raised on all of them. */
  lemma {:induction false} FoldErrSticky(a: Parsed, lines: seq<string>, k: nat, step: (Parsed, string) -> Result<Parsed, string>)
    requires k <= |lines| && Fold(a, lines[..k], step).Err?
    ensures Fold(a, lines, step) == Fold(a, lines[..k], step)
    decreases |lines| - k
  {
    if k < |lines| {
      var init := lines[..|lines| - 1];
      assert init[..k] == lines[..k];
      FoldErrSticky(a, init, k, step);
    } else {
      TakeAll(lines);
    }
  }

  /** The accumulator `parse_output_content` starts from: the one passed in, or a fresh one, with the lines counted. */
  function Start(existing: Option<Parsed>, lines: seq<string>): Parsed
  {
    var a := existing.GetOr(Fresh);
    a.(rawLinesCount := a.rawLinesCount + |lines|)
  }

  /** The progress estimate stored after the loop. */
  function Finish(r: Result<Parsed, string>): Result<Parsed, string>
  {
    match r
    case Ok(p) => Ok(p.(progressEstimate := EstimateProgress(p)))
    case Err(e) => Err(e)
  }

  /**
   * `parse_output_content`: the content split at newlines, each line run
   * through the loop body, and the progress estimated at the end.
   */
  method ParseOutputContent(content: string, existing: Option<Parsed>, env: Env) returns (r: Result<Parsed, string>)
    ensures r == Finish(Lines(Start(existing, Split(content, "\n")), Split(content, "\n"), env))
  {
    var lines := Split(content, "\n");
    var result := existing.GetOr(Fresh);
    result := result.(rawLinesCount := result.rawLinesCount + |lines|);
    assert result == Start(existing, lines);
    var looped := RunLines(result, lines, Body(env));
    assert looped == Lines(Start(existing, lines), lines, env);
    match looped
    case Err(e) =>
      r := Err(e);
    case Ok(p) =>
      r := Ok(p.(progressEstimate := EstimateProgress(p)));
  }

  /** The loop over the lines, running the body on each in turn and stopping at the first exception. */
  method RunLines(start: Parsed, lines: seq<string>, step: (Parsed, string) -> Result<Parsed, string>)
    returns (r: Result<Parsed, string>)
    ensures r == Fold(start, lines, step)
  {
    var result := start;
    var i := 0;
    while i < |lines|
      invariant 0 <= i <= |lines|
      invariant Fold(start, lines[..i], step) == Ok(result)
    {
      FoldStep(start, lines, i, step);
      var next := step(result, lines[i]);
      if next.Err? {
        FoldErrSticky(start, lines, i + 1, step);
        return next;
      }
      result := next.value;
      i := i + 1;
    }
    TakeAll(lines);
    r := Ok(result);
  }

  /**
   * What a parse that goes through adds to the accumulator it continues: the
   * lines counted, one event per event line, and the estimate of what it ends
   * with.
   */
  lemma ParseCounts(existing: Option<Parsed>, lines: seq<string>, env: Env)
    ensures var r := Finish(Lines(Start(existing, lines), lines, env));
      && (r.Ok? ==> r.value.rawLinesCount == existing.GetOr(Fresh).rawLinesCount + |lines|)
      && (r.Ok? ==> r.value.totalEvents == existing.GetOr(Fresh).totalEvents + Events(lines, env.decode))
  {
    var a := Start(existing, lines);
    var e := existing.GetOr(Fresh);
    assert a.totalEvents == e.totalEvents && a.rawLinesCount == e.rawLinesCount + |lines|;
    LinesCount(a, lines, env);
  }

  /** The estimate a parse ends with is the estimate of the fields it ends with. */
  lemma ParseEstimate(existing: Option<Parsed>, lines: seq<string>, env: Env)
    ensures var r := Finish(Lines(Start(existing, lines), lines, env));
      r.Ok? ==> r.value.progressEstimate == EstimateProgress(r.value)
  {
    var r := Lines(Start(existing, lines), lines, env);
    if r.Ok? {
      var p := r.value;
      assert Finish(r) == Ok(p.(progressEstimate := EstimateProgress(p)));
      EstimateIgnoresEstimate(p, EstimateProgress(p));
    }
  }

  /** A parse that goes through keeps a well-formed accumulator well-formed. */
  lemma ParseWell(existing: Option<Parsed>, lines: seq<string>, env: Env)
    ensures var r := Finish(Lines(Start(existing, lines), lines, env));
      r.Ok? && Well(existing.GetOr(Fresh)) ==> Well(r.value)
  {
    var a := Start(existing, lines);
    assert Well(existing.GetOr(Fresh)) ==> Well(a);
    LinesWell(a, lines, env);
  }

  /** The live feed after a parse: the last `MAX_LIVE_EVENTS` of the feed it had followed by the entries of the lines. */
  lemma ParseLive(existing: Option<Parsed>, lines: seq<string>, env: Env)
    requires |existing.GetOr(Fresh).liveEvents| <= Config.MaxLiveEvents
    ensures var r := Finish(Lines(Start(existing, lines), lines, env));
      r.Ok? ==> r.value.liveEvents == LastN(existing.GetOr(Fresh).liveEvents + Entries(lines, env), Config.MaxLiveEvents)
  {
    LiveAccumulate(Start(existing, lines), lines, env);
  }

  // ---------------------------------------------------------------------
  // Progress and summary

  function Min(x: int, y: int): int
  {
    if x < y then x else y
  }

  /**
   * `estimate_progress`: 100 with a completion marker; otherwise shares for
   * tool calls, created files, modified files and a current task, capped
   * below 100.
   */
  function EstimateProgress(p: Parsed): (r: int)
    ensures r == 100 <==> p.hasCompletionMarker
    ensures 0 <= r <= 100
    ensures !p.hasCompletionMarker ==> r <= 95
  {
    if p.hasCompletionMarker then 100
    else
      var progress := Min(60, Counter.Total(p.toolsUsed) * 3)
                      + Min(20, |p.filesCreated| * 5)
                      + Min(10, |p.filesModified| * 2)
                      + (if Truthy(p.currentTask) then 5 else 0);
      Min(95, progress)
  }

  /** The estimate does not read the estimate stored before it. */
  lemma EstimateIgnoresEstimate(p: Parsed, x: int)
    ensures EstimateProgress(p.(progressEstimate := x)) == EstimateProgress(p)
  {
    var q := p.(progressEstimate := x);
    assert q.hasCompletionMarker == p.hasCompletionMarker && q.toolsUsed == p.toolsUsed;
    assert q.filesCreated == p.filesCreated && q.filesModified == p.filesModified && q.currentTask == p.currentTask;
  }

  /** More tool calls, more files and a current task never lower the estimate. */
  lemma ProgressMonotone(p: Parsed, q: Parsed)
    requires p.hasCompletionMarker ==> q.hasCompletionMarker
    requires Counter.Total(p.toolsUsed) <= Counter.Total(q.toolsUsed)
    requires |p.filesCreated| <= |q.filesCreated| && |p.filesModified| <= |q.filesModified|
    requires Truthy(p.currentTask) ==> Truthy(q.currentTask)
    ensures EstimateProgress(p) <= EstimateProgress(q)
  {
  }

  /** Without a marker, twenty tool calls, four created and five modified files and a task reach the 95 cap. */
  lemma ProgressSaturates(p: Parsed)
    requires !p.hasCompletionMarker && Counter.Total(p.toolsUsed) >= 20
    requires |p.filesCreated| >= 4 && |p.filesModified| >= 5 && Truthy(p.currentTask)
    ensures EstimateProgress(p) == 95
  {
  }

  /**
   * `get_activity_summary`: the first of the current task, "Task completed",
   * the latest live entry's tool or content, the tool-call count and
   * "Initializing..." that applies; it is never empty.
   */
  function ActivitySummary(p: Parsed): (r: Result<Json, string>)
    ensures r.Ok? ==> Truthy(r.value)
    ensures Truthy(p.currentTask) ==> r == Ok(p.currentTask)
    ensures !Truthy(p.currentTask) && p.hasCompletionMarker ==> r == Ok(JStr("Task completed"))
    ensures !Truthy(p.currentTask) && !p.hasCompletionMarker && p.liveEvents == [] ==>
              r.Ok? && (r.value == JStr("Initializing...") <==> Counter.Total(p.toolsUsed) == 0)
    ensures LiveWell(p.liveEvents) ==> r.Ok?
    // the latest live entry names a tool
    ensures !Truthy(p.currentTask) && !p.hasCompletionMarker && p.liveEvents != []
            && Truthy(p.liveEvents[|p.liveEvents| - 1].tool)
            ==> r == Ok(JStr("Using " + Show(p.liveEvents[|p.liveEvents| - 1].tool)))
    // otherwise its content, cut to 80 with "..." marking a longer text
    ensures !Truthy(p.currentTask) && !p.hasCompletionMarker && p.liveEvents != []
            && !Truthy(p.liveEvents[|p.liveEvents| - 1].tool) && Truthy(p.liveEvents[|p.liveEvents| - 1].content)
            ==> var c := p.liveEvents[|p.liveEvents| - 1].content;
                (r.Ok? <==> Sized(c))
                && (c.JStr? ==> r == Ok(JStr(if |c.s| > 80 then c.s[..80] + "..." else c.s)))
                && (r.Ok? && Len(c) <= 80 ==> r == Ok(c))
                && (r.Ok? && Len(c) > 80 ==> r.value.JStr? && |r.value.s| >= 3 && r.value.s[|r.value.s| - 3..] == "...")
    // otherwise the number of tool calls, or "Initializing..." when there were none
    ensures !Truthy(p.currentTask) && !p.hasCompletionMarker
            && (p.liveEvents == [] || (!Truthy(p.liveEvents[|p.liveEvents| - 1].tool) && !Truthy(p.liveEvents[|p.liveEvents| - 1].content)))
            ==> r == Ok(JStr(if Counter.Total(p.toolsUsed) > 0
                             then "Working... (" + NatToString(Counter.Total(p.toolsUsed)) + " tool calls)"
                             else "Initializing..."))
  {
    if Truthy(p.currentTask) then Ok(p.currentTask)
    else if p.hasCompletionMarker then Ok(JStr("Task completed"))
    else if p.liveEvents != [] && Truthy(p.liveEvents[|p.liveEvents| - 1].tool) then
      Ok(JStr("Using " + Show(p.liveEvents[|p.liveEvents| - 1].tool)))
    else if p.liveEvents != [] && Truthy(p.liveEvents[|p.liveEvents| - 1].content) then
      var content := p.liveEvents[|p.liveEvents| - 1].content;
      match Slice(content, 80)
      case Err(e) => Err(e)
      case Ok(head) => Ok(if Len(content) > 80 then JStr(Show(head) + "...") else head)
    else if Counter.Total(p.toolsUsed) > 0 then
      Ok(JStr("Working... (" + NatToString(Counter.Total(p.toolsUsed)) + " tool calls)"))
    else Ok(JStr("Initializing..."))
  }

  // ---------------------------------------------------------------------
  // A line that decodes to something other than an object

  /** A line holding a bare JSON number: the loop as written raises, the intended loop skips the line. */
  lemma NonObjectLineRaises(a: Parsed, env: Env)
    requires env.decode("5") == Some(JInt(5))
    ensures LineStepAsWritten(a, "5", env).Err?
    ensures LineStep(a, "5", env) == Ok(a)
  {
    assert !IsSpace('5');
    assert LStrip("5") == "5";
    assert RStrip("5") == "5";
    assert ParseNdjsonLineAsWritten("5", env.decode) == Some(JInt(5));
  }

  /** Skipping is the whole difference: where the written loop goes on, both agree, and a non-object line changes nothing. */
  lemma LineStepSkipsNonObjects(a: Parsed, line: string, env: Env)
    ensures LineStepAsWritten(a, line, env).Ok? ==> LineStep(a, line, env) == LineStepAsWritten(a, line, env)
    ensures !(ParseNdjsonLineAsWritten(line, env.decode).Some? && ParseNdjsonLineAsWritten(line, env.decode).value.JObj?) ==>
              LineStep(a, line, env) == Ok(a)
  {
  }

  // ---------------------------------------------------------------------
  // The invariant of an accumulator

  /**
   * What every accumulator the parser builds satisfies: duplicate-free file
   * lists of truthy paths, one count per hashable tool name, a bounded live
   * feed of entries with content, and error messages under 200 characters.
   */
  predicate Well(p: Parsed)
  {
    && FilesWell(p.filesCreated)
    && FilesWell(p.filesModified)
    && ToolsWell(p.toolsUsed)
    && LiveWell(p.liveEvents)
    && ErrorsWell(p.errors)
  }

  predicate FilesWell(files: seq<Json>)
  {
    Distinct(files) && forall i :: 0 <= i < |files| ==> Truthy(files[i])
  }

  predicate ToolsWell(c: Counter.Counts<Json>)
  {
    Counter.DistinctKeys(c) && forall i :: 0 <= i < |c| ==> Hashable(c[i].0)
  }

  predicate LiveWell(live: seq<Display>)
  {
    |live| <= Config.MaxLiveEvents && forall i :: 0 <= i < |live| ==> Sized(live[i].content) && Truthy(live[i].content)
  }

  predicate ErrorsWell(errors: seq<string>)
  {
    forall i :: 0 <= i < |errors| ==> |errors[i]| < 200
  }

  /** Counting a hashable name keeps the keys distinct and hashable. */
  lemma KeysAfterInc(c: Counter.Counts<Json>, k: Json)
    requires Hashable(k)
    ensures ToolsWell(c) ==> ToolsWell(Counter.Inc(c, k))
  {
    Counter.IncKeys(c, k);
    if Counter.DistinctKeys(c) {
      Counter.IncDistinct(c, k);
    }
  }
}
