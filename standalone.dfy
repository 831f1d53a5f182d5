/**
 * The standalone dashboard server's view of one agent and of the swarm.
 *
 * On top of the generation records and status files it shares with the
 * single-file server, it reads each agent's output file (a stream of JSON
 * lines), caches what it parsed per file and mtime, and classifies the agent
 * by its output: a completion marker or a long silence means completed, a
 * short silence means idle, recent output means running.
 *
 * The clock is a parameter (`now`, in seconds since the epoch, the same
 * scale as a file's mtime).  Which paths exist, what the glob of the agent
 * folder finds, and what each output file holds are parameters too.
 */
module Standalone {
  import opened Wrappers
  import opened Seqs
  import opened Text
  import opened Json
  import Counter
  import FileTracker
  import D = Dashboard
  import SE = StandaloneEvents
  import SC = StandaloneCache

  /** Seconds of silence after which an agent counts as idle. */
  const IdleThreshold: real := 60.0
  /** Seconds of silence after which an agent counts as completed. */
  const CompletionThreshold: real := 120.0
  const MaxCacheSize: int := 50

  /** Texts whose presence in an output file marks the agent as done (matched case-sensitively). */
  const CompletionMarkers: seq<string> := [
    "EVOLUTION COMPLETE", "Task completed", "All tasks completed", "status\": \"completed\"",
    "Successfully completed", "Finished all", "COMPLETED", "Done!"
  ]

  // ---------------------------------------------------------------------
  // Time since the last activity

  /** Python's `int(x)`: truncation toward zero. */
  function Trunc(x: real): int
  {
    if x >= 0.0 then x.Floor else -((-x).Floor)
  }

  /** The seconds in one unit of a "... ago" text. */
  function Scale(unit: char): nat
  {
    if unit == 'm' then 60 else if unit == 'h' then 3600 else if unit == 'd' then 86400 else 1
  }

  function AgoText(n: nat, unit: char): string
  {
    NatToString(n) + [unit] + " ago"
  }

  /** Reading a text such as "12m ago" back into its number and unit. */
  function ReadAgo(text: string): Option<(nat, char)>
  {
    if |text| >= 5 && EndsWith(text, " ago") then
      var piece := text[..|text| - 4];
      match ParseNat(piece[..|piece| - 1])
      case None => None
      case Some(n) => Some((n, piece[|piece| - 1]))
    else None
  }

  lemma ReadAgoText(n: nat, unit: char)
    ensures ReadAgo(AgoText(n, unit)) == Some((n, unit))
  {
    var t := AgoText(n, unit);
    assert t[|t| - 4..] == " ago";
    var piece := t[..|t| - 4];
    assert piece == NatToString(n) + [unit];
    assert piece[..|piece| - 1] == NatToString(n);
    ParseNatToString(n);
  }

  /**
   * `format_time_ago`: "Unknown" without a time, "Just now" for a time in
   * the future, and otherwise the whole number of the largest unit (seconds,
   * minutes, hours or days) that fits in the elapsed seconds.
   */
  function FormatTimeAgo(dt: Option<real>, now: real): (r: string)
    ensures dt.None? ==> r == "Unknown"
    ensures dt.Some? && Trunc(now - dt.value) < 0 ==> r == "Just now"
    ensures dt.Some? && Trunc(now - dt.value) >= 0 ==>
              var s := Trunc(now - dt.value);
              && ReadAgo(r).Some?
              && var (n, unit) := ReadAgo(r).value;
              && Scale(unit) * n <= s < Scale(unit) * (n + 1)
              && (unit == 's' <==> s < 60)
              && (unit == 'm' <==> 60 <= s < 3600)
              && (unit == 'h' <==> 3600 <= s < 86400)
              && (unit == 'd' <==> 86400 <= s)
  {
    match dt
    case None => "Unknown"
    case Some(t) =>
      var s := Trunc(now - t);
      if s < 0 then "Just now"
      else if s < 60 then ReadAgoText(s, 's'); AgoText(s, 's')
      else if s < 3600 then ReadAgoText(s / 60, 'm'); AgoText(s / 60, 'm')
      else if s < 86400 then ReadAgoText(s / 3600, 'h'); AgoText(s / 3600, 'h')
      else ReadAgoText(s / 86400, 'd'); AgoText(s / 86400, 'd')
  }

  // ---------------------------------------------------------------------
  // Parsing an output file

  /** What `parse_agent_output` reports about an output file. */
  datatype Parsed = Parsed(toolsUsed: Counter.Counts<Json>, lastActivity: Option<real>, activity: string,
                           progress: int, isComplete: bool, totalEvents: nat, filesCreated: seq<Json>,
                           liveEvents: seq<SE.LiveEvent>)

  /** The result before anything was read. */
  const Unparsed := Parsed([], None, "Working...", 0, false, 0, [], [])

  /** `any(marker in content for marker in COMPLETION_MARKERS)`. */
  predicate HasMarker(content: string)
  {
    exists i :: 0 <= i < |CompletionMarkers| && Contains(content, CompletionMarkers[i])
  }

  /** The marker loop: stops at the first marker found in the content. */
  method FindMarker(content: string) returns (found: bool)
    ensures found <==> HasMarker(content)
  {
    found := false;
    for i := 0 to |CompletionMarkers|
      invariant forall j :: 0 <= j < i ==> !Contains(content, CompletionMarkers[j])
    {
      var at := IndexOf(content, CompletionMarkers[i]);
      if at.Some? {
        assert Occurs(content, CompletionMarkers[i], at.value);
        return true;
      }
    }
  }

  /** A line worth showing as the agent's activity: longer than 10 characters and not a JSON object. */
  predicate Meaningful(line: string)
  {
    |line| > 10 && !StartsWith(line, "{")
  }

  /** The activity shown for a line: its first 100 characters, with "..." when it was longer. */
  function Summary(line: string): (r: string)
    ensures |line| <= 100 ==> r == line
    ensures |line| > 100 ==> |r| == 103 && r[..100] == line[..100]
  {
    PyUpTo(line, 100) + (if |line| > 100 then "..." else "")
  }

  /** The last ten lines of the stripped content. */
  function Window(content: string): (w: seq<string>)
    ensures |w| <= 10
  {
    PyFrom(Split(Strip(content), "\n"), -10)
  }

  /** Where the last meaningful line of the window sits. */
  function LastMeaningful(lines: seq<string>): (r: Option<nat>)
    ensures r.Some? ==> r.value < |lines| && Meaningful(lines[r.value])
    ensures r.Some? ==> forall j :: r.value < j < |lines| ==> !Meaningful(lines[j])
    ensures r.None? ==> forall j :: 0 <= j < |lines| ==> !Meaningful(lines[j])
  {
    if lines == [] then None
    else if Meaningful(lines[|lines| - 1]) then Some(|lines| - 1)
    else LastMeaningful(lines[..|lines| - 1])
  }

  /** The activity text of the content, if a meaningful line is among its last ten. */
  function ActivityOf(content: string): Option<string>
  {
    var w := Window(content);
    match LastMeaningful(w)
    case None => None
    case Some(i) => Some(Summary(w[i]))
  }

  /** A meaningful line with none after it is the last meaningful one. */
  lemma {:induction false} LastMeaningfulAt(lines: seq<string>, k: nat)
    requires k < |lines| && Meaningful(lines[k])
    requires forall j :: k < j < |lines| ==> !Meaningful(lines[j])
    ensures LastMeaningful(lines) == Some(k)
  {
    if k < |lines| - 1 {
      var init := lines[..|lines| - 1];
      assert forall j :: 0 <= j < |init| ==> init[j] == lines[j];
      LastMeaningfulAt(init, k);
    }
  }

  /** The activity of the content: the loop over its last ten lines. */
  method Activity(content: string) returns (a: Option<string>)
    ensures a == ActivityOf(content)
  {
    var lines := Split(Strip(content), "\n");
    var window := PyFrom(lines, -10);
    assert window == Window(content);
    a := NewestMeaningful(window);
  }

  /** The activity loop: the lines newest first, up to the first meaningful one. */
  method NewestMeaningful(window: seq<string>) returns (a: Option<string>)
    ensures a == match LastMeaningful(window) case None => None case Some(i) => Some(Summary(window[i]))
  {
    var k := |window|;
    while k > 0
      invariant 0 <= k <= |window|
      invariant forall j :: k <= j < |window| ==> !Meaningful(window[j])
    {
      k := k - 1;
      var line := window[k];
      if Meaningful(line) {
        LastMeaningfulAt(window, k);
        return Some(Summary(line));
      }
    }
    assert LastMeaningful(window) == None;
    return None;
  }

  /** `min(95, total_tools * 5)`. */
  function Estimate(tools: Counter.Counts<Json>): (n: int)
    ensures 0 <= n <= 95
  {
    if Counter.Total(tools) * 5 < 95 then Counter.Total(tools) * 5 else 95
  }

  /**
   * The parse of a non-empty output file read at `mtime`, and whether it ran
   * to the end: an exception on the way leaves the fields set so far.
   */
  function Analysis(content: string, mtime: real, decode: string -> Option<Json>): (Parsed, bool)
  {
    Stages(HasMarker(content), mtime, SE.JsonLines(Split(content, "\n"), decode), ActivityOf(content))
  }

  /** The steps of the parse, given whether a marker was found, the events and the activity line. */
  function Stages(marked: bool, mtime: real, events: seq<Json>, activity: Option<string>): (Parsed, bool)
  {
    var start := Unparsed.(lastActivity := Some(mtime), isComplete := marked, progress := if marked then 100 else 0);
    match SE.ToolUsage(events)
    case Err(_) => (start, false)
    case Ok(tools) =>
      var counted := start.(toolsUsed := tools, totalEvents := |events|, activity := activity.GetOr("Working..."),
                            progress := if marked then 100 else Estimate(tools));
      match SE.FilesCreated(events, SE.MaxFilesCreated)
      case Err(_) => (counted, false)
      case Ok(files) =>
        var filed := counted.(filesCreated := files);
        match SE.Live(events, SE.MaxLiveEvents)
        case Err(_) => (filed, false)
        case Ok(live) => (filed.(liveEvents := live), true)
  }

  /**
   * Progress is 100 exactly when a completion marker is present; otherwise
   * it is five per tool call, capped at 95 (and 0 when counting raised).
   */
  lemma ProgressRule(content: string, mtime: real, decode: string -> Option<Json>)
    ensures var p := Analysis(content, mtime, decode).0;
            var names := SE.Gather(SE.JsonLines(Split(content, "\n"), decode), SE.EventToolNames);
            && (p.isComplete <==> HasMarker(content))
            && (p.progress == 100 <==> p.isComplete)
            && 0 <= p.progress <= 100
            && (!p.isComplete && names.Ok? ==>
                  p.progress == if 5 * |names.value| < 95 then 5 * |names.value| else 95)
            && (!p.isComplete && names.Err? ==> p.progress == 0)
  {
    StagesProgress(HasMarker(content), mtime, SE.JsonLines(Split(content, "\n"), decode), ActivityOf(content));
  }

  lemma StagesProgress(marked: bool, mtime: real, events: seq<Json>, activity: Option<string>)
    ensures var p := Stages(marked, mtime, events, activity).0;
            var names := SE.Gather(events, SE.EventToolNames);
            && (p.isComplete <==> marked)
            && (p.progress == 100 <==> p.isComplete)
            && 0 <= p.progress <= 100
            && (!marked && names.Ok? ==> p.progress == if 5 * |names.value| < 95 then 5 * |names.value| else 95)
            && (!marked && names.Err? ==> p.progress == 0)
  {
    var names := SE.Gather(events, SE.EventToolNames);
    if names.Ok? {
      Counter.CountAllTotal(names.value);
      assert SE.ToolUsage(events) == Ok(Counter.CountAll(names.value));
    }
  }

  /** A finished parse keeps at most 20 distinct files and 30 live events; there are no more events than lines. */
  lemma AnalysisBounds(content: string, mtime: real, decode: string -> Option<Json>)
    ensures var (p, finished) := Analysis(content, mtime, decode);
            && p.lastActivity == Some(mtime)
            && p.totalEvents <= |Split(content, "\n")|
            && (finished ==> Distinct(p.filesCreated) && |p.filesCreated| <= SE.MaxFilesCreated)
            && (finished ==> |p.liveEvents| <= SE.MaxLiveEvents)
  {
    StagesBounds(HasMarker(content), mtime, SE.JsonLines(Split(content, "\n"), decode), ActivityOf(content));
  }

  lemma StagesBounds(marked: bool, mtime: real, events: seq<Json>, activity: Option<string>)
    ensures var (p, finished) := Stages(marked, mtime, events, activity);
            && p.lastActivity == Some(mtime)
            && p.totalEvents <= |events|
            && (finished ==> Distinct(p.filesCreated) && |p.filesCreated| <= SE.MaxFilesCreated)
            && (finished ==> |p.liveEvents| <= SE.MaxLiveEvents)
  {
    var paths := SE.Gather(events, SE.EventPaths);
    if paths.Ok? {
      var all := SE.Dedup(paths.value);
      var kept := PyUpTo(all, SE.MaxFilesCreated);
      assert forall i :: 0 <= i < |kept| ==> kept[i] == all[i];
      assert SE.FilesCreated(events, SE.MaxFilesCreated) == Ok(kept);
    }
  }

  /** The body of the `try` of `parse_agent_output` once the content is read. */
  method Analyse(content: string, mtime: real, decode: string -> Option<Json>) returns (r: Parsed, finished: bool)
    ensures (r, finished) == Analysis(content, mtime, decode)
  {
    r := Unparsed.(lastActivity := Some(mtime));
    var marked := FindMarker(content);
    if marked {
      r := r.(isComplete := true, progress := 100);
    }
    var events := SE.ParseJsonLines(content, decode);
    var tools := SE.ExtractToolUsage(events);
    if tools.Err? {
      return r, false;
    }
    r := r.(toolsUsed := tools.value, totalEvents := |events|);
    var activity := Activity(content);
    if activity.Some? {
      r := r.(activity := activity.value);
    }
    if !r.isComplete {
      var total := Counter.Total(tools.value);
      r := r.(progress := if 95 <= total * 5 then 95 else total * 5);
    }
    var files := SE.ExtractFilesCreated(events, SE.MaxFilesCreated);
    if files.Err? {
      return r, false;
    }
    r := r.(filesCreated := files.value);
    var live := SE.ExtractLiveEvents(events, SE.MaxLiveEvents);
    if live.Err? {
      return r, false;
    }
    r := r.(liveEvents := live.value);
    finished := true;
  }

  /**
   * What `parse_agent_output` returns for a file, given the cached result
   * for that file at its mtime (`None` when there is none or the cache is
   * not used).
   */
  function ParseResult(outputFile: Option<string>, disk: FileTracker.Disk, cached: Option<Parsed>,
                       decode: string -> Option<Json>): Parsed
  {
    if outputFile.None? || outputFile.value == "" || !disk.present || disk.stat.None? then Unparsed
    else if cached.Some? then cached.value
    else if disk.text.None? || disk.text.value == "" then Unparsed.(lastActivity := Some(disk.stat.value.mtime))
    else Analysis(disk.text.value, disk.stat.value.mtime, decode).0
  }

  /** The cache's result for the file at the mtime the disk reports. */
  function CachedFor(cache: SC.BoundedParseCache<Parsed>, outputFile: Option<string>, disk: FileTracker.Disk)
    : Option<Parsed>
    reads cache
  {
    if outputFile.Some? && disk.stat.Some? then cache.Get(outputFile.value, disk.stat.value.mtime) else None
  }

  /**
   * `parse_agent_output`: nothing for a missing file or one whose mtime
   * cannot be read; the cached result for this file at this mtime if there is
   * one; only the time of last activity for an unreadable or empty file; and
   * otherwise the parse of its content, cached when it ran to the end.
   */
  method ParseAgentOutput(outputFile: Option<string>, disk: FileTracker.Disk, cache: SC.BoundedParseCache<Parsed>,
                          useCache: bool, decode: string -> Option<Json>) returns (r: Parsed)
    requires cache.Valid()
    modifies cache
    ensures cache.Valid()
    ensures r == ParseResult(outputFile, disk, if useCache then old(CachedFor(cache, outputFile, disk)) else None, decode)
    ensures outputFile.None? || outputFile.value == "" || !disk.present || disk.stat.None? ==>
              r == Unparsed && cache.entries == old(cache.entries)
    ensures outputFile.Some? && outputFile.value != "" && disk.present && disk.stat.Some? ==>
              var (path, mtime) := (outputFile.value, disk.stat.value.mtime);
              var hit := useCache && old(cache.Get(path, mtime)).Some?;
              && (hit ==> r == old(cache.Get(path, mtime)).value && cache.entries == old(cache.entries))
              && (!hit && (disk.text.None? || disk.text.value == "") ==>
                    r == Unparsed.(lastActivity := Some(mtime)) && cache.entries == old(cache.entries))
              && (!hit && disk.text.Some? && disk.text.value != "" ==>
                    var (parsed, finished) := Analysis(disk.text.value, mtime, decode);
                    && r == parsed
                    && (!(useCache && finished) ==> cache.entries == old(cache.entries))
                    && (useCache && finished ==> (cache.Get(path, mtime) == Some(r) <==> cache.maxSize > 0)))
  {
    r := Unparsed;
    if outputFile.None? || outputFile.value == "" || !disk.present {
      return;
    }
    if disk.stat.None? {
      return;
    }
    var path := outputFile.value;
    var mtime := disk.stat.value.mtime;
    r := r.(lastActivity := Some(mtime));
    if useCache {
      var cached := cache.Get(path, mtime);
      if cached.Some? {
        return cached.value;
      }
    }
    if disk.text.None? || disk.text.value == "" {
      return;
    }
    var finished;
    r, finished := Analyse(disk.text.value, mtime, decode);
    if !finished {
      return;
    }
    if useCache {
      var raised := cache.Put(path, mtime, r);
    }
  }

  // ---------------------------------------------------------------------
  // Which output file belongs to an agent

  /** The places an agent's output may be, in the order they are tried (`str(task_id)` names its output file). */
  function Candidates(agentDir: string, taskId: Option<Json>, taskDir: string): (r: seq<string>)
    ensures |r| == 2 || |r| == 3
    ensures r[|r| - 2..] == [agentDir + "/output.jsonl", agentDir + "/agent.output"]
    ensures |r| == 3 <==> taskId.Some? && Truthy(taskId.value)
  {
    (if taskId.Some? && Truthy(taskId.value) then [taskDir + "/" + Show(taskId.value) + ".output"] else [])
    + [agentDir + "/output.jsonl", agentDir + "/agent.output"]
  }

  /** The first candidate that exists. */
  function FirstPresent(candidates: seq<string>, present: string -> bool): (r: Option<nat>)
    ensures r.Some? ==> r.value < |candidates| && present(candidates[r.value])
    ensures r.Some? ==> forall j :: 0 <= j < r.value ==> !present(candidates[j])
    ensures r.None? ==> forall j :: 0 <= j < |candidates| ==> !present(candidates[j])
  {
    if candidates == [] then None
    else if present(candidates[0]) then Some(0)
    else
      match FirstPresent(candidates[1..], present)
      case None => None
      case Some(i) => Some(i + 1)
  }

  /** The file the output-file search settles on. */
  function OutputOf(candidates: seq<string>, present: string -> bool, globbed: seq<string>): Option<string>
  {
    match FirstPresent(candidates, present)
    case Some(i) => Some(candidates[i])
    case None => if globbed != [] then Some(globbed[0]) else None
  }

  /** The output-file search: the first existing candidate, else the first match of the glob. */
  method ChooseOutput(candidates: seq<string>, present: string -> bool, globbed: seq<string>)
    returns (r: Option<string>)
    ensures r == OutputOf(candidates, present, globbed)
    ensures r.Some? && FirstPresent(candidates, present).Some? ==> present(r.value) && r.value in candidates
    ensures r.Some? && FirstPresent(candidates, present).None? ==> r == Some(globbed[0])
    ensures r.None? <==> (forall j :: 0 <= j < |candidates| ==> !present(candidates[j])) && globbed == []
  {
    r := None;
    for i := 0 to |candidates|
      invariant forall j :: 0 <= j < i ==> !present(candidates[j])
    {
      if present(candidates[i]) {
        return Some(candidates[i]);
      }
    }
    if globbed != [] {
      r := Some(globbed[0]);
    }
  }

  // ---------------------------------------------------------------------
  // Agent status

  /** The standalone server's agent record: the shared fields plus what the output file tells. */
  datatype Agent = Agent(info: D.AgentInfo, mission: Json, toolsUsed: Counter.Counts<Json>,
                         liveEvents: seq<SE.LiveEvent>, filesCreated: seq<Json>, totalEvents: nat,
                         lastActivityAgo: string, isIdle: bool, activity: string)

  /** Status, progress and idleness after classification. */
  datatype Verdict = Verdict(status: Json, progress: Json, isIdle: bool)

  /**
   * The classification of an agent with output last written `idle` seconds
   * ago, then the progress raise; `>` between the parsed progress and a
   * progress that is not a number raises TypeError.
   */
  function Classify(status: Json, progress: Json, p: Parsed, idle: real): (r: Result<Verdict, string>)
  {
    var v :=
      if p.isComplete || status == JStr("completed") then Verdict(JStr("completed"), JInt(100), false)
      else if idle > CompletionThreshold then Verdict(JStr("completed"), JInt(100), false)
      else if idle > IdleThreshold then Verdict(JStr("idle"), progress, true)
      else Verdict(if status == JStr("completed") || status == JStr("failed") then status else JStr("running"),
                   progress, false);
    if v.status == JStr("completed") then Ok(v)
    else if !Numeric(v.progress) then Err("TypeError: '>' not supported")
    else if (p.progress as real) > Num(v.progress) then Ok(v.(progress := JInt(p.progress)))
    else Ok(v)
  }

  /**
   * A marker or a completed agent, or more than 120 s of silence, gives
   * completed at 100; more than 60 s gives idle; otherwise the agent is
   * running unless it failed.  Only the idle verdict sets `is_idle`.
   */
  lemma ClassifyStatus(status: Json, progress: Json, p: Parsed, idle: real)
    requires Classify(status, progress, p, idle).Ok?
    ensures var v := Classify(status, progress, p, idle).value;
            && (p.isComplete || status == JStr("completed") || idle > CompletionThreshold <==>
                  v.status == JStr("completed"))
            && (v.status == JStr("completed") ==> v.progress == JInt(100) && !v.isIdle)
            && (v.isIdle <==> v.status == JStr("idle"))
            && (v.isIdle <==> v.status != JStr("completed") && idle > IdleThreshold)
            && (v.status != JStr("completed") && !v.isIdle ==>
                  v.status == (if status == JStr("failed") then status else JStr("running")))
  {
  }

  /**
   * The parsed progress only ever raises the progress of an agent that is not
   * completed: the result is the larger of the two.
   */
  lemma ClassifyProgress(status: Json, progress: Json, p: Parsed, idle: real)
    ensures var r := Classify(status, progress, p, idle);
            && (r.Err? <==> !Numeric(progress) && !p.isComplete && status != JStr("completed")
                            && idle <= CompletionThreshold)
            && (r.Ok? && r.value.status != JStr("completed") ==>
                  && Numeric(progress)
                  && Num(r.value.progress) >= Num(progress)
                  && Num(r.value.progress) >= p.progress as real
                  && (Num(r.value.progress) == Num(progress) || r.value.progress == JInt(p.progress)))
  {
  }

  /** The record before any output is looked at: the output fields at their defaults. */
  function Fresh(info: D.AgentInfo, config: Json): Agent
  {
    Agent(info, Get(config, "mission").GetOr(JStr("")), [], [], [], 0, "Never", false, "Waiting...")
  }

  /** The record once the parse of the output file is taken in and the agent classified. */
  function Observed(agent: Agent, p: Parsed, now: real): Result<Agent, string>
  {
    var a := agent.(toolsUsed := p.toolsUsed, liveEvents := p.liveEvents, filesCreated := p.filesCreated,
                    totalEvents := p.totalEvents, activity := p.activity);
    if p.lastActivity.None? then Ok(a)
    else
      match Classify(agent.info.status, agent.info.progress, p, now - p.lastActivity.value)
      case Err(e) => Err(e)
      case Ok(v) =>
        Ok(a.(lastActivityAgo := FormatTimeAgo(p.lastActivity, now),
              info := agent.info.(status := v.status, progress := v.progress), isIdle := v.isIdle))
  }

  /** The output part of `get_agent_status`, for an agent whose output file was found and parsed. */
  method Observe(agent: Agent, p: Parsed, now: real) returns (r: Result<Agent, string>)
    ensures r == Observed(agent, p, now)
    ensures p.lastActivity.None? ==>
              r == Ok(agent.(toolsUsed := p.toolsUsed, liveEvents := p.liveEvents, filesCreated := p.filesCreated,
                             totalEvents := p.totalEvents, activity := p.activity))
    ensures p.lastActivity.Some? ==>
              match Classify(agent.info.status, agent.info.progress, p, now - p.lastActivity.value)
              case Err(_) => r.Err?
              case Ok(v) =>
                r == Ok(agent.(toolsUsed := p.toolsUsed, liveEvents := p.liveEvents, filesCreated := p.filesCreated,
                               totalEvents := p.totalEvents, activity := p.activity,
                               lastActivityAgo := FormatTimeAgo(p.lastActivity, now),
                               info := agent.info.(status := v.status, progress := v.progress), isIdle := v.isIdle))
    ensures r.Ok? && r.value.isIdle ==> r.value.info.status == JStr("idle") || (p.lastActivity.None? && agent.isIdle)
    ensures r.Ok? ==> r.value.info.id == agent.info.id && r.value.info.generations == agent.info.generations
                      && r.value.info.role == agent.info.role && r.value.mission == agent.mission
  {
    var a := agent.(toolsUsed := p.toolsUsed, liveEvents := p.liveEvents, filesCreated := p.filesCreated,
                    totalEvents := p.totalEvents, activity := p.activity);
    if p.lastActivity.None? {
      return Ok(a);
    }
    a := a.(lastActivityAgo := FormatTimeAgo(p.lastActivity, now));
    var idle := now - p.lastActivity.value;
    if p.isComplete || a.info.status == JStr("completed") {
      a := a.(info := a.info.(status := JStr("completed"), progress := JInt(100)), isIdle := false);
    } else if idle > CompletionThreshold {
      a := a.(info := a.info.(status := JStr("completed"), progress := JInt(100)), isIdle := false);
    } else if idle > IdleThreshold {
      a := a.(info := a.info.(status := JStr("idle")), isIdle := true);
    } else {
      if a.info.status != JStr("completed") && a.info.status != JStr("failed") {
        a := a.(info := a.info.(status := JStr("running")));
      }
      a := a.(isIdle := false);
    }
    if a.info.status != JStr("completed") {
      if !Numeric(a.info.progress) {
        return Err("TypeError: '>' not supported");
      }
      if (p.progress as real) > Num(a.info.progress) {
        a := a.(info := a.info.(progress := JInt(p.progress)));
      }
    }
    r := Ok(a);
  }

  /**
   * `get_agent_status` of the standalone server: the shared record (whose
   * role defaults to the agent's id), the mission and the output defaults,
   * then the output file, if one is found, parsed through the cache and
   * classified.
   */
  method AgentStatus(id: string, config: Json, gasDir: string, taskDir: string, statusDoc: Option<Json>,
                     listing: Option<seq<D.GenDir>>, present: string -> bool, globbed: seq<string>,
                     disk: string -> FileTracker.Disk, cache: SC.BoundedParseCache<Parsed>,
                     decode: string -> Option<Json>, now: real) returns (r: Result<Agent, string>)
    requires cache.Valid()
    modifies cache
    ensures cache.Valid()
    ensures !config.JObj? || (D.Found(statusDoc) && !statusDoc.value.JObj?) || D.Generations(listing).Err? ==> r.Err?
    ensures r.Ok? ==>
              && r.value.info.id == id
              && r.value.info.role == Get(config, "role").GetOr(JStr(id))
              && r.value.info.generations == D.Generations(listing).value
              && r.value.mission == Get(config, "mission").GetOr(JStr(""))
    ensures r.Ok? ==> (r.value.isIdle ==> r.value.info.status == JStr("idle"))
    ensures var base := D.Record(id, config, JStr(id), statusDoc, listing);
            var file := OutputOf(Candidates(gasDir + "/agents/" + id, Get(config, "task_id"), taskDir), present, globbed);
            && (base.Err? ==> r == Err(base.error) && cache.entries == old(cache.entries))
            && (base.Ok? && file.None? ==> r == Ok(Fresh(base.value, config)) && cache.entries == old(cache.entries))
            && (base.Ok? && file.Some? ==>
                  r == Observed(Fresh(base.value, config),
                                ParseResult(file, disk(file.value), old(CachedFor(cache, file, disk(file.value))), decode),
                                now))
  {
    var base := D.AgentStatus(id, config, JStr(id), statusDoc, listing);
    if base.Err? {
      return Err(base.error);
    }
    var agent := Fresh(base.value, config);
    var agentDir := gasDir + "/agents/" + id;
    var candidates := Candidates(agentDir, Get(config, "task_id"), taskDir);
    var outputFile := ChooseOutput(candidates, present, globbed);
    if outputFile.None? {
      return Ok(agent);
    }
    var parsed := ParseAgentOutput(outputFile, disk(outputFile.value), cache, true, decode);
    r := Observe(agent, parsed, now);
  }

  // ---------------------------------------------------------------------
  // The swarm

  /** The shared part of each agent's record. */
  function Infos(agents: seq<(string, Agent)>): (r: D.Agents)
    ensures |r| == |agents|
    ensures forall i :: 0 <= i < |agents| ==> r[i] == (agents[i].0, agents[i].1.info)
  {
    seq(|agents|, i requires 0 <= i < |agents| => (agents[i].0, agents[i].1.info))
  }

  /** The per-status counts of the standalone status. */
  datatype Tally = Tally(running: nat, completed: nat, pending: nat, failed: nat, idle: nat)

  /** Counting agents by status: no agent is counted under two statuses. */
  function StatusTally(agents: D.Agents): (t: Tally)
    ensures t.running + t.completed + t.pending + t.failed + t.idle <= |agents|
  {
    TallyDisjoint(agents);
    Tally(D.CountWithStatus(agents, "running"), D.CountWithStatus(agents, "completed"),
          D.CountWithStatus(agents, "pending"), D.CountWithStatus(agents, "failed"),
          D.CountWithStatus(agents, "idle"))
  }

  lemma {:induction false} TallyDisjoint(agents: D.Agents)
    ensures D.CountWithStatus(agents, "running") + D.CountWithStatus(agents, "completed")
            + D.CountWithStatus(agents, "pending") + D.CountWithStatus(agents, "failed")
            + D.CountWithStatus(agents, "idle") <= |agents|
  {
    if agents != [] {
      TallyDisjoint(agents[..|agents| - 1]);
    }
  }

  /** The figures of `get_gas_status`. */
  datatype Status = Status(agents: seq<(string, Agent)>, waves: seq<(string, D.WaveFlags)>, knowledge: D.Knowledge,
                           successions: seq<D.Succession>, totals: D.Totals, tally: Tally, elapsed: string)

  /**
   * `get_gas_status` of the standalone server, from the agents' records: the
   * wave flags, the knowledge summary, the succession events, the aggregates
   * with the per-status counts, and the elapsed time.
   */
  method GasStatus(agents: seq<(string, Agent)>, waves: seq<(string, Json)>, store: Option<Json>,
                   startClock: Option<int>, now: int) returns (r: Result<Status, string>)
    ensures var infos := Infos(agents);
            r.Ok? <==> && D.WaveStatus(infos, waves).Ok?
                       && (!D.Found(store) || D.Summarisable(store.value))
                       && D.EventsOf(infos).Ok?
                       && D.Aggregates(infos).Ok?
    ensures var infos := Infos(agents);
            r.Ok? ==>
              && r.value.agents == agents
              && r.value.waves == D.WaveStatus(infos, waves).value
              && r.value.successions == D.EventsOf(infos).value
              && r.value.totals == D.Aggregates(infos).value
              && r.value.tally == StatusTally(infos)
              && r.value.elapsed == D.FormatElapsed(startClock, now)
              && r.value.knowledge == D.Summary(store).value
              && Counter.Total(r.value.knowledge.contributions) == r.value.knowledge.successPatterns
  {
    var infos := Infos(agents);
    var waveStatus := D.WaveStatus(infos, waves);
    if waveStatus.Err? {
      return Err(waveStatus.error);
    }
    var knowledge := D.KnowledgeSummary(store);
    if knowledge.Err? {
      return Err(knowledge.error);
    }
    var successions := D.Successions(infos);
    if successions.Err? {
      return Err(successions.error);
    }
    var totals := D.Aggregates(infos);
    if totals.Err? {
      return Err(totals.error);
    }
    r := Ok(Status(agents, waveStatus.value, knowledge.value, successions.value, totals.value,
                   StatusTally(infos), D.FormatElapsed(startClock, now)));
  }
}
