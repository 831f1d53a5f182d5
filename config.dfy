/**
 * The dashboard's configuration: timing thresholds, resource limits, the
 * completion markers, and the lookup tables that map tool names to icons and
 * statuses to colours, with the rule checks that validate them.
 */
module Config {
  import opened Wrappers
  import opened Text

  /** Seconds without output before an agent counts as idle. */
  const IdleThresholdSeconds: int := 60
  /** Seconds without output before an agent counts as finished. */
  const CompletionThresholdSeconds: int := 120
  const WebsocketPingInterval: int := 30
  const FileWatchInterval: real := 0.5

  const MaxCacheSize: int := 50
  const MaxLiveEvents: int := 50
  const MaxContentLength: int := 300

  /** Text whose presence in an agent's output means the agent has finished. */
  const CompletionMarkers: seq<string> := [
    "EVOLUTION COMPLETE",
    "Task completed",
    "All tasks completed",
    "status\": \"completed\"",
    "Successfully completed",
    "Finished all",
    "COMPLETED",
    "Done!",
    "Generation complete",
    "Agent complete",
    "Complete.",
    "Finished.",
    "Mission accomplished",
    "Operation complete",
    "Process complete",
    "Execution finished"
  ]

  /** Icon names per tool, in the order of the dict literal. */
  const ToolIcons: seq<(string, string)> := [
    ("Read", "file-text"),
    ("Write", "file-plus"),
    ("Edit", "edit"),
    ("Glob", "folder-search"),
    ("Grep", "search"),
    ("Bash", "terminal"),
    ("Task", "users"),
    ("TodoWrite", "check-square"),
    ("WebFetch", "globe"),
    ("WebSearch", "search-code"),
    ("NotebookEdit", "book-open"),
    ("Skill", "zap"),
    ("default", "tool")
  ]

  /** Colours per status, in the order of the dict literal. */
  const StatusColors: seq<(string, string)> := [
    ("running", "#FF6B4A"),
    ("active", "#FF6B4A"),
    ("idle", "#7BA3A8"),
    ("completed", "#7D9B76"),
    ("failed", "#C67A6B"),
    ("error", "#C67A6B"),
    ("pending", "#9B8B7A"),
    ("needs_succession", "#D4A76A"),
    ("success", "#7D9B76"),
    ("failure", "#C67A6B"),
    ("timeout", "#D4A76A")
  ]

  /** The colour of a status the table does not know. */
  const PendingColor := "#9B8B7A"

  /** `table.get(key)` on a dict literal. */
  function Find(table: seq<(string, string)>, key: string): (r: Option<string>)
    ensures r.Some? <==> exists i :: 0 <= i < |table| && table[i].0 == key
    ensures r.Some? ==> exists i :: 0 <= i < |table| && table[i] == (key, r.value)
  {
    if table == [] then None
    else if table[0].0 == key then Some(table[0].1)
    else
      var r := Find(table[1..], key);
      assert forall i :: 1 <= i < |table| ==> table[i] == table[1..][i - 1];
      r
  }

  /** The first entry with a key decides what `get` returns. */
  lemma {:induction false} FindAt(table: seq<(string, string)>, i: nat)
    requires i < |table|
    requires forall j :: 0 <= j < i ==> table[j].0 != table[i].0
    ensures Find(table, table[i].0) == Some(table[i].1)
  {
    if i > 0 {
      FindAt(table[1..], i - 1);
    }
  }

  /** The icon of a known tool, and the default entry's "tool" for any other name. */
  function ToolIcon(toolName: string): (r: string)
    ensures (exists i :: 0 <= i < |ToolIcons| && ToolIcons[i] == (toolName, r))
            || (r == "tool" && forall i :: 0 <= i < |ToolIcons| ==> ToolIcons[i].0 != toolName)
  {
    FindAt(ToolIcons, 12);
    Find(ToolIcons, toolName).GetOr(Find(ToolIcons, "default").GetOr("tool"))
  }

  /** The colour of a status, looked up in lower case; an unknown status gets the pending colour. */
  function StatusColor(status: string): (r: string)
    ensures (exists i :: 0 <= i < |StatusColors| && StatusColors[i] == (Lower(status), r))
            || (r == PendingColor && forall i :: 0 <= i < |StatusColors| ==> StatusColors[i].0 != Lower(status))
  {
    FindAt(StatusColors, 6);
    Find(StatusColors, Lower(status)).GetOr(Find(StatusColors, "pending").GetOr(PendingColor))
  }

  /** Upper and lower case spellings of a status get the same colour. */
  lemma StatusColorIgnoresCase(status: string)
    ensures StatusColor(status) == StatusColor(Lower(status))
    ensures StatusColor(status) == StatusColor(Upper(status))
  {
    assert Lower(Lower(status)) == Lower(status);
    LowerOfUpper(status);
  }

  /** The settings `validate_config` checks; whether the two directories exist is an input. */
  datatype Settings = Settings(
    gasDir: string, taskDir: string, gasDirExists: bool, taskDirExists: bool,
    idle: int, completion: int, watch: real, ping: int,
    cacheSize: int, liveEvents: int, contentLength: int)

  /** The settings the module ships with. */
  function Shipped(gasDir: string, taskDir: string, gasDirExists: bool, taskDirExists: bool): Settings
  {
    Settings(gasDir, taskDir, gasDirExists, taskDirExists,
             IdleThresholdSeconds, CompletionThresholdSeconds, FileWatchInterval, WebsocketPingInterval,
             MaxCacheSize, MaxLiveEvents, MaxContentLength)
  }

  datatype Report = Report(valid: bool, issues: seq<string>, warnings: seq<string>)

  function When(c: bool, message: string): (r: seq<string>)
    ensures |r| == (if c then 1 else 0)
    ensures message in r <==> c
  {
    if c then [message] else []
  }

  const IdleIssue := "IDLE_THRESHOLD_SECONDS must be positive"
  const WatchIssue := "FILE_WATCH_INTERVAL must be positive"
  const PingIssue := "WEBSOCKET_PING_INTERVAL must be positive"
  const CacheIssue := "MAX_CACHE_SIZE must be positive"
  const LiveIssue := "MAX_LIVE_EVENTS must be positive"
  const ContentIssue := "MAX_CONTENT_LENGTH must be positive"
  const OrderWarning := "COMPLETION_THRESHOLD_SECONDS" + " should be greater than " + "IDLE_THRESHOLD_SECONDS"

  /**
   * The rule checks: one issue per non-positive setting, one warning per
   * missing directory and one when finishing would come no later than idling.
   */
  function ValidateConfig(s: Settings): (r: Report)
    ensures r.valid <==> r.issues == []
    ensures |r.issues| == (if s.idle <= 0 then 1 else 0) + (if s.watch <= 0.0 then 1 else 0)
                          + (if s.ping <= 0 then 1 else 0) + (if s.cacheSize <= 0 then 1 else 0)
                          + (if s.liveEvents <= 0 then 1 else 0) + (if s.contentLength <= 0 then 1 else 0)
    ensures IdleIssue in r.issues <== s.idle <= 0
    ensures WatchIssue in r.issues <== s.watch <= 0.0
    ensures PingIssue in r.issues <== s.ping <= 0
    ensures CacheIssue in r.issues <== s.cacheSize <= 0
    ensures LiveIssue in r.issues <== s.liveEvents <= 0
    ensures ContentIssue in r.issues <== s.contentLength <= 0
    ensures OrderWarning in r.warnings <==> s.completion <= s.idle
    ensures |r.warnings| == (if s.gasDirExists then 0 else 1) + (if s.taskDirExists then 0 else 1)
                            + (if s.completion <= s.idle then 1 else 0)
  {
    var issues := When(s.idle <= 0, IdleIssue) + When(s.watch <= 0.0, WatchIssue)
                  + When(s.ping <= 0, PingIssue) + When(s.cacheSize <= 0, CacheIssue)
                  + When(s.liveEvents <= 0, LiveIssue) + When(s.contentLength <= 0, ContentIssue);
    assert OrderWarning[0] == 'C';
    assert ("GAS_DIR does not exist: " + s.gasDir)[0] == 'G' && ("TASK_DIR does not exist: " + s.taskDir)[0] == 'T';
    var warnings := When(!s.gasDirExists, "GAS_DIR does not exist: " + s.gasDir)
                    + When(!s.taskDirExists, "TASK_DIR does not exist: " + s.taskDir)
                    + When(s.completion <= s.idle, OrderWarning);
    Report(|issues| == 0, issues, warnings)
  }

  /** The shipped constants raise no issue and no threshold warning; only a missing directory is reported. */
  lemma ShippedSettingsValid(gasDir: string, taskDir: string, gasDirExists: bool, taskDirExists: bool)
    ensures ValidateConfig(Shipped(gasDir, taskDir, gasDirExists, taskDirExists)).valid
    ensures OrderWarning !in ValidateConfig(Shipped(gasDir, taskDir, gasDirExists, taskDirExists)).warnings
    ensures gasDirExists && taskDirExists ==> ValidateConfig(Shipped(gasDir, taskDir, gasDirExists, taskDirExists)).warnings == []
  {
  }
}
