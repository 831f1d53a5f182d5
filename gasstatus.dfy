/**
 * `resources/dashboard/server/gas_status.py`: the status gatherer behind the
 * dashboard.  It classifies each agent from its parsed output, folds the
 * agents into an overall progress figure and into waves, lists the agents
 * that are later generations, finds an agent's id in its output path, and
 * keeps the buffers of live events that the HTTP and WebSocket handlers read.
 */
module GasStatus {
  import opened Wrappers
  import opened Seqs
  import opened Text
  import opened Json
  import Sorting
  import Config
  import OutputParser

  // ---------------------------------------------------------------------
  // Agent status

  /** Time stamps count microseconds; the thresholds are in seconds. */
  const PerSecond: int := 1000000

  /**
   * `_determine_agent_status`: the agent's state from its parsed output and
   * the current UTC time.  A completion marker means finished; with no
   * timestamp seen the agent is pending until it has produced an event; past
   * the completion threshold an agent with more than 20 events counts as
   * finished; past the idle threshold it is idle; otherwise running.
   */
  function DetermineAgentStatus(p: OutputParser.Parsed, now: int): (r: string)
    ensures r in {"completed", "idle", "running", "pending"}
    ensures r == "completed" <==>
              || p.hasCompletionMarker
              || (&& p.lastActivity.Some?
                  && now - p.lastActivity.value.instant > Config.CompletionThresholdSeconds * PerSecond
                  && p.totalEvents > 20)
    ensures r == "pending" <==> !p.hasCompletionMarker && p.lastActivity.None? && p.totalEvents == 0
    ensures r == "running" <==>
              && !p.hasCompletionMarker
              && p.lastActivity.Some?
              && now - p.lastActivity.value.instant <= Config.IdleThresholdSeconds * PerSecond
  {
    if p.hasCompletionMarker then "completed"
    else if p.lastActivity.None? then (if p.totalEvents == 0 then "pending" else "idle")
    else
      var elapsed := now - p.lastActivity.value.instant;
      if elapsed > Config.CompletionThresholdSeconds * PerSecond then (if p.totalEvents > 20 then "completed" else "idle")
      else if elapsed > Config.IdleThresholdSeconds * PerSecond then "idle"
      else "running"
  }

  /**
   * As time passes with nothing new in the output, an agent never returns to
   * running, a finished agent stays finished, and being pending does not
   * depend on the time.
   */
  lemma StatusAges(p: OutputParser.Parsed, now: int, later: int)
    requires now <= later
    ensures DetermineAgentStatus(p, now) != "running" ==> DetermineAgentStatus(p, later) != "running"
    ensures DetermineAgentStatus(p, now) == "completed" ==> DetermineAgentStatus(p, later) == "completed"
    ensures DetermineAgentStatus(p, now) == "pending" <==> DetermineAgentStatus(p, later) == "pending"
  {
  }

  // ---------------------------------------------------------------------
  // Overall progress

  /** The fields of a gathered agent record that the progress and wave summaries read. */
  datatype Agent = Agent(wave: Json, status: string, progress: int)

  /** The gathered agents, in the order of the `agents` dict. */
  type Agents = seq<(string, Agent)>

  function SumProgress(agents: Agents): (r: int)
    ensures (forall i :: 0 <= i < |agents| ==> agents[i].1.progress >= 0) ==> r >= 0
    ensures (forall i :: 0 <= i < |agents| ==> agents[i].1.progress >= 100) ==> r >= 100 * |agents|
  {
    if agents == [] then 0 else agents[0].1.progress + SumProgress(agents[1..])
  }

  function CountCompleted(agents: Agents): (r: nat)
    ensures r <= |agents|
    ensures (forall i :: 0 <= i < |agents| ==> agents[i].1.status == "completed") ==> r == |agents|
  {
    if agents == [] then 0 else (if agents[0].1.status == "completed" then 1 else 0) + CountCompleted(agents[1..])
  }

  /** Python's `int(x)` on a float: truncation toward zero. */
  function Trunc(x: real): (r: int)
    ensures 0.0 <= x ==> r as real <= x < r as real + 1.0
    ensures x < 0.0 ==> r as real - 1.0 < x <= r as real
  {
    if x >= 0.0 then x.Floor else -((-x).Floor)
  }

  /** The two terms of the overall progress, bounded from the bounds of the sums. */
  lemma ProgressTerms(total: real, completed: real, n: real)
    requires n > 0.0 && 0.0 <= completed <= n
    ensures total >= 0.0 ==> total / n * 0.5 + completed / n * 50.0 >= 0.0
    ensures total >= 100.0 * n && completed == n ==> total / n * 0.5 + completed / n * 50.0 >= 100.0
  {
    assert completed / n >= 0.0;
    if total >= 100.0 * n {
      assert total / n >= 100.0;
    }
    if completed == n {
      assert completed / n == 1.0;
    }
  }

  /**
   * `_calculate_overall_progress`: half the mean progress plus fifty times
   * the share of finished agents, truncated and capped at 100; no agents
   * give 0.  Progress values that are not negative keep it in 0..100, and a
   * swarm whose agents have all finished at full progress shows 100.
   */
  function OverallProgress(agents: Agents): (r: int)
    ensures agents == [] ==> r == 0
    ensures r <= 100
    ensures (forall i :: 0 <= i < |agents| ==> agents[i].1.progress >= 0) ==> 0 <= r
    ensures agents != [] && (forall i :: 0 <= i < |agents| ==> agents[i].1.status == "completed" && agents[i].1.progress >= 100)
            ==> r == 100
  {
    if agents == [] then 0
    else
      var n := |agents| as real;
      var total := SumProgress(agents) as real;
      var completed := CountCompleted(agents) as real;
      ProgressTerms(total, completed, n);
      var x := total / n * 0.5 + completed / n * 50.0;
      if x >= 100.0 then 100 else Trunc(x)
  }

  // ---------------------------------------------------------------------
  // Waves

  /** One entry of the dict `_organize_by_waves` returns. */
  datatype Wave = Wave(wave: Json, agents: seq<string>, total: nat, running: nat, completed: nat, idle: nat, pending: nat)

  /**
   * The statuses the gatherer assigns never name one of a wave record's own
   * keys, so the `status in wave_data` test only ever picks a counter.
   */
  predicate PlainStatuses(agents: Agents)
  {
    forall i :: 0 <= i < |agents| ==> agents[i].1.status !in {"wave", "agents", "total"}
  }

  function NewWave(w: Json): Wave
  {
    Wave(w, [], 0, 0, 0, 0, 0)
  }

  function Tick(status: string, s: string): nat
  {
    if status == s then 1 else 0
  }

  /** The loop body's update of a wave record: the agent listed and counted, and its status counter raised. */
  function Bump(v: Wave, id: string, status: string): Wave
  {
    v.(agents := v.agents + [id], total := v.total + 1,
       running := v.running + Tick(status, "running"), completed := v.completed + Tick(status, "completed"),
       idle := v.idle + Tick(status, "idle"), pending := v.pending + Tick(status, "pending"))
  }

  /** Where the dict holds a wave, if it does. */
  function FindWave(waves: seq<Wave>, w: Json): (r: Option<nat>)
    ensures r.Some? ==> r.value < |waves| && waves[r.value].wave == w
    ensures r.None? ==> forall i :: 0 <= i < |waves| ==> waves[i].wave != w
  {
    if waves == [] then None
    else if waves[|waves| - 1].wave == w then Some(|waves| - 1)
    else FindWave(waves[..|waves| - 1], w)
  }

  /** One agent placed: into its wave's record, which is created at the end when the wave is new. */
  function Place(waves: seq<Wave>, id: string, a: Agent): seq<Wave>
  {
    match FindWave(waves, a.wave)
    case None => waves + [Bump(NewWave(a.wave), id, a.status)]
    case Some(i) => waves[i := Bump(waves[i], id, a.status)]
  }

  /** The waves after the loop over a prefix of the agents, in order of first appearance. */
  function Organized(agents: Agents): seq<Wave>
  {
    if agents == [] then []
    else Place(Organized(agents[..|agents| - 1]), agents[|agents| - 1].0, agents[|agents| - 1].1)
  }

  /** Placing one more agent extends the records of the agents before it. */
  lemma OrganizedStep(agents: Agents, k: nat)
    requires k < |agents|
    ensures Organized(agents[..k + 1]) == Place(Organized(agents[..k]), agents[k].0, agents[k].1)
  {
    TakeSnoc(agents, k);
  }

  /** The ids of the agents in wave w, in dict order. */
  function Members(agents: Agents, w: Json): seq<string>
  {
    if agents == [] then []
    else Members(agents[..|agents| - 1], w) + (if agents[|agents| - 1].1.wave == w then [agents[|agents| - 1].0] else [])
  }

  /** How many agents of wave w have status s. */
  function CountStatus(agents: Agents, w: Json, s: string): nat
  {
    if agents == [] then 0
    else CountStatus(agents[..|agents| - 1], w, s)
         + (if agents[|agents| - 1].1.wave == w && agents[|agents| - 1].1.status == s then 1 else 0)
  }

  /** What the record of wave w should hold: its agents, their number, and the number per status. */
  function WaveOf(agents: Agents, w: Json): Wave
  {
    Wave(w, Members(agents, w), |Members(agents, w)|,
         CountStatus(agents, w, "running"), CountStatus(agents, w, "completed"),
         CountStatus(agents, w, "idle"), CountStatus(agents, w, "pending"))
  }

  /** A wave that no agent belongs to has an empty record. */
  lemma {:induction false} WaveOfAbsent(agents: Agents, w: Json)
    requires forall k :: 0 <= k < |agents| ==> agents[k].1.wave != w
    ensures WaveOf(agents, w) == NewWave(w)
  {
    if agents != [] {
      WaveOfAbsent(agents[..|agents| - 1], w);
    }
  }

  /** Placing an agent keeps the records there were, in place, and adds one at the end only for a new wave. */
  lemma PlaceKeys(waves: seq<Wave>, id: string, a: Agent)
    ensures |waves| <= |Place(waves, id, a)| <= |waves| + 1
    ensures forall i :: 0 <= i < |waves| ==> Place(waves, id, a)[i].wave == waves[i].wave
    ensures forall i :: |waves| <= i < |Place(waves, id, a)| ==> Place(waves, id, a)[i].wave == a.wave
    ensures |Place(waves, id, a)| == |waves| + 1 <==> forall i :: 0 <= i < |waves| ==> waves[i].wave != a.wave
  {
  }

  /** No wave has two records. */
  lemma {:induction false} OrganizedDistinct(agents: Agents)
    ensures forall i, j :: 0 <= i < j < |Organized(agents)| ==> Organized(agents)[i].wave != Organized(agents)[j].wave
  {
    if agents != [] {
      var last := agents[|agents| - 1];
      var before := Organized(agents[..|agents| - 1]);
      OrganizedDistinct(agents[..|agents| - 1]);
      var after := Place(before, last.0, last.1);
      assert Organized(agents) == after;
      PlaceKeys(before, last.0, last.1);
      forall i, j | 0 <= i < j < |after| ensures after[i].wave != after[j].wave {
        if j < |before| {
          assert after[i].wave == before[i].wave && after[j].wave == before[j].wave;
        } else {
          assert after[j].wave == last.1.wave && after[i].wave == before[i].wave;
        }
      }
    }
  }

  /** Every agent's wave has a record. */
  lemma {:induction false} OrganizedCovers(agents: Agents, k: nat)
    requires k < |agents|
    ensures exists i :: 0 <= i < |Organized(agents)| && Organized(agents)[i].wave == agents[k].1.wave
  {
    var last := agents[|agents| - 1];
    var init := agents[..|agents| - 1];
    var before := Organized(init);
    var after := Place(before, last.0, last.1);
    assert Organized(agents) == after;
    PlaceKeys(before, last.0, last.1);
    if k < |init| {
      OrganizedCovers(init, k);
      assert agents[k] == init[k];
      var i :| 0 <= i < |before| && before[i].wave == init[k].1.wave;
      assert after[i].wave == before[i].wave;
    } else if |after| == |before| {
      var i := FindWave(before, last.1.wave).value;
      assert after[i].wave == last.1.wave;
    } else {
      assert after[|before|].wave == last.1.wave;
    }
  }

  /** Every record belongs to the wave of some agent. */
  lemma {:induction false} OrganizedOccupied(agents: Agents, i: nat)
    requires i < |Organized(agents)|
    ensures exists k :: 0 <= k < |agents| && agents[k].1.wave == Organized(agents)[i].wave
  {
    var last := agents[|agents| - 1];
    var init := agents[..|agents| - 1];
    var before := Organized(init);
    var after := Place(before, last.0, last.1);
    assert Organized(agents) == after;
    PlaceKeys(before, last.0, last.1);
    if i < |before| {
      OrganizedOccupied(init, i);
      var k :| 0 <= k < |init| && init[k].1.wave == before[i].wave;
      assert agents[k] == init[k];
    } else {
      assert agents[|agents| - 1].1.wave == after[i].wave;
    }
  }

  /** Each of the loop's wave records holds exactly the agents of its wave, their number and the number per status. */
  lemma {:induction false} OrganizedMeaning(agents: Agents)
    ensures forall i :: 0 <= i < |Organized(agents)| ==> Organized(agents)[i] == WaveOf(agents, Organized(agents)[i].wave)
  {
    if agents != [] {
      var init := agents[..|agents| - 1];
      var last := agents[|agents| - 1];
      var before := Organized(init);
      OrganizedMeaning(init);
      var after := Place(before, last.0, last.1);
      assert Organized(agents) == after;
      var w := last.1.wave;
      assert WaveOf(agents, w) == Bump(WaveOf(init, w), last.0, last.1.status);
      forall i | 0 <= i < |after| ensures after[i] == WaveOf(agents, after[i].wave) {
        match FindWave(before, w)
        case None =>
          if i < |before| {
            assert after[i] == before[i];
            assert WaveOf(agents, before[i].wave) == WaveOf(init, before[i].wave);
          } else {
            forall k | 0 <= k < |init| ensures init[k].1.wave != w {
              OrganizedCovers(init, k);
            }
            WaveOfAbsent(init, w);
          }
        case Some(j) =>
          if i == j {
            assert after[i] == Bump(before[i], last.0, last.1.status);
          } else {
            OrganizedDistinct(init);
            assert after[i] == before[i];
            assert WaveOf(agents, before[i].wave) == WaveOf(init, before[i].wave);
          }
      }
    }
  }
  /** An id is listed under wave w exactly when some agent with that id is in wave w. */
  lemma {:induction false} MembersHas(agents: Agents, w: Json, id: string)
    ensures id in Members(agents, w) <==> exists k :: 0 <= k < |agents| && agents[k].0 == id && agents[k].1.wave == w
  {
    if agents != [] {
      var init := agents[..|agents| - 1];
      MembersHas(init, w, id);
      if exists k :: 0 <= k < |init| && init[k].0 == id && init[k].1.wave == w {
        var k :| 0 <= k < |init| && init[k].0 == id && init[k].1.wave == w;
        assert agents[k] == init[k];
      }
      if exists k :: 0 <= k < |agents| && agents[k].0 == id && agents[k].1.wave == w {
        var k :| 0 <= k < |agents| && agents[k].0 == id && agents[k].1.wave == w;
        if k < |init| {
          assert agents[k] == init[k];
        }
      }
    }
  }

  /** The status counters never exceed the total, and add up to it when every status is one of the four. */
  lemma {:induction false} StatusCountsBounded(agents: Agents, w: Json)
    ensures var v := WaveOf(agents, w); v.running + v.completed + v.idle + v.pending <= v.total
    ensures (forall k :: 0 <= k < |agents| ==> agents[k].1.status in {"running", "completed", "idle", "pending"}) ==>
              var v := WaveOf(agents, w); v.running + v.completed + v.idle + v.pending == v.total
  {
    if agents != [] {
      StatusCountsBounded(agents[..|agents| - 1], w);
    }
  }

  /**
   * With the dict's distinct agent ids, each agent is listed in exactly one
   * wave record, the record of its own wave.
   */
  lemma EveryAgentInOneWave(agents: Agents, k: nat)
    requires k < |agents|
    requires forall j, l :: 0 <= j < l < |agents| ==> agents[j].0 != agents[l].0
    ensures exists i :: 0 <= i < |Organized(agents)| && Organized(agents)[i].wave == agents[k].1.wave
    ensures forall i :: 0 <= i < |Organized(agents)| ==>
              (agents[k].0 in Organized(agents)[i].agents <==> Organized(agents)[i].wave == agents[k].1.wave)
  {
    var waves := Organized(agents);
    OrganizedCovers(agents, k);
    OrganizedMeaning(agents);
    forall i | 0 <= i < |waves| ensures agents[k].0 in waves[i].agents <==> waves[i].wave == agents[k].1.wave {
      MembersHas(agents, waves[i].wave, agents[k].0);
    }
  }

  /**
   * `_organize_by_waves`: one record per wave in order of first appearance,
   * built by the loop over the agents; a wave value that cannot be a dict
   * key raises `TypeError`.
   */
  method OrganizeByWaves(agents: Agents) returns (r: Result<seq<Wave>, string>)
    requires PlainStatuses(agents)
    ensures r.Ok? <==> forall k :: 0 <= k < |agents| ==> Hashable(agents[k].1.wave)
    ensures r.Ok? ==> r.value == Organized(agents)
  {
    var waves: seq<Wave> := [];
    var k := 0;
    while k < |agents|
      invariant 0 <= k <= |agents|
      invariant waves == Organized(agents[..k])
      invariant forall j :: 0 <= j < k ==> Hashable(agents[j].1.wave)
    {
      var id := agents[k].0;
      var agent := agents[k].1;
      if !Hashable(agent.wave) {
        return Err("TypeError: unhashable type");
      }
      OrganizedStep(agents, k);
      waves := PlaceAgent(waves, id, agent);
      k := k + 1;
    }
    TakeAll(agents);
    r := Ok(waves);
  }

  /** The loop body of `_organize_by_waves`: the wave's record created when new, then the agent listed and counted. */
  method PlaceAgent(waves: seq<Wave>, id: string, agent: Agent) returns (placed: seq<Wave>)
    ensures placed == Place(waves, id, agent)
  {
    var found := FindWave(waves, agent.wave);
    var i: nat;
    placed := waves;
    if found.None? {
      placed := placed + [NewWave(agent.wave)];
      i := |placed| - 1;
      UpdateLast(waves, NewWave(agent.wave), Bump(NewWave(agent.wave), id, agent.status));
    } else {
      i := found.value;
    }
    placed := placed[i := Bump(placed[i], id, agent.status)];
  }
  // ---------------------------------------------------------------------
  // Agent ids from output paths

  /** The named components of a POSIX path, as `pathlib` keeps them: empty and `.` components dropped. */
  function PathPieces(path: string): (r: seq<string>)
    ensures forall k :: 0 <= k < |r| ==> !Contains(r[k], "/")
  {
    SplitPiecesFree(path, "/");
    var r := Filter(Split(path, "/"), (piece: string) => piece != "" && piece != ".");
    forall k | 0 <= k < |r| ensures !Contains(r[k], "/") {
      FilterMembers(Split(path, "/"), (piece: string) => piece != "" && piece != ".", r[k]);
    }
    r
  }

  /** `Path(path).parts`: the root `/` of an absolute path, then its named components. */
  function PathParts(path: string): seq<string>
  {
    (if |path| > 0 && path[0] == '/' then ["/"] else []) + PathPieces(path)
  }

  /** `Path(path).parent.name`: the last component but one, or empty when there is none. */
  function ParentName(path: string): string
  {
    var pieces := PathPieces(path);
    if |pieces| >= 2 then pieces[|pieces| - 2] else ""
  }

  /** A component that names an agent: seven characters starting with `a`, or containing "agent" in any case. */
  predicate IsAgentPart(part: string)
  {
    (StartsWith(part, "a") && |part| == 7) || Contains(Lower(part), "agent")
  }

  /** The root of an absolute path never names an agent. */
  lemma RootIsNoAgent()
    ensures !IsAgentPart("/")
  {
    assert "/"[..1] == "/" && "/"[0] != "a"[0];
    assert |Lower("/")| == 1;
  }

  /** The first component that names an agent. */
  function FirstAgentPart(parts: seq<string>): (r: Option<nat>)
    ensures r.Some? ==> r.value < |parts| && IsAgentPart(parts[r.value])
                        && forall j :: 0 <= j < r.value ==> !IsAgentPart(parts[j])
    ensures r.None? ==> forall j :: 0 <= j < |parts| ==> !IsAgentPart(parts[j])
  {
    if parts == [] then None
    else if IsAgentPart(parts[0]) then Some(0)
    else
      match FirstAgentPart(parts[1..])
      case None => None
      case Some(i) => Some(i + 1)
  }

  /**
   * The id `_extract_agent_id` finds: the first path component that names an
   * agent, else the name of the file's directory.  Either way it is a single
   * component, free of `/`.
   */
  function AgentIdOf(path: string): (r: string)
    ensures || (exists i :: 0 <= i < |PathParts(path)| && IsAgentPart(PathParts(path)[i]) && r == PathParts(path)[i]
                           && forall j :: 0 <= j < i ==> !IsAgentPart(PathParts(path)[j]))
            || ((forall i :: 0 <= i < |PathParts(path)| ==> !IsAgentPart(PathParts(path)[i])) && r == ParentName(path))
    ensures !Contains(r, "/")
  {
    var parts := PathParts(path);
    match FirstAgentPart(parts)
    case Some(i) =>
      RootIsNoAgent();
      assert parts[i] == "/" || parts[i] in PathPieces(path);
      parts[i]
    case None => ParentName(path)
  }

  /** `_extract_agent_id`: the loop over the path's components. */
  method ExtractAgentId(outputFile: string) returns (id: string)
    ensures id == AgentIdOf(outputFile)
  {
    var parts := PathParts(outputFile);
    var i := 0;
    while i < |parts|
      invariant 0 <= i <= |parts|
      invariant forall j :: 0 <= j < i ==> !IsAgentPart(parts[j])
    {
      var part := parts[i];
      if StartsWith(part, "a") && |part| == 7 {
        return part;
      }
      if Contains(Lower(part), "agent") {
        return part;
      }
      i := i + 1;
    }
    id := ParentName(outputFile);
  }
  // ---------------------------------------------------------------------
  // Generations

  /** One entry of the list `detect_agent_generations` returns. */
  datatype Generation = Generation(agentId: string, generation: Json, role: Json, parent: Json, timestamp: Json)

  /** The generation an agent record gives, 1 when it has none. */
  function GenerationField(data: Json): Json
  {
    Get(data, "generation").GetOr(JInt(1))
  }

  /**
   * The loop body for one agent: an agent of a later generation yields an
   * entry; a record that is not a dict, or a generation that does not
   * compare with 1, raises.
   */
  function GenerationOf(id: string, data: Json): (r: Result<Option<Generation>, string>)
    ensures r.Ok? <==> data.JObj? && Numeric(GenerationField(data))
    ensures r.Ok? ==> (r.value.Some? <==> Num(GenerationField(data)) > 1.0)
    ensures r.Ok? && r.value.Some? ==> r.value.value.agentId == id && r.value.value.generation == GenerationField(data)
  {
    if !data.JObj? then Err("AttributeError: object has no attribute 'get'")
    else
      var gen := GenerationField(data);
      if !Numeric(gen) then Err("TypeError: '>' not supported between instances")
      else if Num(gen) > 1.0 then
        Ok(Some(Generation(id, gen, Get(data, "role").GetOr(JNull), Get(data, "parent_agent").GetOr(JNull),
                           Get(data, "start_time").GetOr(JNull))))
      else Ok(None)
  }

  /** The entries of the later-generation agents, in dict order; the first bad record raises. */
  function Collected(agents: seq<(string, Json)>): (r: Result<seq<Generation>, string>)
    ensures r.Ok? <==> forall k :: 0 <= k < |agents| ==> GenerationOf(agents[k].0, agents[k].1).Ok?
    ensures r.Ok? ==> forall e :: e in r.value <==>
              exists k :: 0 <= k < |agents| && GenerationOf(agents[k].0, agents[k].1) == Ok(Some(e))
  {
    if agents == [] then Ok([])
    else
      match GenerationOf(agents[0].0, agents[0].1)
      case Err(e) => Err(e)
      case Ok(first) =>
        match Collected(agents[1..])
        case Err(e) =>
          assert forall k :: 1 <= k < |agents| ==> agents[k] == agents[1..][k - 1];
          Err(e)
        case Ok(rest) =>
          assert forall k :: 1 <= k < |agents| ==> agents[k] == agents[1..][k - 1];
          assert forall k :: 0 <= k < |agents[1..]| ==> agents[1..][k] == agents[k + 1];
          Ok((if first.Some? then [first.value] else []) + rest)
  }

  /** The order of `sorted(..., key=lambda x: (x['generation'], x['agent_id']))`. */
  function ByGenerationThenId(): (Generation, Generation) -> bool
  {
    (a: Generation, b: Generation) =>
      Num(a.generation) < Num(b.generation) || (Num(a.generation) == Num(b.generation) && StrLess(a.agentId, b.agentId))
  }

  lemma ByGenerationThenIdIsOrder()
    ensures Sorting.StrictWeakOrder(ByGenerationThenId())
  {
    var lt := ByGenerationThenId();
    forall a, b | lt(a, b) ensures !lt(b, a) {
      StrLessTotal(a.agentId, b.agentId);
    }
    forall a, b, c | lt(a, c) ensures lt(a, b) || lt(b, c) {
      if Num(a.generation) == Num(b.generation) == Num(c.generation) && !lt(a, b) && !lt(b, c) {
        StrLessTotal(a.agentId, b.agentId);
        StrLessTotal(b.agentId, c.agentId);
        StrLessTotal(a.agentId, c.agentId);
        if a.agentId != b.agentId && b.agentId != c.agentId {
          StrLessTransitive(c.agentId, b.agentId, a.agentId);
        }
      }
    }
  }

  /**
   * `detect_agent_generations`: exactly the agents whose generation is above
   * 1, each once, sorted by generation and then by id.
   */
  function DetectAgentGenerations(agents: seq<(string, Json)>): (r: Result<seq<Generation>, string>)
    ensures r.Ok? <==> forall k :: 0 <= k < |agents| ==> agents[k].1.JObj? && Numeric(GenerationField(agents[k].1))
    ensures r.Ok? ==> Sorting.Sorted(r.value, ByGenerationThenId())
    ensures r.Ok? ==> multiset(r.value) == multiset(Collected(agents).value)
    ensures r.Ok? ==> forall e :: e in r.value <==>
              exists k :: 0 <= k < |agents| && GenerationOf(agents[k].0, agents[k].1) == Ok(Some(e))
  {
    match Collected(agents)
    case Err(e) => Err(e)
    case Ok(found) =>
      ByGenerationThenIdIsOrder();
      Sorting.SortSorted(found, ByGenerationThenId());
      var sorted := Sorting.Sort(found, ByGenerationThenId());
      assert forall e :: e in sorted <==> e in multiset(sorted);
      assert forall e :: e in found <==> e in multiset(found);
      Ok(sorted)
  }
  // ---------------------------------------------------------------------
  // Live event buffers

  /** A live-feed entry with the `agent_id` key the change check adds to it. */
  datatype Tagged = Tagged(entry: OutputParser.Display, agentId: string)

  /** What the file tracker reported for one discovered output file: its new text and whether it changed. */
  datatype OutputRead = OutputRead(path: string, content: string, changed: bool)

  /** The gatherer's state that the change check updates. */
  datatype Buffers = Buffers(parsed: map<string, OutputParser.Parsed>, recentEvents: seq<Tagged>, newEvents: seq<Tagged>)

  /** How many of an agent's newest live entries one change passes on. */
  const EmitCount: nat := 10

  function Tag(entries: seq<OutputParser.Display>, id: string): (r: seq<Tagged>)
    ensures |r| == |entries|
    ensures forall i :: 0 <= i < |r| ==> r[i] == Tagged(entries[i], id)
  {
    if entries == [] then [] else [Tagged(entries[0], id)] + Tag(entries[1..], id)
  }

  /**
   * The events the change check passes on AS WRITTEN: the last ten entries
   * of the agent's whole live feed, which the incremental parse carries over
   * from earlier changes.
   */
  function EmittedAsWritten(parsed: OutputParser.Parsed, id: string): seq<Tagged>
  {
    Tag(LastN(parsed.liveEvents, EmitCount), id)
  }

  /** The events the change check should pass on: the last ten entries that the new text itself yields. */
  function Emitted(content: string, env: OutputParser.Env, id: string): (r: seq<Tagged>)
    ensures |r| <= EmitCount
  {
    Tag(LastN(OutputParser.Entries(Split(content, "\n"), env), EmitCount), id)
  }

  /** The parser's result for an agent's new text, continuing what was parsed for that agent before. */
  function Reparse(b: Buffers, id: string, content: string, env: OutputParser.Env): Result<OutputParser.Parsed, string>
  {
    var existing := if id in b.parsed then Some(b.parsed[id]) else None;
    var lines := Split(content, "\n");
    OutputParser.Finish(OutputParser.Lines(OutputParser.Start(existing, lines), lines, env))
  }

  /**
   * The body of the loop over changed output files: a file with an agent id
   * is parsed onto that agent's earlier result, which is stored, and its new
   * entries go to both buffers; a parse that raises (None) ends the check.
   */
  function Absorb(b: Buffers, o: OutputRead, env: OutputParser.Env): (r: Option<Buffers>)
    ensures r.Some? ==> b.newEvents <= r.value.newEvents
                        && r.value.recentEvents == b.recentEvents + r.value.newEvents[|b.newEvents|..]
  {
    var id := AgentIdOf(o.path);
    if id == "" then Some(b)
    else
      match Reparse(b, id, o.content, env)
      case Err(_) => None
      case Ok(p) =>
        var events := Emitted(o.content, env, id);
        assert (b.newEvents + events)[|b.newEvents|..] == events;
        Some(Buffers(b.parsed[id := p], b.recentEvents + events, b.newEvents + events))
  }

  /** The state after the loop over the output files, and whether a parse raised. */
  datatype Swept = Swept(b: Buffers, raised: bool)

  function Sweep(b: Buffers, outputs: seq<OutputRead>, env: OutputParser.Env): Swept
  {
    if outputs == [] then Swept(b, false)
    else
      var s := Sweep(b, outputs[..|outputs| - 1], env);
      var o := outputs[|outputs| - 1];
      if s.raised || !o.changed then s
      else
        match Absorb(s.b, o, env)
        case None => Swept(s.b, true)
        case Some(c) => Swept(c, false)
  }

  /**
   * Every event the loop passes on reaches both buffers, in the same order:
   * the new-events buffer only grows, and the recent-events buffer grows by
   * the same events.
   */
  lemma {:induction false} SweepFeedsBoth(b: Buffers, outputs: seq<OutputRead>, env: OutputParser.Env)
    ensures var s := Sweep(b, outputs, env);
            && b.newEvents <= s.b.newEvents
            && s.b.recentEvents == b.recentEvents + s.b.newEvents[|b.newEvents|..]
  {
    if outputs != [] {
      var s := Sweep(b, outputs[..|outputs| - 1], env);
      SweepFeedsBoth(b, outputs[..|outputs| - 1], env);
      var o := outputs[|outputs| - 1];
      if !s.raised && o.changed {
        var c := Absorb(s.b, o, env);
        if c.Some? {
          GrowsTogether(b.newEvents, s.b.newEvents, c.value.newEvents, b.recentEvents, s.b.recentEvents, c.value.recentEvents);
        }
      }
    }
  }

  lemma GrowsTogether<T>(x: seq<T>, y: seq<T>, z: seq<T>, r0: seq<T>, r1: seq<T>, r2: seq<T>)
    requires x <= y && r1 == r0 + y[|x|..]
    requires y <= z && r2 == r1 + z[|y|..]
    ensures x <= z && r2 == r0 + z[|x|..]
  {
    assert z[|x|..] == y[|x|..] + z[|y|..];
  }

  /** One more file runs the loop body once more on what the loop had. */
  lemma SweepStep(b: Buffers, outputs: seq<OutputRead>, k: nat, env: OutputParser.Env)
    requires k < |outputs|
    ensures var s := Sweep(b, outputs[..k], env);
            Sweep(b, outputs[..k + 1], env) ==
              if s.raised || !outputs[k].changed then s
              else match Absorb(s.b, outputs[k], env)
                   case None => Swept(s.b, true)
                   case Some(c) => Swept(c, false)
  {
    TakeSnoc(outputs, k);
  }

  /** Once a parse has raised, the rest of the files are not looked at. */
  lemma {:induction false} SweepRaisedSticky(b: Buffers, outputs: seq<OutputRead>, k: nat, env: OutputParser.Env)
    requires k <= |outputs| && Sweep(b, outputs[..k], env).raised
    ensures Sweep(b, outputs, env) == Sweep(b, outputs[..k], env)
    decreases |outputs| - k
  {
    if k < |outputs| {
      var init := outputs[..|outputs| - 1];
      assert init[..k] == outputs[..k];
      SweepRaisedSticky(b, init, k, env);
    } else {
      TakeAll(outputs);
    }
  }

  /**
   * The trim at the end of the change check: a buffer past twice the limit
   * drops to its newest `MAX_LIVE_EVENTS` entries, so it never ends above
   * twice the limit.
   */
  function Trim(recent: seq<Tagged>): (r: seq<Tagged>)
    ensures |r| <= 2 * Config.MaxLiveEvents && |r| <= |recent|
    ensures r == recent[|recent| - |r|..]
    ensures |recent| > 2 * Config.MaxLiveEvents ==> |r| == Config.MaxLiveEvents
    ensures |recent| <= 2 * Config.MaxLiveEvents ==> r == recent
  {
    if |recent| > 2 * Config.MaxLiveEvents then LastN(recent, Config.MaxLiveEvents) else recent
  }

  /** The state after the whole change check: the loop, then the trim when no parse raised. */
  function Checked(b: Buffers, outputs: seq<OutputRead>, env: OutputParser.Env): (r: Swept)
    ensures r.raised == Sweep(b, outputs, env).raised
    ensures r.b.parsed == Sweep(b, outputs, env).b.parsed && r.b.newEvents == Sweep(b, outputs, env).b.newEvents
    ensures r.raised ==> r == Sweep(b, outputs, env)
    ensures !r.raised ==> r.b.recentEvents == Trim(Sweep(b, outputs, env).b.recentEvents)
  {
    var s := Sweep(b, outputs, env);
    if s.raised then s else Swept(s.b.(recentEvents := Trim(s.b.recentEvents)), false)
  }

  /** The gatherer's per-agent parse results and its two event buffers. */
  class Gatherer {
    var agentParsed: map<string, OutputParser.Parsed>
    var recentEvents: seq<Tagged>
    var newEvents: seq<Tagged>

    function State(): Buffers
      reads this
    {
      Buffers(agentParsed, recentEvents, newEvents)
    }

    constructor()
      ensures State() == Buffers(map[], [], [])
    {
      agentParsed := map[];
      recentEvents := [];
      newEvents := [];
    }

    /** `get_recent_events`: the newest `MAX_LIVE_EVENTS` entries of the recent-events buffer. */
    method GetRecentEvents() returns (events: seq<Tagged>)
      ensures |events| == if |recentEvents| < Config.MaxLiveEvents then |recentEvents| else Config.MaxLiveEvents
      ensures events == recentEvents[|recentEvents| - |events|..]
    {
      events := LastN(recentEvents, Config.MaxLiveEvents);
    }

    /** `get_new_events`: the buffered events, leaving the buffer empty. */
    method GetNewEvents() returns (events: seq<Tagged>)
      modifies this
      ensures events == old(newEvents) && newEvents == []
      ensures agentParsed == old(agentParsed) && recentEvents == old(recentEvents)
    {
      events := newEvents;
      newEvents := [];
    }

    /** The loop body of `check_for_changes` for one changed output file. */
    method AbsorbOutput(o: OutputRead, env: OutputParser.Env) returns (raised: bool)
      modifies this
      ensures raised <==> Absorb(old(State()), o, env).None?
      ensures !raised ==> State() == Absorb(old(State()), o, env).value
      ensures raised ==> State() == old(State())
    {
      ghost var b := State();
      var id := ExtractAgentId(o.path);
      if id != "" {
        var existing := if id in agentParsed then Some(agentParsed[id]) else None;
        var parsed := OutputParser.ParseOutputContent(o.content, existing, env);
        assert parsed == Reparse(b, id, o.content, env);
        if parsed.Err? {
          assert Absorb(b, o, env) == None;
          return true;
        }
        var events := Emitted(o.content, env, id);
        assert Absorb(b, o, env) == Some(Buffers(b.parsed[id := parsed.value], b.recentEvents + events, b.newEvents + events));
        agentParsed := agentParsed[id := parsed.value];
        newEvents := newEvents + events;
        recentEvents := recentEvents + events;
      } else {
        assert Absorb(b, o, env) == Some(b);
      }
      raised := false;
    }

    /**
     * `check_for_changes`: whether the state file or any output file changed,
     * every changed output file absorbed in turn, and the recent-events buffer
     * trimmed.  A parse that raises ends the check before the trim.
     */
    method CheckForChanges(stateChanged: bool, outputs: seq<OutputRead>, env: OutputParser.Env) returns (hasChanges: bool, raised: bool)
      modifies this
      ensures Swept(State(), raised) == Checked(old(State()), outputs, env)
      ensures !raised ==> (hasChanges <==> stateChanged || exists i :: 0 <= i < |outputs| && outputs[i].changed)
    {
      hasChanges, raised := SweepOutputs(stateChanged, outputs, env);
      if !raised {
        recentEvents := Trim(recentEvents);
      }
    }

    /** The loop of `check_for_changes` over the output files. */
    method SweepOutputs(stateChanged: bool, outputs: seq<OutputRead>, env: OutputParser.Env) returns (hasChanges: bool, raised: bool)
      modifies this
      ensures Swept(State(), raised) == Sweep(old(State()), outputs, env)
      ensures !raised ==> (hasChanges <==> stateChanged || exists i :: 0 <= i < |outputs| && outputs[i].changed)
    {
      ghost var start := State();
      hasChanges := stateChanged;
      var k := 0;
      while k < |outputs|
        invariant 0 <= k <= |outputs|
        invariant Sweep(start, outputs[..k], env) == Swept(State(), false)
        invariant hasChanges <==> stateChanged || exists i :: 0 <= i < k && outputs[i].changed
      {
        SweepStep(start, outputs, k, env);
        if outputs[k].changed {
          hasChanges := true;
          raised := AbsorbOutput(outputs[k], env);
          if raised {
            SweepRaisedSticky(start, outputs, k + 1, env);
            return;
          }
        }
        k := k + 1;
      }
      TakeAll(outputs);
      raised := false;
    }
  }

  // ---------------------------------------------------------------------
  // Finding: the change check passes on old events again

  /**
   * As written, a change whose text yields no live entry (a blank line, say)
   * still passes on the last ten entries of the agent's feed, all of which
   * came from earlier text; the corrected check passes on nothing.
   */
  lemma ReemitsOnEventlessChange(existing: OutputParser.Parsed, content: string, env: OutputParser.Env, id: string)
    requires 0 < |existing.liveEvents| <= Config.MaxLiveEvents
    requires OutputParser.Entries(Split(content, "\n"), env) == []
    requires Reparse(Buffers(map[id := existing], [], []), id, content, env).Ok?
    ensures var parsed := Reparse(Buffers(map[id := existing], [], []), id, content, env).value;
            && EmittedAsWritten(parsed, id) == Tag(LastN(existing.liveEvents, EmitCount), id)
            && EmittedAsWritten(parsed, id) != []
    ensures Emitted(content, env, id) == []
  {
    var lines := Split(content, "\n");
    OutputParser.ParseLive(Some(existing), lines, env);
    assert existing.liveEvents + [] == existing.liveEvents;
  }

  /** A change that adds one blank line yields no live entry, and its parse goes through. */
  lemma BlankLineIsEventless(existing: OutputParser.Parsed, env: OutputParser.Env, id: string)
    ensures OutputParser.Entries(Split("\n", "\n"), env) == []
    ensures Reparse(Buffers(map[id := existing], [], []), id, "\n", env).Ok?
  {
    var lines := Split("\n", "\n");
    SplitNewline();
    BlankLineSkipped(env);
    assert lines[..1] == [""] && [""][..0] == [];
    var start := OutputParser.Start(Some(existing), lines);
    assert OutputParser.Lines(start, [], env) == Ok(start);
    assert OutputParser.Lines(start, [""], env) == Ok(start);
    assert OutputParser.Lines(start, lines, env) == Ok(start);
    assert OutputParser.Entries([""], env) == [];
  }

  /** A newline alone splits into two empty lines. */
  lemma SplitNewline()
    ensures Split("\n", "\n") == ["", ""]
  {
    assert IndexOf("\n", "\n") == Some(0);
    assert IndexOf("", "\n") == None;
    assert "\n"[1..] == "";
  }

  /** The parse loop skips an empty line, and it yields no live entry. */
  lemma BlankLineSkipped(env: OutputParser.Env)
    ensures forall a :: OutputParser.LineStep(a, "", env) == Ok(a)
    ensures OutputParser.LineEntries("", env) == []
  {
    assert Strip("") == "";
    assert OutputParser.ParseNdjsonLine("", env.decode) == None;
    forall a ensures OutputParser.LineStep(a, "", env) == Ok(a) {
    }
  }

  /**
   * The corrected check passes on the newest ten entries of the new text and
   * nothing older; as written, when the new text yields fewer than ten, the
   * remainder comes from the feed the agent had before.
   */
  lemma AsWrittenMixesOldEntries(existing: OutputParser.Parsed, content: string, env: OutputParser.Env, id: string)
    requires |existing.liveEvents| <= Config.MaxLiveEvents
    requires Reparse(Buffers(map[id := existing], [], []), id, content, env).Ok?
    ensures var parsed := Reparse(Buffers(map[id := existing], [], []), id, content, env).value;
            EmittedAsWritten(parsed, id)
              == Tag(LastN(existing.liveEvents + OutputParser.Entries(Split(content, "\n"), env), EmitCount), id)
    ensures Emitted(content, env, id) == Tag(LastN(OutputParser.Entries(Split(content, "\n"), env), EmitCount), id)
  {
    var lines := Split(content, "\n");
    OutputParser.ParseLive(Some(existing), lines, env);
    var all := existing.liveEvents + OutputParser.Entries(lines, env);
    var kept := LastN(all, Config.MaxLiveEvents);
    if |all| > EmitCount {
      LastNOfSuffix(kept, all, EmitCount);
    } else {
      assert kept == all;
    }
  }
}
