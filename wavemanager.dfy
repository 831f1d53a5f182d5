/**
 * `scripts/wave-manager.py`: wave bookkeeping for swarm workspaces.  Each
 * command reads `gas-state.json`, changes it and writes it back; the class
 * `SwarmFiles` holds that document and the generation-1 status documents the
 * commands create for agents.
 */
module WaveManagerScript {
  import opened Wrappers
  import opened Seqs
  import opened Records

  /** `agents.get(agent_id, {}).get("status")`. */
  function AgentStatus(agents: map<string, AgentRecord>, id: string): Option<string>
  {
    if id in agents then agents[id].status else None
  }

  function CompletedIn(agents: map<string, AgentRecord>): string -> bool
  {
    id => IsDone(AgentStatus(agents, id))
  }

  function RunningIn(agents: map<string, AgentRecord>): string -> bool
  {
    id => !IsDone(AgentStatus(agents, id)) && AgentStatus(agents, id) == Some("running")
  }

  function PendingIn(agents: map<string, AgentRecord>): string -> bool
  {
    id => !IsDone(AgentStatus(agents, id)) && AgentStatus(agents, id) != Some("running")
  }

  /** Every agent of a wave is counted exactly once: completed + running + pending = total. */
  lemma {:induction false} WaveCountsPartition(ids: seq<string>, agents: map<string, AgentRecord>)
    ensures CountIf(ids, CompletedIn(agents)) + CountIf(ids, RunningIn(agents)) + CountIf(ids, PendingIn(agents)) == |ids|
  {
    if ids != [] {
      WaveCountsPartition(ids[1..], agents);
    }
  }

  /** One agent line of a wave's report. */
  datatype AgentLine = AgentLine(agentId: string, role: string, status: string, generation: int)

  function LineOf(agents: map<string, AgentRecord>, id: string): AgentLine
  {
    if id in agents
    then AgentLine(id, agents[id].role.GetOr("unknown"), agents[id].status.GetOr("unknown"), agents[id].currentGeneration)
    else AgentLine(id, "unknown", "unknown", 0)
  }

  function AgentLines(agents: map<string, AgentRecord>, ids: seq<string>): (r: seq<AgentLine>)
    ensures |r| == |ids|
  {
    if ids == [] then [] else AgentLines(agents, ids[..|ids| - 1]) + [LineOf(agents, ids[|ids| - 1])]
  }

  datatype WaveSummary = WaveSummary(
    status: string,
    startedAt: Option<Stamp>,
    agents: seq<AgentLine>,
    completed: nat,
    running: nat,
    pending: nat,
    total: nat,
    isComplete: bool)

  datatype WaveReport = WaveReport(currentWave: int, totalWaves: int, waves: map<int, WaveSummary>)

  /** The counting loop of `get_wave_status` for one wave. */
  method SummarizeWave(w: WaveRecord, agents: map<string, AgentRecord>) returns (s: WaveSummary)
    ensures s.status == w.status.GetOr("pending") && s.startedAt == w.startedAt
    ensures s.agents == AgentLines(agents, w.agents)
    ensures s.completed == CountIf(w.agents, CompletedIn(agents))
    ensures s.running == CountIf(w.agents, RunningIn(agents))
    ensures s.pending == CountIf(w.agents, PendingIn(agents))
    ensures s.total == |w.agents|
    ensures s.isComplete <==> s.completed == s.total && s.total > 0
  {
    var ids := w.agents;
    var lines: seq<AgentLine> := [];
    var completed, running, pending := 0, 0, 0;
    var i := 0;
    while i < |ids|
      invariant 0 <= i <= |ids|
      invariant lines == AgentLines(agents, ids[..i])
      invariant completed == CountIf(ids[..i], CompletedIn(agents))
      invariant running == CountIf(ids[..i], RunningIn(agents))
      invariant pending == CountIf(ids[..i], PendingIn(agents))
    {
      var id := ids[i];
      TakeSnoc(ids, i);
      CountIfAppend(ids[..i], id, CompletedIn(agents));
      CountIfAppend(ids[..i], id, RunningIn(agents));
      CountIfAppend(ids[..i], id, PendingIn(agents));
      lines := lines + [LineOf(agents, id)];
      var status := AgentStatus(agents, id);
      assert CompletedIn(agents)(id) == IsDone(status);
      assert RunningIn(agents)(id) == (!IsDone(status) && status == Some("running"));
      assert PendingIn(agents)(id) == (!IsDone(status) && status != Some("running"));
      if IsDone(status) {
        completed := completed + 1;
      } else if status == Some("running") {
        running := running + 1;
      } else {
        pending := pending + 1;
      }
      i := i + 1;
    }
    TakeAll(ids);
    s := WaveSummary(w.status.GetOr("pending"), w.startedAt, lines, completed, running, pending,
                     |ids|, completed == |ids| && |ids| > 0);
  }

  /**
   * What `get_wave_status` reports for a wave: its status (default
   * "pending") and start time, one line per listed agent in order, its size,
   * its counts (which partition it) and whether it is complete.
   */
  predicate SummaryOk(w: WaveRecord, agents: map<string, AgentRecord>, s: WaveSummary)
  {
    && s.status == w.status.GetOr("pending")
    && s.startedAt == w.startedAt
    && s.agents == AgentLines(agents, w.agents)
    && s.total == |w.agents|
    && s.completed == CountIf(w.agents, CompletedIn(agents))
    && s.running == CountIf(w.agents, RunningIn(agents))
    && s.pending == CountIf(w.agents, PendingIn(agents))
    && s.completed + s.running + s.pending == s.total
    && (s.isComplete <==> s.completed == s.total && s.total > 0)
  }

  /** `get_wave_status`: a summary for every wave of a swarm workspace. */
  method GetWaveStatus(state: Option<ProjectState>) returns (r: Result<WaveReport, string>)
    ensures !StateRead(state) ==> r == Err("Cannot read state")
    ensures StateRead(state) && state.value.mode != Some("swarm") ==> r == Err("Not a swarm-mode workspace")
    ensures StateRead(state) && state.value.mode == Some("swarm") ==>
              && r.Ok?
              && r.value.currentWave == state.value.currentWave.GetOr(1)
              && r.value.totalWaves == state.value.totalWaves.GetOr(1)
              && r.value.waves.Keys == state.value.waves.Keys
              && forall n :: n in r.value.waves ==> SummaryOk(state.value.waves[n], state.value.agents, r.value.waves[n])
  {
    if !StateRead(state) {
      return Err("Cannot read state");
    }
    var st := state.value;
    if st.mode != Some("swarm") {
      return Err("Not a swarm-mode workspace");
    }
    var summaries: map<int, WaveSummary> := map[];
    var todo := st.waves.Keys;
    while todo != {}
      invariant todo <= st.waves.Keys
      invariant summaries.Keys == st.waves.Keys - todo
      invariant forall n :: n in summaries ==> SummaryOk(st.waves[n], st.agents, summaries[n])
      decreases |todo|
    {
      ghost var some := NonEmptyHasMember(todo);
      var n :| n in todo;
      var s := SummarizeWave(st.waves[n], st.agents);
      WaveCountsPartition(st.waves[n].agents, st.agents);
      assert SummaryOk(st.waves[n], st.agents, s);
      summaries := summaries[n := s];
      todo := todo - {n};
    }
    r := Ok(WaveReport(st.currentWave.GetOr(1), st.totalWaves.GetOr(1), summaries));
  }

  /** The verdict of `can_advance_wave` (the reason text it prints is left out). */
  datatype AdvanceCheck = CannotRead | AtFinalWave(current: int, total: int) | Incomplete(current: int, agents: seq<string>) | Ready(current: int)

  function WaveAgents(st: ProjectState, n: int): seq<string>
  {
    if n in st.waves then st.waves[n].agents else []
  }

  function IncompleteIn(agents: map<string, AgentRecord>): string -> bool
  {
    id => !IsDone(AgentStatus(agents, id))
  }

  /** `can_advance_wave`. */
  function CanAdvanceWave(state: Option<ProjectState>): (r: AdvanceCheck)
  {
    if !StateRead(state) then CannotRead
    else
      var st := state.value;
      var current := st.currentWave.GetOr(1);
      var total := st.totalWaves.GetOr(1);
      if current >= total then AtFinalWave(current, total)
      else
        var incomplete := Filter(WaveAgents(st, current), IncompleteIn(st.agents));
        if incomplete != [] then Incomplete(current, incomplete) else Ready(current)
  }

  /**
   * A wave may be left exactly when it is not the last one and every one of
   * its agents is completed or succeeded (so an empty wave may be left).
   */
  lemma CanAdvanceWaveExactly(state: Option<ProjectState>)
    ensures CanAdvanceWave(state).Ready? <==>
              && StateRead(state)
              && state.value.currentWave.GetOr(1) < state.value.totalWaves.GetOr(1)
              && forall id :: id in WaveAgents(state.value, state.value.currentWave.GetOr(1)) ==>
                   IsDone(AgentStatus(state.value.agents, id))
    ensures CanAdvanceWave(state).Incomplete? ==>
              forall id :: id in CanAdvanceWave(state).agents <==>
                id in WaveAgents(state.value, state.value.currentWave.GetOr(1)) && !IsDone(AgentStatus(state.value.agents, id))
  {
    if StateRead(state) {
      var st := state.value;
      var ids := WaveAgents(st, st.currentWave.GetOr(1));
      var incomplete := Filter(ids, IncompleteIn(st.agents));
      forall id ensures id in incomplete <==> id in ids && !IsDone(AgentStatus(st.agents, id)) {
        FilterMembers(ids, IncompleteIn(st.agents), id);
      }
      if incomplete != [] {
        assert incomplete[0] in incomplete;
      }
    }
  }

  /** The new wave starts running and the old one is marked completed, each only if it is listed. */
  function AdvancedState(st: ProjectState, current: int, now: int): ProjectState
  {
    var started := Parsed(now, true);
    var w1 := if current + 1 in st.waves
              then st.waves[current + 1 := st.waves[current + 1].(status := Some("running"), startedAt := Some(started))]
              else st.waves;
    var w2 := if current in w1 then w1[current := w1[current].(status := Some("completed"), completedAt := Some(started))] else w1;
    st.(currentWave := Some(current + 1), waves := w2)
  }

  /** The state after `spawn_wave_agents` treats one listed agent. */
  function SpawnOne(agents: map<string, AgentRecord>, id: string): map<string, AgentRecord>
  {
    if id in agents && agents[id].currentGeneration == 0
    then agents[id := agents[id].(status := Some("running"), currentGeneration := 1)]
    else agents
  }

  /** Whether `spawn_wave_agents` writes a generation-1 status for the agent: unknown ids count as generation 0. */
  predicate SpawnsFor(agents: map<string, AgentRecord>, id: string)
  {
    !(id in agents) || agents[id].currentGeneration == 0
  }

  /** The agents and the spawned ids after treating each listed agent in turn. */
  function SpawnAll(agents: map<string, AgentRecord>, ids: seq<string>): (map<string, AgentRecord>, seq<string>)
  {
    if ids == [] then (agents, [])
    else
      var rest := SpawnAll(SpawnOne(agents, ids[0]), ids[1..]);
      (rest.0, (if SpawnsFor(agents, ids[0]) then [ids[0]] else []) + rest.1)
  }

  /**
   * Spawning a wave changes only its listed agents that were at generation 0,
   * each to generation 1 and `running`; every other agent stays as it was,
   * and no agent is added.
   */
  lemma {:induction false} SpawnAllChangesOnlyFreshAgents(agents: map<string, AgentRecord>, ids: seq<string>)
    ensures SpawnAll(agents, ids).0.Keys == agents.Keys
    ensures forall id :: id in agents ==>
              SpawnAll(agents, ids).0[id] ==
                (if id in ids && agents[id].currentGeneration == 0
                 then agents[id].(status := Some("running"), currentGeneration := 1)
                 else agents[id])
  {
    if ids != [] {
      var next := SpawnOne(agents, ids[0]);
      SpawnAllChangesOnlyFreshAgents(next, ids[1..]);
      forall id | id in agents
        ensures SpawnAll(agents, ids).0[id] ==
                (if id in ids && agents[id].currentGeneration == 0
                 then agents[id].(status := Some("running"), currentGeneration := 1)
                 else agents[id])
      {
        assert id in ids <==> id == ids[0] || id in ids[1..] by {
          assert ids == [ids[0]] + ids[1..];
        }
      }
    }
  }

  /** The loop of `spawn_wave_agents` over the wave's agent list. */
  method SpawnLoop(agents: map<string, AgentRecord>, ids: seq<string>) returns (after: map<string, AgentRecord>, spawned: seq<string>)
    ensures (after, spawned) == SpawnAll(agents, ids)
  {
    after := agents;
    spawned := [];
    var i := 0;
    while i < |ids|
      invariant 0 <= i <= |ids|
      invariant SpawnAll(after, ids[i..]).0 == SpawnAll(agents, ids).0
      invariant spawned + SpawnAll(after, ids[i..]).1 == SpawnAll(agents, ids).1
    {
      var id := ids[i];
      assert ids[i..][1..] == ids[i + 1..];
      if SpawnsFor(after, id) {
        spawned := spawned + [id];
      }
      after := SpawnOne(after, id);
      i := i + 1;
    }
    assert ids[i..] == [];
    assert SpawnAll(after, ids[i..]) == (after, []);
    assert spawned + [] == spawned;
  }

  /** The status document `spawn_wave_agents` writes for a new generation 1. */
  function WaveSpawnStatus(id: string, now: int): GenStatus
  {
    EmptyStatus.(generation := Some(1), agentId := Some(id), status := Some("running"),
                 startedAt := Some(Parsed(now, true)), interactions := Some(0), progress := Some(0.0),
                 confidence := Some(1.0), errors := Some(0))
  }

  /**
   * One dependency entry of `get_agent_dependencies`; `outputs` is present
   * when the output is available and the dependency's output folder exists.
   */
  datatype Dependency = Dependency(agentId: string, role: string, status: string, outputAvailable: bool,
                                   outputs: Option<seq<string>>)

  /**
   * `outputFiles(id, g)` is the names of the files in
   * `agents/<id>/generations/gen-<g>/output`, or None when that folder does
   * not exist (a parameter standing for the file system).
   */
  function DependencyOf(agents: map<string, AgentRecord>, id: string,
                        outputFiles: (string, int) -> Option<seq<string>>): Dependency
  {
    var line := LineOf(agents, id);
    var available := IsDone(AgentStatus(agents, id));
    Dependency(id, line.role, line.status, available,
               if available then outputFiles(id, agents[id].currentGeneration) else None)
  }

  /** `get_agent_dependencies`: one entry per dependency of the agent, in order. */
  method GetAgentDependencies(state: Option<ProjectState>, agentId: string,
                              outputFiles: (string, int) -> Option<seq<string>>)
    returns (r: Result<seq<Dependency>, string>)
    ensures !StateRead(state) <==> r.Err?
    ensures r.Ok? ==>
              var deps := if agentId in state.value.dependencies then state.value.dependencies[agentId] else [];
              && |r.value| == |deps|
              && forall i :: 0 <= i < |deps| ==>
                   && r.value[i].agentId == deps[i]
                   && (r.value[i].outputAvailable <==> IsDone(AgentStatus(state.value.agents, deps[i])))
                   && (r.value[i].outputs.Some? <==>
                         r.value[i].outputAvailable
                         && outputFiles(deps[i], state.value.agents[deps[i]].currentGeneration).Some?)
                   && (r.value[i].outputs.Some? ==>
                         r.value[i].outputs == outputFiles(deps[i], state.value.agents[deps[i]].currentGeneration))
                   && r.value[i] == DependencyOf(state.value.agents, deps[i], outputFiles)
  {
    if !StateRead(state) {
      return Err("Cannot read state");
    }
    var st := state.value;
    var deps := if agentId in st.dependencies then st.dependencies[agentId] else [];
    var out: seq<Dependency> := [];
    var i := 0;
    while i < |deps|
      invariant 0 <= i <= |deps|
      invariant |out| == i && forall j :: 0 <= j < i ==> out[j] == DependencyOf(st.agents, deps[j], outputFiles)
    {
      out := out + [DependencyOf(st.agents, deps[i], outputFiles)];
      i := i + 1;
    }
    r := Ok(out);
  }

  class SwarmFiles {
    var state: Option<ProjectState>
    /** `agents/<id>/generations/gen-1/status.json` for each agent spawned here. */
    var firstStatuses: map<string, GenStatus>

    constructor (state: Option<ProjectState>)
      ensures this.state == state && firstStatuses == map[]
    {
      this.state := state;
      firstStatuses := map[];
    }

    /**
     * `advance_wave`: when `can_advance_wave` allows it, moves to the next
     * wave, starts it and completes the old one; otherwise changes nothing.
     */
    method AdvanceWave(now: int) returns (advanced: bool)
      modifies this
      ensures firstStatuses == old(firstStatuses)
      ensures advanced <==> old(CanAdvanceWave(state)).Ready?
      ensures !advanced ==> state == old(state)
      ensures advanced ==> state == Some(AdvancedState(old(state).value, old(state).value.currentWave.GetOr(1), now))
    {
      var check := CanAdvanceWave(state);
      if !check.Ready? {
        return false;
      }
      var st := state.value;
      var current := st.currentWave.GetOr(1);
      st := st.(currentWave := Some(current + 1));
      var waves := st.waves;
      if current + 1 in waves {
        waves := waves[current + 1 := waves[current + 1].(status := Some("running"), startedAt := Some(Parsed(now, true)))];
      }
      if current in waves {
        waves := waves[current := waves[current].(status := Some("completed"), completedAt := Some(Parsed(now, true)))];
      }
      state := Some(st.(waves := waves));
      advanced := true;
    }

    /**
     * `spawn_wave_agents`: for each listed agent still at generation 0 (or
     * unknown to the state), writes a generation-1 status; known agents become
     * `running` at generation 1.
     */
    method SpawnWaveAgents(wave: int, now: int) returns (spawned: seq<string>)
      modifies this
      ensures !StateRead(old(state)) ==> state == old(state) && firstStatuses == old(firstStatuses) && spawned == []
      ensures StateRead(old(state)) ==>
                var result := SpawnAll(old(state).value.agents, WaveAgents(old(state).value, wave));
                && spawned == result.1
                && state == Some(old(state).value.(agents := result.0))
                && firstStatuses == old(firstStatuses) + map id | id in spawned :: WaveSpawnStatus(id, now)
    {
      if !StateRead(state) {
        return [];
      }
      var st := state.value;
      var agents;
      agents, spawned := SpawnLoop(st.agents, WaveAgents(st, wave));
      firstStatuses := firstStatuses + map id | id in spawned :: WaveSpawnStatus(id, now);
      state := Some(st.(agents := agents));
    }
  }

  /** Advancing moves the current wave by exactly one, leaves every agent as it was, and only happens from a completed, non-final wave. */
  lemma AdvanceMovesOneWave(st: ProjectState, now: int)
    requires CanAdvanceWave(Some(st)).Ready?
    ensures var current := st.currentWave.GetOr(1);
            var after := AdvancedState(st, current, now);
            && after.currentWave == Some(current + 1)
            && after.agents == st.agents
            && after.waves.Keys == st.waves.Keys
            && current < st.totalWaves.GetOr(1)
            && (forall id :: id in WaveAgents(st, current) ==> IsDone(AgentStatus(st.agents, id)))
            && (current in st.waves ==> after.waves[current].status == Some("completed"))
            && (current + 1 in st.waves ==> after.waves[current + 1].status == Some("running"))
  {
    CanAdvanceWaveExactly(Some(st));
  }
}
