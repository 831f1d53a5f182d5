/**
 * `scripts/swarm-orchestrator.py`: splits a task over a fixed table of roles
 * arranged in waves, derives each agent's dependencies on the previous wave,
 * and runs the waves through the class `WaveManager`, which holds the state
 * document in memory and updates it in place.
 */
module SwarmOrchestrator {
  import opened Wrappers
  import opened Seqs
  import opened Text
  import opened Records
  import Counter
  import WaveManagerScript

  /** One row of the role table: a role, the wave it runs in and its focus. */
  datatype RoleSpec = RoleSpec(role: string, wave: int, focus: string)

  /** The heuristic decomposition every swarm starts from. */
  const CommonRoles: seq<RoleSpec> := [
    RoleSpec("core-architect", 1, "Project structure, core abstractions, interfaces"),
    RoleSpec("database-engineer", 2, "Schema, migrations, data access layer"),
    RoleSpec("backend-api", 2, "API endpoints, business logic, validation"),
    RoleSpec("auth-engineer", 2, "Authentication, authorization, security"),
    RoleSpec("frontend-ui", 3, "User interface, components, state management"),
    RoleSpec("integration-lead", 4, "Integration, testing, deployment")
  ]

  /** An agent as `decompose_task` assigns it. */
  datatype Assignment = Assignment(agentId: string, role: string, wave: int, focus: string)

  /** `f"agent-{i+1}"`. */
  function AgentId(i: nat): string
  {
    "agent-" + NatToString(i + 1)
  }

  lemma AgentIdInjective(i: nat, j: nat)
    ensures AgentId(i) == AgentId(j) ==> i == j
  {
    if AgentId(i) == AgentId(j) {
      assert NatToString(i + 1) == AgentId(i)[6..];
      assert NatToString(j + 1) == AgentId(j)[6..];
      NatToStringInjective(i + 1, j + 1);
    }
  }

  /** The agent that takes row i of the role table. */
  function AssignmentAt(i: nat): Assignment
    requires i < |CommonRoles|
  {
    Assignment(AgentId(i), CommonRoles[i].role, CommonRoles[i].wave, CommonRoles[i].focus)
  }

  /** The agents for `common_roles[:num_agents]`, which Python also accepts for a negative count. */
  function Assignments(numAgents: int): seq<Assignment>
  {
    var n := |PyUpTo(CommonRoles, numAgents)|;
    seq(n, i requires 0 <= i < n => AssignmentAt(i))
  }

  /** The ids of the agents in wave w, in order. */
  function IdsInWave(agents: seq<Assignment>, w: int): seq<string>
  {
    if agents == [] then []
    else IdsInWave(agents[..|agents| - 1], w)
         + (if agents[|agents| - 1].wave == w then [agents[|agents| - 1].agentId] else [])
  }

  /** An id is listed in wave w exactly when an agent with that id is in wave w. */
  lemma {:induction false} IdsInWaveMembers(agents: seq<Assignment>, w: int, id: string)
    ensures id in IdsInWave(agents, w) <==> exists j :: 0 <= j < |agents| && agents[j].agentId == id && agents[j].wave == w
  {
    if agents != [] {
      var front := agents[..|agents| - 1];
      IdsInWaveMembers(front, w, id);
      if exists j :: 0 <= j < |front| && front[j].agentId == id && front[j].wave == w {
        var j :| 0 <= j < |front| && front[j].agentId == id && front[j].wave == w;
        assert agents[j] == front[j];
      }
      if exists j :: 0 <= j < |agents| && agents[j].agentId == id && agents[j].wave == w {
        var j :| 0 <= j < |agents| && agents[j].agentId == id && agents[j].wave == w;
        if j < |front| {
          assert front[j] == agents[j];
        }
      }
    }
  }

  /** The waves used by some agent of the list. */
  function WaveNumbers(agents: seq<Assignment>): set<int>
  {
    if agents == [] then {} else WaveNumbers(agents[..|agents| - 1]) + {agents[|agents| - 1].wave}
  }

  /** The dependency list of an agent in wave w: every agent of wave w - 1, none in wave 1 or below. */
  function DependsOn(agents: seq<Assignment>, w: int): seq<string>
  {
    if w > 1 then IdsInWave(agents, w - 1) else []
  }

  /** No later agent of the list carries the id of agent j (Python's dict keeps the last value for a key). */
  predicate LastWithId(agents: seq<Assignment>, j: int)
    requires 0 <= j < |agents|
  {
    forall k :: j < k < |agents| ==> agents[k].agentId != agents[j].agentId
  }

  /** A list with no agent absent from wave w lists nobody in that wave. */
  lemma {:induction false} IdsInWaveEmpty(agents: seq<Assignment>, w: int)
    requires w !in WaveNumbers(agents)
    ensures IdsInWave(agents, w) == []
  {
    if agents != [] {
      IdsInWaveEmpty(agents[..|agents| - 1], w);
    }
  }

  /** The first loop of `generate_dependencies`: the agents of each wave, in order. */
  method GroupByWave(agents: seq<Assignment>) returns (waves: map<int, seq<string>>)
    ensures forall w :: (if w in waves then waves[w] else []) == IdsInWave(agents, w)
  {
    waves := map[];
    var i := 0;
    while i < |agents|
      invariant 0 <= i <= |agents|
      invariant forall w :: IdsInWave(agents[..i], w) == (if w in waves then waves[w] else [])
    {
      TakeSnoc(agents, i);
      var w := agents[i].wave;
      var listed := if w in waves then waves[w] else [];
      waves := waves[w := listed + [agents[i].agentId]];
      i := i + 1;
    }
    TakeAll(agents);
  }

  /** The dependency list of wave w, read from the grouped waves. */
  lemma WavesListed(agents: seq<Assignment>, waves: map<int, seq<string>>, w: int)
    requires forall v :: (if v in waves then waves[v] else []) == IdsInWave(agents, v)
    ensures DependsOn(agents, w) == if w > 1 then (if w - 1 in waves then waves[w - 1] else []) else []
  {
    if w > 1 {
      assert (if w - 1 in waves then waves[w - 1] else []) == IdsInWave(agents, w - 1);
    }
  }

  /** The dependency dict once its first n agents have been entered; a later agent with the same id overwrites. */
  function DepsAfter(agents: seq<Assignment>, n: nat): map<string, seq<string>>
    requires n <= |agents|
  {
    if n == 0 then map[]
    else DepsAfter(agents, n - 1)[agents[n - 1].agentId := DependsOn(agents, agents[n - 1].wave)]
  }

  /** One more agent entered, with the list the loop reads from the grouped waves. */
  lemma DepsAfterStep(agents: seq<Assignment>, waves: map<int, seq<string>>, i: nat)
    requires i < |agents|
    requires forall v :: (if v in waves then waves[v] else []) == IdsInWave(agents, v)
    ensures var w := agents[i].wave;
            DepsAfter(agents, i + 1)
            == DepsAfter(agents, i)[agents[i].agentId := if w > 1 then (if w - 1 in waves then waves[w - 1] else []) else []]
  {
    var w := agents[i].wave;
    WavesListed(agents, waves, w);
    assert DepsAfter(agents, i + 1) == DepsAfter(agents, i)[agents[i].agentId := DependsOn(agents, w)];
  }

  lemma {:induction false} DepsAfterKeys(agents: seq<Assignment>, n: nat, id: string)
    requires n <= |agents|
    ensures id in DepsAfter(agents, n) <==> exists j :: 0 <= j < n && agents[j].agentId == id
  {
    if n > 0 {
      DepsAfterKeys(agents, n - 1, id);
    }
  }

  lemma {:induction false} DepsAfterEntry(agents: seq<Assignment>, n: nat, j: nat)
    requires j < n <= |agents|
    requires forall k :: j < k < n ==> agents[k].agentId != agents[j].agentId
    ensures agents[j].agentId in DepsAfter(agents, n)
    ensures DepsAfter(agents, n)[agents[j].agentId] == DependsOn(agents, agents[j].wave)
  {
    if j < n - 1 {
      DepsAfterEntry(agents, n - 1, j);
    }
  }

  /**
   * `generate_dependencies`: the agents of each wave, then for each agent the
   * agents of the wave before its own (none for wave 1).
   */
  method GenerateDependencies(agents: seq<Assignment>) returns (deps: map<string, seq<string>>)
    ensures deps == DepsAfter(agents, |agents|)
  {
    var waves := GroupByWave(agents);
    deps := map[];
    var i := 0;
    while i < |agents|
      invariant 0 <= i <= |agents|
      invariant deps == DepsAfter(agents, i)
    {
      var w := agents[i].wave;
      var d: seq<string> := [];
      if w > 1 {
        d := if w - 1 in waves then waves[w - 1] else [];
      }
      DepsAfterStep(agents, waves, i);
      deps := deps[agents[i].agentId := d];
      i := i + 1;
    }
  }

  /**
   * Every agent of the list has an entry, and nothing else does; an agent
   * whose id no later agent repeats depends on the agents of the wave
   * before its own.
   */
  lemma DepsAfterShape(agents: seq<Assignment>)
    ensures forall id :: id in DepsAfter(agents, |agents|) <==> exists j :: 0 <= j < |agents| && agents[j].agentId == id
    ensures forall j :: 0 <= j < |agents| && LastWithId(agents, j) ==>
              agents[j].agentId in DepsAfter(agents, |agents|)
              && DepsAfter(agents, |agents|)[agents[j].agentId] == DependsOn(agents, agents[j].wave)
  {
    forall id ensures id in DepsAfter(agents, |agents|) <==> exists j :: 0 <= j < |agents| && agents[j].agentId == id {
      DepsAfterKeys(agents, |agents|, id);
    }
    forall j | 0 <= j < |agents| && LastWithId(agents, j)
      ensures agents[j].agentId in DepsAfter(agents, |agents|)
              && DepsAfter(agents, |agents|)[agents[j].agentId] == DependsOn(agents, agents[j].wave)
    {
      DepsAfterEntry(agents, |agents|, j);
    }
  }

  /** What `decompose_task` returns; `order` is the key order of its `agents` dict. */
  datatype Decomposition = Decomposition(
    taskObjective: string,
    decomposedAt: Stamp,
    totalAgents: int,
    totalWaves: int,
    order: seq<string>,
    agents: map<string, AgentRecord>,
    waves: map<int, WaveRecord>,
    dependencies: map<string, seq<string>>)

  /** The state record of a freshly assigned agent: pending, at generation 0. */
  function RecordOf(a: Assignment): AgentRecord
  {
    AgentRecord(a.agentId, Some(a.role), Some(a.focus), Some(a.wave), Some("pending"), 0, 0, None)
  }

  /** A wave record as `decompose_task` creates it: pending, not started, listing the wave's agents. */
  function PendingWave(agents: seq<Assignment>, w: int): WaveRecord
  {
    WaveRecord(IdsInWave(agents, w), Some("pending"), None, None)
  }

  /** The first loop of `decompose_task`: one agent per row of `common_roles[:num_agents]`. */
  method AssignRoles(numAgents: int) returns (team: seq<Assignment>)
    ensures team == Assignments(numAgents)
    ensures forall j, k :: 0 <= j < k < |team| ==> team[j].agentId != team[k].agentId
  {
    var n := |PyUpTo(CommonRoles, numAgents)|;
    ghost var all := Assignments(numAgents);
    team := [];
    var i := 0;
    while i < n
      invariant 0 <= i <= n
      invariant team == all[..i]
    {
      team := team + [AssignmentAt(i)];
      i := i + 1;
    }
    assert team == all;
    forall j, k | 0 <= j < k < |team| ensures team[j].agentId != team[k].agentId {
      AgentIdInjective(j, k);
    }
  }

  /** The second loop of `decompose_task`: a pending wave record per wave in use, listing its agents. */
  method OrganizeWaves(team: seq<Assignment>) returns (waves: map<int, WaveRecord>)
    ensures waves.Keys == WaveNumbers(team)
    ensures forall w :: w in waves ==> waves[w] == PendingWave(team, w)
  {
    waves := map[];
    var i := 0;
    while i < |team|
      invariant 0 <= i <= |team|
      invariant waves.Keys == WaveNumbers(team[..i])
      invariant forall w :: w in waves ==> waves[w] == PendingWave(team[..i], w)
    {
      TakeSnoc(team, i);
      var w := team[i].wave;
      if w !in waves {
        IdsInWaveEmpty(team[..i], w);
        waves := waves[w := WaveRecord([], Some("pending"), None, None)];
      }
      waves := waves[w := waves[w].(agents := waves[w].agents + [team[i].agentId])];
      i := i + 1;
    }
    TakeAll(team);
  }

  /** `{a["agent_id"]: a for a in assigned}` for agents with distinct ids, and the dict's key order. */
  method IndexAgents(team: seq<Assignment>) returns (agents: map<string, AgentRecord>, order: seq<string>)
    requires forall j, k :: 0 <= j < k < |team| ==> team[j].agentId != team[k].agentId
    ensures |order| == |team| && forall j :: 0 <= j < |team| ==> order[j] == team[j].agentId
    ensures forall id :: id in agents <==> id in order
    ensures forall j :: 0 <= j < |team| ==> agents[team[j].agentId] == RecordOf(team[j])
  {
    agents := map[];
    order := [];
    var i := 0;
    while i < |team|
      invariant 0 <= i <= |team|
      invariant |order| == i && forall j :: 0 <= j < i ==> order[j] == team[j].agentId
      invariant forall id :: id in agents <==> id in order
      invariant forall j :: 0 <= j < i ==> agents[team[j].agentId] == RecordOf(team[j])
    {
      agents := agents[team[i].agentId := RecordOf(team[i])];
      order := order + [team[i].agentId];
      i := i + 1;
    }
  }

  /**
   * `decompose_task`: assigns one agent per row of the role table up to the
   * requested count, groups them by wave and computes their dependencies.
   */
  method DecomposeTask(taskObjective: string, numAgents: int, now: int) returns (d: Decomposition)
    ensures var team := Assignments(numAgents);
            && d.taskObjective == taskObjective
            && d.decomposedAt == Parsed(now, true)
            && d.totalAgents == |team| == |d.order|
            && (forall i :: 0 <= i < |team| ==> d.order[i] == team[i].agentId)
            && (forall id :: id in d.agents <==> id in d.order)
            && (forall i :: 0 <= i < |team| ==> d.agents[team[i].agentId] == RecordOf(team[i]))
            && d.waves.Keys == WaveNumbers(team)
            && (forall w :: w in d.waves ==> d.waves[w] == PendingWave(team, w))
            && d.totalWaves == |d.waves.Keys|
            && (forall i :: 0 <= i < |team| ==>
                  team[i].agentId in d.dependencies && d.dependencies[team[i].agentId] == DependsOn(team, team[i].wave))
  {
    var team := AssignRoles(numAgents);
    var waves := OrganizeWaves(team);
    var agents, order := IndexAgents(team);
    var deps := GenerateDependencies(team);
    DepsAfterShape(team);
    d := Decomposition(taskObjective, Parsed(now, true), |team|, |waves.Keys|, order, agents, waves, deps);
  }

  /**
   * The shape of a decomposition: at most six agents (exactly the requested
   * count when it is between 0 and 6), every agent listed in its own wave
   * and in no other, wave-1 agents with no dependencies and any later agent
   * depending on exactly the agents of the wave before.
   */
  lemma DecompositionShape(numAgents: int, i: nat, w: int)
    requires i < |Assignments(numAgents)|
    ensures |Assignments(numAgents)| <= 6
    ensures 0 <= numAgents <= 6 ==> |Assignments(numAgents)| == numAgents
    ensures var team := Assignments(numAgents);
            && (team[i].agentId in PendingWave(team, w).agents <==> team[i].wave == w)
            && (team[i].wave <= 1 ==> DependsOn(team, team[i].wave) == [])
            && (team[i].wave > 1 ==>
                  forall id :: id in DependsOn(team, team[i].wave) <==>
                    exists j :: 0 <= j < |team| && team[j].agentId == id && team[j].wave == team[i].wave - 1)
  {
    var team := Assignments(numAgents);
    IdsInWaveMembers(team, w, team[i].agentId);
    forall j | 0 <= j < |team| && team[j].agentId == team[i].agentId ensures j == i {
      AgentIdInjective(i, j);
    }
    if team[i].wave > 1 {
      var prev := team[i].wave - 1;
      forall id ensures id in IdsInWave(team, prev) <==>
                          exists j :: 0 <= j < |team| && team[j].agentId == id && team[j].wave == prev {
        IdsInWaveMembers(team, prev, id);
      }
    }
  }

  /** With the whole role table in use, the swarm has four waves. */
  lemma FullTeamHasFourWaves(numAgents: int)
    requires numAgents >= 6
    ensures WaveNumbers(Assignments(numAgents)) == {1, 2, 3, 4}
  {
    var team := Assignments(numAgents);
    assert |team| == 6;
    assert team[..0] == [];
    assert team[..1][..0] == team[..0] && team[..1][0] == team[0] && team[0].wave == 1;
    assert team[..2][..1] == team[..1] && team[..2][1] == team[1] && team[1].wave == 2;
    assert team[..3][..2] == team[..2] && team[..3][2] == team[2] && team[2].wave == 2;
    assert team[..4][..3] == team[..3] && team[..4][3] == team[3] && team[3].wave == 2;
    assert team[..5][..4] == team[..4] && team[..5][4] == team[4] && team[4].wave == 3;
    assert team[..6][..5] == team[..5] && team[5].wave == 4 && team[..6] == team;
    assert WaveNumbers(team[..1]) == {1};
    assert WaveNumbers(team[..2]) == {1, 2};
    assert WaveNumbers(team[..4]) == {1, 2};
    assert WaveNumbers(team[..5]) == {1, 2, 3};
  }

  /** `agents/<id>/config.json`, read for the role and focus of a generation. */
  datatype AgentConfig = AgentConfig(role: Option<string>, focus: Option<string>)

  /** The `status.json` that `spawn_agent_generation` writes for an agent's generation. */
  datatype AgentGeneration = AgentGeneration(
    generation: int,
    agentId: string,
    role: string,
    focus: string,
    status: string,
    startedAt: Stamp,
    interactions: int,
    progress: real,
    confidence: real,
    errors: int,
    learnings: seq<Entry>)

  /** Python's truth value of an optional count: present and not 0. */
  predicate Truthy(g: Option<int>)
  {
    g.Some? && g.value != 0
  }

  /** An agent's status for `get_status_summary`, "unknown" when it has none. */
  function StatusName(r: AgentRecord): string
  {
    r.status.GetOr("unknown")
  }

  /** The agents whose status name is s, among those in `ids`. */
  function WithStatus(agents: map<string, AgentRecord>, ids: set<string>, s: string): set<string>
  {
    set id | id in ids && id in agents && StatusName(agents[id]) == s
  }

  datatype StatusSummary = StatusSummary(
    currentWave: int,
    totalWaves: int,
    totalAgents: int,
    byStatus: Counter.Counts<string>,
    isComplete: bool)

  class WaveManager {
    var state: ProjectState
    /** Each agent's `config.json`. */
    var configs: map<string, AgentConfig>
    /** The generation status documents written so far, by agent and generation. */
    var generations: map<(string, int), AgentGeneration>

    constructor (state: ProjectState, configs: map<string, AgentConfig>)
      ensures this.state == state && this.configs == configs && generations == map[]
    {
      this.state := state;
      this.configs := configs;
      generations := map[];
    }

    function CurrentWave(): int
      reads this
    {
      state.currentWave.GetOr(1)
    }

    function TotalWaves(): int
      reads this
    {
      state.totalWaves.GetOr(1)
    }

    /** `is_wave_complete`: every listed agent of the wave is completed or succeeded (an unknown agent is not). */
    method IsWaveComplete(wave: int) returns (complete: bool)
      ensures complete <==> forall id :: id in WaveManagerScript.WaveAgents(state, wave) ==>
                                         IsDone(WaveManagerScript.AgentStatus(state.agents, id))
    {
      var ids := WaveManagerScript.WaveAgents(state, wave);
      var i := 0;
      while i < |ids|
        invariant 0 <= i <= |ids|
        invariant forall j :: 0 <= j < i ==> IsDone(WaveManagerScript.AgentStatus(state.agents, ids[j]))
      {
        if !IsDone(WaveManagerScript.AgentStatus(state.agents, ids[i])) {
          return false;
        }
        i := i + 1;
      }
      return true;
    }

    /**
     * `advance_wave`: moves to the next wave when the current one is not the
     * last and is complete, and starts the new wave if it is listed; the old
     * wave's record is left as it was.
     */
    method AdvanceWave(now: int) returns (advanced: bool)
      modifies this
      ensures configs == old(configs) && generations == old(generations)
      ensures var current := old(state.currentWave.GetOr(1));
              advanced <==> current < old(state.totalWaves.GetOr(1))
                            && forall id :: id in WaveManagerScript.WaveAgents(old(state), current) ==>
                                              IsDone(WaveManagerScript.AgentStatus(old(state).agents, id))
      ensures !advanced ==> state == old(state)
      ensures advanced ==>
                var current := old(state.currentWave.GetOr(1));
                state == old(state).(currentWave := Some(current + 1),
                                     waves := if current + 1 in old(state).waves
                                              then old(state).waves[current + 1 := old(state).waves[current + 1].(status := Some("running"), startedAt := Some(Parsed(now, true)))]
                                              else old(state).waves)
    {
      var current := CurrentWave();
      if current >= TotalWaves() {
        return false;
      }
      var complete := IsWaveComplete(current);
      if !complete {
        return false;
      }
      var waves := state.waves;
      if current + 1 in waves {
        waves := waves[current + 1 := waves[current + 1].(status := Some("running"), startedAt := Some(Parsed(now, true)))];
      }
      state := state.(currentWave := Some(current + 1), waves := waves);
      advanced := true;
    }

    /**
     * `update_agent_status`: sets the named agent's status and time, and its
     * generation only when one is given and not 0; an unknown agent is ignored.
     */
    method UpdateAgentStatus(agentId: string, status: string, generation: Option<int>, now: int)
      modifies this
      ensures configs == old(configs) && generations == old(generations)
      ensures agentId !in old(state).agents ==> state == old(state)
      ensures agentId in old(state).agents ==>
                var r := old(state).agents[agentId];
                state == old(state).(agents := old(state).agents[agentId :=
                  r.(status := Some(status),
                     currentGeneration := if Truthy(generation) then generation.value else r.currentGeneration,
                     lastUpdated := Some(Parsed(now, true)))])
    {
      if agentId in state.agents {
        var r := state.agents[agentId];
        r := r.(status := Some(status));
        if Truthy(generation) {
          r := r.(currentGeneration := generation.value);
        }
        r := r.(lastUpdated := Some(Parsed(now, true)));
        state := state.(agents := state.agents[agentId := r]);
      }
    }

    /**
     * `spawn_agent_generation`: writes the generation's status (running, no
     * interactions, full confidence, no learnings; role and focus from the
     * agent's config, "general" and "" by default) and marks the agent running.
     */
    method SpawnAgentGeneration(agentId: string, generation: int, now: int)
      modifies this
      ensures configs == old(configs)
      ensures var config := if agentId in configs then configs[agentId] else AgentConfig(None, None);
              generations == old(generations)[(agentId, generation) :=
                AgentGeneration(generation, agentId, config.role.GetOr("general"), config.focus.GetOr(""),
                                "running", Parsed(now, true), 0, 0.0, 1.0, 0, [])]
      ensures agentId !in old(state).agents ==> state == old(state)
      ensures agentId in old(state).agents ==>
                state.agents == old(state).agents[agentId := old(state).agents[agentId].(
                  status := Some("running"),
                  currentGeneration := if generation != 0 then generation else old(state).agents[agentId].currentGeneration,
                  lastUpdated := Some(Parsed(now, true)))]
                && state == old(state).(agents := state.agents)
    {
      var config := if agentId in configs then configs[agentId] else AgentConfig(None, None);
      var record := AgentGeneration(generation, agentId, config.role.GetOr("general"), config.focus.GetOr(""),
                                    "running", Parsed(now, true), 0, 0.0, 1.0, 0, []);
      generations := generations[(agentId, generation) := record];
      UpdateAgentStatus(agentId, "running", Some(generation), now);
    }

    /** `check_all_complete`: every agent of the swarm is completed or succeeded. */
    method CheckAllComplete() returns (complete: bool)
      ensures complete <==> forall id :: id in state.agents ==> IsDone(state.agents[id].status)
    {
      var todo := state.agents.Keys;
      while todo != {}
        invariant todo <= state.agents.Keys
        invariant forall id :: id in state.agents && id !in todo ==> IsDone(state.agents[id].status)
        decreases |todo|
      {
        ghost var some := NonEmptyHasMember(todo);
        var id :| id in todo;
        if !IsDone(state.agents[id].status) {
          return false;
        }
        todo := todo - {id};
      }
      return true;
    }

    /**
     * `get_status_summary`: the wave position, the number of agents, how
     * many agents have each status, and whether all are done.
     */
    method GetStatusSummary() returns (s: StatusSummary)
      ensures s.currentWave == state.currentWave.GetOr(1) && s.totalWaves == state.totalWaves.GetOr(1)
      ensures s.totalAgents == |state.agents|
      ensures Counter.DistinctKeys(s.byStatus)
      ensures forall name :: Counter.Get(s.byStatus, name) == |WithStatus(state.agents, state.agents.Keys, name)|
      ensures Counter.Total(s.byStatus) == s.totalAgents
      ensures s.isComplete <==> forall id :: id in state.agents ==> IsDone(state.agents[id].status)
    {
      var byStatus := CountStatuses(state.agents);
      var complete := CheckAllComplete();
      s := StatusSummary(CurrentWave(), TotalWaves(), |state.agents|, byStatus, complete);
    }
  }

  /** The `by_status` loop of `get_status_summary`: one count per status name, summing to the number of agents. */
  method CountStatuses(agents: map<string, AgentRecord>) returns (byStatus: Counter.Counts<string>)
    ensures Counter.DistinctKeys(byStatus)
    ensures forall name :: Counter.Get(byStatus, name) == |WithStatus(agents, agents.Keys, name)|
    ensures Counter.Total(byStatus) == |agents|
  {
    byStatus := [];
    var todo := agents.Keys;
    ghost var done: set<string> := {};
    while todo != {}
      invariant todo <= agents.Keys && done !! todo && done + todo == agents.Keys
      invariant Tallied(agents, done, byStatus)
      decreases |todo|
    {
      ghost var some := NonEmptyHasMember(todo);
      var id :| id in todo;
      var name := StatusName(agents[id]);
      CountStep(agents, done, id, byStatus);
      byStatus := Counter.Inc(byStatus, name);
      todo := todo - {id};
      done := done + {id};
    }
    assert done == agents.Keys;
  }

  /** The counts of the agents in `done`: distinct names, exact per name, summing to their number. */
  ghost predicate Tallied(agents: map<string, AgentRecord>, done: set<string>, byStatus: Counter.Counts<string>)
  {
    && Counter.DistinctKeys(byStatus)
    && Counter.Total(byStatus) == |done|
    && forall name :: Counter.Get(byStatus, name) == |WithStatus(agents, done, name)|
  }

  /** One more agent counted: the counts stay distinct, exact and summing to the agents seen. */
  lemma CountStep(agents: map<string, AgentRecord>, done: set<string>, id: string, byStatus: Counter.Counts<string>)
    requires id in agents && id !in done
    requires Tallied(agents, done, byStatus)
    ensures Tallied(agents, done + {id}, Counter.Inc(byStatus, StatusName(agents[id])))
  {
    var name := StatusName(agents[id]);
    Counter.IncDistinct(byStatus, name);
    Counter.IncTotal(byStatus, name);
    forall other ensures Counter.Get(Counter.Inc(byStatus, name), other) == |WithStatus(agents, done + {id}, other)| {
      Counter.IncGet(byStatus, name, other);
      WithStatusStep(agents, done, id, other);
    }
  }

  lemma WithStatusStep(agents: map<string, AgentRecord>, done: set<string>, id: string, name: string)
    requires id in agents && id !in done
    ensures |WithStatus(agents, done + {id}, name)| ==
              |WithStatus(agents, done, name)| + (if StatusName(agents[id]) == name then 1 else 0)
  {
    if StatusName(agents[id]) == name {
      assert WithStatus(agents, done + {id}, name) == WithStatus(agents, done, name) + {id};
    } else {
      assert WithStatus(agents, done + {id}, name) == WithStatus(agents, done, name);
    }
  }

  /** The wave manager's advance agrees with the wave-manager command's verdict. */
  lemma AdvanceAgreesWithCommand(st: ProjectState)
    ensures WaveManagerScript.CanAdvanceWave(Some(st)).Ready? <==>
              var current := st.currentWave.GetOr(1);
              && current < st.totalWaves.GetOr(1)
              && forall id :: id in WaveManagerScript.WaveAgents(st, current) ==> IsDone(WaveManagerScript.AgentStatus(st.agents, id))
  {
    WaveManagerScript.CanAdvanceWaveExactly(Some(st));
  }
}
