/**
 * The JSON documents under a `.gas` directory that several scripts read and
 * write: the project state (`gas-state.json`), a generation's `status.json`
 * and the entries of `knowledge/store.json`.  A field the scripts read with
 * `.get` is an `Option`; a list read with `.get(key, [])` is a plain
 * sequence, since a missing list and an empty one behave alike.
 */
module Records {
  import opened Wrappers

  /**
   * An ISO timestamp in a document: its wall-clock reading in seconds (and
   * whether it carried a timezone, which makes Python refuse to compare it
   * with a naive time), or
   * text that `datetime.fromisoformat` rejects.  A missing or empty timestamp
   * is `None` wherever a Stamp is optional.
   */
  datatype Stamp = Parsed(secs: int, aware: bool) | Unparseable

  /**
   * One knowledge-store pattern, or one learning in a generation's status:
   * the same dict shape.  `otherKeys` says whether the dict holds keys the
   * model does not name, so that a dict holding only such keys is not `{}`.
   */
  datatype Entry = Entry(
    id: Option<string>,
    kind: Option<string>,
    context: Option<string>,
    pattern: Option<string>,
    content: Option<string>,
    confidence: Option<real>,
    occurrences: Option<int>,
    addedAt: Option<Stamp>,
    lastSeen: Option<Stamp>,
    sourceGeneration: Option<int>,
    sourceAgent: Option<string>,
    evidence: Option<string>,
    impact: Option<string>,
    category: Option<string>,
    otherKeys: bool)

  /** An entry with none of its keys set: the dict `{}`. */
  const EmptyEntry := Entry(None, None, None, None, None, None, None, None, None, None, None, None, None, None, false)

  /** A generation's `status.json`, written by the orchestrator and updated by the working agent. */
  datatype GenStatus = GenStatus(
    generation: Option<int>,
    agentId: Option<string>,
    status: Option<string>,
    role: Option<string>,
    startedAt: Option<Stamp>,
    lastUpdated: Option<Stamp>,
    completedAt: Option<Stamp>,
    interactions: Option<int>,
    progress: Option<real>,
    currentTask: Option<string>,
    completedTasks: seq<string>,
    confidence: Option<real>,
    errors: Option<int>,
    learnings: seq<Entry>,
    parentGeneration: Option<int>,
    transferDocument: Option<string>,
    successionReason: Option<string>,
    blockers: seq<string>,
    keyDecisions: seq<string>,
    activeFiles: seq<string>,
    nextSteps: seq<string>,
    taskComplete: bool,
    succeededTo: Option<int>,
    otherKeys: bool)

  /** The status `{}`: what `read_json(...) or {}` yields for a missing file. */
  const EmptyStatus := GenStatus(None, None, None, None, None, None, None, None, None, None, [], None, None,
                                 [], None, None, None, [], [], [], [], false, None, false)

  /**
   * Python's `bool(status)`: the dict has a key.  Either one of the fields
   * above differs from its default, or `otherKeys` records a key they do not
   * show (a key the scripts never read, a null value, an empty list, a false
   * `task_complete`).
   */
  predicate StatusHasKeys(st: GenStatus)
  {
    st.otherKeys || st.(otherKeys := false) != EmptyStatus
  }

  /** `if status:` on what `read_json` returned: read, and not `{}`. */
  predicate StatusRead(doc: Option<GenStatus>)
  {
    doc.Some? && StatusHasKeys(doc.value)
  }

  /** One agent of a swarm, `state["agents"][agent_id]`. */
  datatype AgentRecord = AgentRecord(
    agentId: string,
    role: Option<string>,
    focus: Option<string>,
    wave: Option<int>,
    status: Option<string>,
    currentGeneration: int,
    totalGenerations: int,
    lastUpdated: Option<Stamp>)

  /** One wave of a swarm, `state["waves"][str(n)]`; JSON's string keys are modelled as the numbers they spell. */
  datatype WaveRecord = WaveRecord(
    agents: seq<string>,
    status: Option<string>,
    startedAt: Option<Stamp>,
    completedAt: Option<Stamp>)

  /** `gas-state.json`.  A single-agent project has no agents and no waves. */
  datatype ProjectState = ProjectState(
    projectName: Option<string>,
    taskObjective: Option<string>,
    mode: Option<string>,
    currentGeneration: Option<int>,
    totalGenerations: Option<int>,
    agents: map<string, AgentRecord>,
    waves: map<int, WaveRecord>,
    currentWave: Option<int>,
    totalWaves: Option<int>,
    dependencies: map<string, seq<string>>,
    lastUpdated: Option<Stamp>,
    otherKeys: bool)

  /** The state `{}`. */
  const EmptyState := ProjectState(None, None, None, None, None, map[], map[], None, None, map[], None, false)

  /** Python's `bool(state)`: some field differs from its default, or `otherKeys` records a key they do not show. */
  predicate StateHasKeys(st: ProjectState)
  {
    st.otherKeys || st.(otherKeys := false) != EmptyState
  }

  /** `if state:` on what `read_json` returned: read, and not `{}`. */
  predicate StateRead(doc: Option<ProjectState>)
  {
    doc.Some? && StateHasKeys(doc.value)
  }

  /** The statuses that count an agent's work as finished. */
  predicate IsDone(status: Option<string>)
  {
    status == Some("completed") || status == Some("succeeded")
  }

  /** A truthy optional string: present and not empty. */
  predicate Given(s: Option<string>)
  {
    s.Some? && s.value != ""
  }
}
