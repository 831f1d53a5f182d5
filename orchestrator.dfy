/**
 * `scripts/gas-orchestrator.py`: the single-agent succession loop.  The
 * `.gas` directory the script reads and rewrites is the class `Workspace`:
 * its project state, the status document of every generation (top level or
 * per agent), the transfer documents written beside them, and the knowledge
 * store.
 */
module Orchestrator {
  import opened Wrappers
  import opened Seqs
  import opened Text
  import opened Records
  import Triggers
  import Knowledge

  /** The character `slugify` puts in place of `ch`. */
  function SlugChar(ch: char): char
  {
    if ch == ' ' || ch == '_' then '-' else LowerChar(ch)
  }

  /** `slugify`: lower-case, then spaces and underscores become dashes. */
  function Slugify(name: string): string
  {
    Replace(Replace(Lower(name), " ", "-"), "_", "-")
  }

  /** Slugifying maps the name character by character. */
  lemma SlugifyByChar(name: string)
    ensures |Slugify(name)| == |name|
    ensures forall i :: 0 <= i < |name| ==> Slugify(name)[i] == SlugChar(name[i])
  {
    ReplaceChar(Lower(name), ' ', '-');
    ReplaceChar(MapChar(Lower(name), ' ', '-'), '_', '-');
  }

  /** A slug has no spaces or underscores, and slugifying it again changes nothing. */
  lemma SlugifyClean(name: string)
    ensures forall i :: 0 <= i < |Slugify(name)| ==> Slugify(name)[i] != ' ' && Slugify(name)[i] != '_'
    ensures Slugify(Slugify(name)) == Slugify(name)
  {
    SlugifyByChar(name);
    SlugifyByChar(Slugify(name));
  }

  /** `(should_handoff, reason, score)` as `check_triggers` reports it. */
  datatype TriggerVerdict = TriggerVerdict(shouldHandoff: bool, reason: string, score: real)

  /** `check_triggers`: the exit code of the trigger script mapped to a verdict. */
  function TriggerDecision(exitCode: int): TriggerVerdict
  {
    if exitCode == 0 then TriggerVerdict(false, "none", 0.0)
    else if exitCode == 1 then TriggerVerdict(true, "score_warning", 0.55)
    else if exitCode == 2 then TriggerVerdict(true, "score_critical", 0.75)
    else TriggerVerdict(false, "error", 0.0)
  }

  /** Only the codes 1 and 2 hand off, and a verdict that hands off carries a score above the "soon" cut-off. */
  lemma TriggerDecisionHandsOff(exitCode: int)
    ensures TriggerDecision(exitCode).shouldHandoff <==> exitCode == 1 || exitCode == 2
    ensures TriggerDecision(exitCode).shouldHandoff <==> TriggerDecision(exitCode).score > Triggers.SoonAbove
  {
  }

  predicate Terminal(s: string)
  {
    s == "completed" || s == "failed" || s == "needs_succession"
  }

  /** `monitor_generation`, given the status document and the trigger script's exit code. */
  function MonitorGeneration(status: Option<GenStatus>, exitCode: int): string
  {
    if !StatusRead(status) then "unknown"
    else
      var st := status.value;
      var current := st.status.GetOr("unknown");
      if Terminal(current) then current
      else if TriggerDecision(exitCode).shouldHandoff then "needs_succession"
      else current
  }

  /**
   * With the trigger script reading the same status document, the monitor
   * reports `{}` as unknown, a terminal status unchanged, and otherwise asks
   * for succession exactly when the trigger evaluation says to hand off.
   */
  lemma MonitorAgreesWithTriggers(st: GenStatus, now: int)
    ensures var m := MonitorGeneration(Some(st), Triggers.ExitCode(Some(st), now));
            && (!StatusHasKeys(st) ==> m == "unknown")
            && (StatusHasKeys(st) && Terminal(st.status.GetOr("unknown")) ==> m == st.status.GetOr("unknown"))
            && (StatusHasKeys(st) && !Terminal(st.status.GetOr("unknown")) ==>
                  (m == "needs_succession" <==> Triggers.EvaluateTriggers(st, now).shouldHandoff)
                  && (m != "needs_succession" ==> m == st.status.GetOr("unknown")))
  {
    var code := Triggers.ExitCode(Some(st), now);
    TriggerDecisionHandsOff(code);
    if StatusHasKeys(st) && !Terminal(st.status.GetOr("unknown")) {
      assert !(st.status.Some? && st.status.value in {"completed", "failed", "needs_succession"});
    }
  }

  /** `format_patterns`' line for one pattern. */
  function PatternLine(p: Entry): string
  {
    "- **" + p.context.GetOr("General") + "**: " + p.pattern.GetOr(p.content.GetOr("N/A"))
  }

  function PatternLines(ps: seq<Entry>): (r: seq<string>)
    ensures |r| == |ps|
    ensures forall i :: 0 <= i < |ps| ==> r[i] == PatternLine(ps[i])
  {
    seq(|ps|, i requires 0 <= i < |ps| => PatternLine(ps[i]))
  }

  /** `format_patterns`: one line for each of the first ten patterns, or a placeholder. */
  function FormatPatterns(ps: seq<Entry>): string
  {
    if ps == [] then "*No patterns recorded yet.*"
    else Join(PatternLines(PyUpTo(ps, 10)), "\n")
  }

  /** Each of the first ten patterns has its line in the text; an empty list gives the placeholder. */
  lemma FormatPatternsShowsFirstTen(ps: seq<Entry>, i: nat)
    requires i < |ps| && i < 10
    ensures Contains(FormatPatterns(ps), PatternLine(ps[i]))
  {
    JoinContainsPart(PatternLines(PyUpTo(ps, 10)), "\n", i);
  }

  /** The status document `spawn_generation` writes for a new generation. */
  function NewGenStatus(generation: int, agentId: Option<string>, withTransfer: bool, now: int): GenStatus
  {
    GenStatus(Some(generation), agentId, Some("pending"), None, None, Some(Parsed(now, true)), None,
              Some(0), Some(0.0), Some("Waiting to start"), [], Some(1.0), Some(0), [],
              if generation > 1 then Some(generation - 1) else None,
              if withTransfer then Some("transfer.json") else None,
              None, [], [], [], [], false, None, true)
  }

  /**
   * A freshly spawned generation is pending with no interactions, errors or
   * learnings and full confidence; its parent is the generation before it
   * exactly when there is one; and its trigger score stays at most the stall
   * weight, so the trigger script never asks it to hand off.
   */
  lemma FreshGenerationStaysPut(generation: int, agentId: Option<string>, withTransfer: bool, now: int, later: int)
    ensures var st := NewGenStatus(generation, agentId, withTransfer, now);
            && st.status == Some("pending") && st.interactions == Some(0) && st.errors == Some(0)
            && st.confidence == Some(1.0) && st.learnings == []
            && (st.parentGeneration.Some? <==> generation > 1)
            && (st.parentGeneration.Some? ==> st.parentGeneration.value == generation - 1)
            && (st.transferDocument == Some("transfer.json") <==> withTransfer)
            && Triggers.EvaluateTriggers(st, later).weighted <= Triggers.StallWeight
            && !Triggers.EvaluateTriggers(st, later).shouldHandoff
            && Triggers.ExitCode(Some(st), later) == 0
  {
    var st := NewGenStatus(generation, agentId, withTransfer, now);
    var s := Triggers.ScoresOf(st, later);
    assert s.interactions == 0.0 && s.confidence == 0.0 && s.errors == 0.0;
    assert s.stall <= 1.0;
  }

  /** A subtask of the transfer document's completed work. */
  datatype Subtask = Subtask(name: string, status: string)

  /** The three knowledge lists as the orchestrator reads them from `store.json`. */
  datatype KnowledgeView = KnowledgeView(success: seq<Entry>, anti: seq<Entry>, domain: seq<Entry>, generationsCompleted: int)

  /** The transfer document a generation hands to its successor. */
  datatype TransferDocument = TransferDocument(
    parentGeneration: int,
    childGeneration: int,
    timestamp: Stamp,
    reason: string,
    confidenceAtHandoff: real,
    objective: string,
    overallProgress: real,
    currentPhase: string,
    blockers: seq<string>,
    subtasks: seq<Subtask>,
    keyDecisions: seq<string>,
    activeFiles: seq<string>,
    nextSteps: seq<string>,
    successPatterns: seq<Entry>,
    antiPatterns: seq<Entry>,
    domainInsights: seq<Entry>,
    userIntent: string)

  function DoneSubtasks(tasks: seq<string>): (r: seq<Subtask>)
    ensures |r| == |tasks|
  {
    seq(|tasks|, i requires 0 <= i < |tasks| => Subtask(tasks[i], "done"))
  }

  /** `create_transfer_document`, given the generation's status, the state and the knowledge store as read. */
  function CreateTransferDocument(status: Option<GenStatus>, state: Option<ProjectState>,
                                  knowledge: Option<KnowledgeView>, generation: int, now: int): Result<TransferDocument, string>
  {
    if !StatusRead(status) || !StateRead(state) then Err("Cannot read status or state")
    else
      var st := status.value;
      var objective := state.value.taskObjective.GetOr("");
      Ok(TransferDocument(
        generation, generation + 1, Parsed(now, true),
        st.successionReason.GetOr("triggered"), st.confidence.GetOr(0.5),
        objective, st.progress.GetOr(0.0), st.currentTask.GetOr(""), st.blockers,
        DoneSubtasks(st.completedTasks), st.keyDecisions, st.activeFiles, st.nextSteps,
        if knowledge.Some? then PyUpTo(knowledge.value.success, 5) else [],
        if knowledge.Some? then PyUpTo(knowledge.value.anti, 5) else [],
        if knowledge.Some? then PyUpTo(knowledge.value.domain, 5) else [],
        objective))
  }

  /**
   * The transfer document exists exactly when both the status and the state
   * could be read and neither is `{}`; it links generation g to g+1, repeats the objective, has
   * one done subtask per completed task in order, and carries the first (at
   * most five) entries of each knowledge list.
   */
  lemma TransferDocumentContents(status: Option<GenStatus>, state: Option<ProjectState>,
                                 knowledge: Option<KnowledgeView>, generation: int, now: int)
    ensures var r := CreateTransferDocument(status, state, knowledge, generation, now);
            && (r.Ok? <==> StatusRead(status) && StateRead(state))
            && (r.Ok? ==>
                  var d := r.value;
                  && d.parentGeneration == generation && d.childGeneration == generation + 1
                  && d.objective == state.value.taskObjective.GetOr("") && d.userIntent == d.objective
                  && |d.subtasks| == |status.value.completedTasks|
                  && (forall i :: 0 <= i < |d.subtasks| ==> d.subtasks[i] == Subtask(status.value.completedTasks[i], "done"))
                  && (status.value.confidence.None? ==> d.confidenceAtHandoff == 0.5)
                  && |d.successPatterns| <= 5 && |d.antiPatterns| <= 5 && |d.domainInsights| <= 5
                  && (knowledge.Some? ==>
                        d.successPatterns <= knowledge.value.success
                        && d.antiPatterns <= knowledge.value.anti && d.domainInsights <= knowledge.value.domain)
                  && (knowledge.None? ==> d.successPatterns == [] && d.antiPatterns == [] && d.domainInsights == []))
  {
  }

  /** Which knowledge list `consolidate_learnings` appends a learning to, by its `type` (default "insight"). */
  function LearningList(l: Entry): Knowledge.Kind
  {
    if l.kind == Some("success_pattern") then Knowledge.Success
    else if l.kind == Some("anti_pattern") then Knowledge.Anti
    else Knowledge.Domain
  }

  /** A learning stamped with the generation and agent it came from and the time it was added. */
  function Stamped(l: Entry, generation: int, agentId: Option<string>, now: int): Entry
  {
    l.(sourceGeneration := Some(generation), sourceAgent := agentId, addedAt := Some(Parsed(now, true)))
  }

  /** The stamped learnings of one list, in order. */
  function Routed(ls: seq<Entry>, k: Knowledge.Kind, generation: int, agentId: Option<string>, now: int): seq<Entry>
  {
    if ls == [] then []
    else (if LearningList(ls[0]) == k then [Stamped(ls[0], generation, agentId, now)] else [])
         + Routed(ls[1..], k, generation, agentId, now)
  }

  lemma {:induction false} RoutedAppend(ls: seq<Entry>, x: Entry, k: Knowledge.Kind, generation: int, agentId: Option<string>, now: int)
    ensures Routed(ls + [x], k, generation, agentId, now)
         == Routed(ls, k, generation, agentId, now) + (if LearningList(x) == k then [Stamped(x, generation, agentId, now)] else [])
  {
    if ls != [] {
      assert (ls + [x])[1..] == ls[1..] + [x];
      RoutedAppend(ls[1..], x, k, generation, agentId, now);
    }
  }

  /**
   * Every learning lands in exactly one list: the three routed lists
   * together are as long as the learnings.
   */
  lemma {:induction false} RoutedPartition(ls: seq<Entry>, generation: int, agentId: Option<string>, now: int)
    ensures |Routed(ls, Knowledge.Success, generation, agentId, now)| + |Routed(ls, Knowledge.Anti, generation, agentId, now)|
            + |Routed(ls, Knowledge.Domain, generation, agentId, now)| == |ls|
  {
    if ls != [] {
      RoutedPartition(ls[1..], generation, agentId, now);
    }
  }

  /** Each routed entry is stamped with the generation and the agent it came from. */
  lemma {:induction false} RoutedStamped(ls: seq<Entry>, k: Knowledge.Kind, generation: int, agentId: Option<string>, now: int)
    ensures forall e :: e in Routed(ls, k, generation, agentId, now) ==>
              e.sourceGeneration == Some(generation) && e.sourceAgent == agentId
  {
    if ls != [] {
      RoutedStamped(ls[1..], k, generation, agentId, now);
    }
  }

  /** The per-learning loop of `consolidate_learnings`: each learning, stamped, goes to the list its type names. */
  method RouteLearnings(ls: seq<Entry>, generation: int, agentId: Option<string>, now: int)
    returns (success: seq<Entry>, anti: seq<Entry>, domain: seq<Entry>)
    ensures success == Routed(ls, Knowledge.Success, generation, agentId, now)
    ensures anti == Routed(ls, Knowledge.Anti, generation, agentId, now)
    ensures domain == Routed(ls, Knowledge.Domain, generation, agentId, now)
  {
    success, anti, domain := [], [], [];
    var i := 0;
    while i < |ls|
      invariant 0 <= i <= |ls|
      invariant success == Routed(ls[..i], Knowledge.Success, generation, agentId, now)
      invariant anti == Routed(ls[..i], Knowledge.Anti, generation, agentId, now)
      invariant domain == Routed(ls[..i], Knowledge.Domain, generation, agentId, now)
    {
      var l := Stamped(ls[i], generation, agentId, now);
      TakeSnoc(ls, i);
      RoutedAppend(ls[..i], ls[i], Knowledge.Success, generation, agentId, now);
      RoutedAppend(ls[..i], ls[i], Knowledge.Anti, generation, agentId, now);
      RoutedAppend(ls[..i], ls[i], Knowledge.Domain, generation, agentId, now);
      match LearningList(ls[i]) {
        case Success => success := success + [l];
        case Anti => anti := anti + [l];
        case Domain => domain := domain + [l];
      }
      i := i + 1;
    }
    TakeAll(ls);
  }

  /** The store after `consolidate_learnings`: each list extended by its routed learnings, one more generation completed. */
  function Consolidated(kv: KnowledgeView, ls: seq<Entry>, generation: int, agentId: Option<string>, now: int): KnowledgeView
  {
    KnowledgeView(kv.success + Routed(ls, Knowledge.Success, generation, agentId, now),
                  kv.anti + Routed(ls, Knowledge.Anti, generation, agentId, now),
                  kv.domain + Routed(ls, Knowledge.Domain, generation, agentId, now),
                  kv.generationsCompleted + 1)
  }

  function TotalEntries(kv: KnowledgeView): nat
  {
    |kv.success| + |kv.anti| + |kv.domain|
  }

  /** Consolidation grows the store by exactly the number of learnings and completes exactly one generation. */
  lemma ConsolidationCountsEachLearningOnce(kv: KnowledgeView, ls: seq<Entry>, generation: int, agentId: Option<string>, now: int)
    ensures TotalEntries(Consolidated(kv, ls, generation, agentId, now)) == TotalEntries(kv) + |ls|
    ensures Consolidated(kv, ls, generation, agentId, now).generationsCompleted == kv.generationsCompleted + 1
  {
    RoutedPartition(ls, generation, agentId, now);
  }

  /**
   * Consolidating the same generation twice, as the run loop does for a
   * generation that completed without finishing its task, counts its
   * learnings twice: one success learning turns into two store entries.
   */
  lemma DoubleConsolidationDuplicates(kv: KnowledgeView, l: Entry, generation: int, now: int)
    requires l.kind == Some("success_pattern")
    ensures var twice := Consolidated(Consolidated(kv, [l], generation, None, now), [l], generation, None, now);
            && twice.success == kv.success + [Stamped(l, generation, None, now), Stamped(l, generation, None, now)]
            && twice.generationsCompleted == kv.generationsCompleted + 2
            && TotalEntries(twice) == TotalEntries(kv) + 2
  {
    assert Routed([l], Knowledge.Success, generation, None, now) == [Stamped(l, generation, None, now)];
    ConsolidationCountsEachLearningOnce(kv, [l], generation, None, now);
    ConsolidationCountsEachLearningOnce(Consolidated(kv, [l], generation, None, now), [l], generation, None, now);
  }

  /** The project-state update of `spawn_generation`, or the agent id it fails on. */
  function SpawnedState(st: ProjectState, generation: int, agentId: Option<string>, now: int): Result<ProjectState, string>
  {
    if Given(agentId) && |st.agents| > 0 then
      if agentId.value in st.agents then
        var a := st.agents[agentId.value];
        Ok(st.(agents := st.agents[agentId.value := a.(currentGeneration := generation,
                                                         totalGenerations := if a.totalGenerations >= generation then a.totalGenerations else generation)],
               lastUpdated := Some(Parsed(now, true))))
      else Err(agentId.value)
    else
      var total := st.totalGenerations.GetOr(0);
      Ok(st.(currentGeneration := Some(generation),
             totalGenerations := Some(if total >= generation then total else generation),
             lastUpdated := Some(Parsed(now, true))))
  }

  /**
   * Spawning makes the new generation current and never lowers the total:
   * for a known agent only that agent's counters change; without agents the
   * project's own counters do; an unknown agent of a swarm is an error.
   */
  lemma SpawnedStateCounters(st: ProjectState, generation: int, agentId: Option<string>, now: int)
    ensures var r := SpawnedState(st, generation, agentId, now);
            && (r.Err? <==> Given(agentId) && |st.agents| > 0 && agentId.value !in st.agents)
            && (r.Ok? && Given(agentId) && |st.agents| > 0 ==>
                  var a := r.value.agents[agentId.value];
                  && a.currentGeneration == generation
                  && a.totalGenerations >= generation && a.totalGenerations >= st.agents[agentId.value].totalGenerations
                  && (a.totalGenerations == generation || a.totalGenerations == st.agents[agentId.value].totalGenerations)
                  && r.value.agents.Keys == st.agents.Keys
                  && (forall other :: other in st.agents && other != agentId.value ==> r.value.agents[other] == st.agents[other])
                  && r.value.currentGeneration == st.currentGeneration && r.value.totalGenerations == st.totalGenerations)
            && (r.Ok? && !(Given(agentId) && |st.agents| > 0) ==>
                  && r.value.currentGeneration == Some(generation)
                  && r.value.totalGenerations.value >= generation
                  && r.value.totalGenerations.value >= st.totalGenerations.GetOr(0)
                  && r.value.agents == st.agents)
  {
  }

  datatype SpawnError = NoState | UnknownAgent(agentId: string)

  /** Where a generation's files live: under its agent when an agent id is given, else at the top level. */
  datatype GenKey = GenKey(agent: Option<string>, generation: int)

  function KeyOf(agentId: Option<string>, generation: int): GenKey
  {
    GenKey(if Given(agentId) then agentId else None, generation)
  }

  class Workspace {
    var state: Option<ProjectState>
    var statuses: map<GenKey, GenStatus>
    var transfers: map<GenKey, TransferDocument>
    /** `store.json`: null when it cannot be read or holds `{}` (a store object always holds its three lists). */
    var knowledge: Knowledge.KnowledgeStore?

    constructor (state: Option<ProjectState>, statuses: map<GenKey, GenStatus>, knowledge: Knowledge.KnowledgeStore?)
      ensures this.state == state && this.statuses == statuses && this.transfers == map[]
      ensures this.knowledge == knowledge
    {
      this.state := state;
      this.statuses := statuses;
      this.transfers := map[];
      this.knowledge := knowledge;
    }

    /** `read_generation_status`. */
    function StatusOf(agentId: Option<string>, generation: int): Option<GenStatus>
      reads this
    {
      var k := KeyOf(agentId, generation);
      if k in statuses then Some(statuses[k]) else None
    }

    /** The status files the trigger script reads: `generations/gen-N/status.json`. */
    function TopLevelStatuses(): map<int, GenStatus>
      reads this
    {
      map k | k in statuses && k.agent.None? :: k.generation := statuses[k]
    }

    /** `store.json` as the orchestrator reads it. */
    function View(): Option<KnowledgeView>
      reads this, knowledge
    {
      if knowledge == null then None
      else Some(KnowledgeView(knowledge.successPatterns, knowledge.antiPatterns,
                              knowledge.domainKnowledge, knowledge.generationsCompleted))
    }

    /**
     * `spawn_generation`: writes the new status document (and the transfer
     * document, when there is one), then updates the project state.  An
     * unknown agent of a swarm fails after the documents are written.
     */
    method SpawnGeneration(generation: int, agentId: Option<string>, transfer: Option<TransferDocument>, now: int)
      returns (r: Result<GenKey, SpawnError>)
      modifies this
      ensures knowledge == old(knowledge)
      ensures !StateRead(old(state)) ==>
                r == Err(NoState) && state == old(state) && statuses == old(statuses) && transfers == old(transfers)
      ensures StateRead(old(state)) ==>
                && statuses == old(statuses)[KeyOf(agentId, generation) := NewGenStatus(generation, agentId, transfer.Some?, now)]
                && transfers == (if transfer.Some? then old(transfers)[KeyOf(agentId, generation) := transfer.value] else old(transfers))
                && match SpawnedState(old(state).value, generation, agentId, now)
                   case Ok(st) => state == Some(st) && r == Ok(KeyOf(agentId, generation))
                   case Err(a) => state == old(state) && r == Err(UnknownAgent(a))
    {
      if !StateRead(state) {
        return Err(NoState);
      }
      var k := KeyOf(agentId, generation);
      statuses := statuses[k := NewGenStatus(generation, agentId, transfer.Some?, now)];
      if transfer.Some? {
        transfers := transfers[k := transfer.value];
      }
      match SpawnedState(state.value, generation, agentId, now)
      case Ok(st) =>
        state := Some(st);
        r := Ok(k);
      case Err(a) =>
        r := Err(UnknownAgent(a));
    }

    /**
     * `consolidate_learnings`: appends each learning of the generation's
     * status to the list its type names, stamped with its origin, and counts
     * one more completed generation; nothing happens when the status or the
     * store is missing or `{}`.
     */
    method ConsolidateLearnings(generation: int, agentId: Option<string>, now: int)
      modifies knowledge
      ensures !StatusRead(StatusOf(agentId, generation)) || knowledge == null ==> View() == old(View())
      ensures StatusRead(StatusOf(agentId, generation)) && knowledge != null ==>
                && View() == Some(Consolidated(old(View()).value, StatusOf(agentId, generation).value.learnings, generation, agentId, now))
                && knowledge.lastUpdated == Some(Parsed(now, true))
    {
      var status := StatusOf(agentId, generation);
      if !StatusRead(status) || knowledge == null {
        return;
      }
      var success, anti, domain := RouteLearnings(status.value.learnings, generation, agentId, now);
      knowledge.successPatterns := knowledge.successPatterns + success;
      knowledge.antiPatterns := knowledge.antiPatterns + anti;
      knowledge.domainKnowledge := knowledge.domainKnowledge + domain;
      knowledge.lastUpdated := Some(Parsed(now, true));
      knowledge.generationsCompleted := knowledge.generationsCompleted + 1;
    }

    /**
     * `handle_succession`: builds the transfer document of generation g,
     * spawns g+1 with it, marks g `succeeded` (creating its status if it was
     * missing) and consolidates g's learnings.  It fails, with nothing
     * changed, when the transfer document cannot be built; when the spawn
     * fails on an unknown agent, the child's documents are already written
     * and nothing else changes.
     */
    method HandleSuccession(generation: int, agentId: Option<string>, now: int) returns (r: Result<GenKey, SpawnError>)
      modifies this, knowledge
      ensures knowledge == old(knowledge)
      ensures var doc := old(CreateTransferDocument(StatusOf(agentId, generation), state, View(), generation, now));
              && (doc.Err? ==> r == Err(NoState) && state == old(state) && statuses == old(statuses)
                                && transfers == old(transfers) && View() == old(View()))
              && (doc.Ok? ==> (r.Ok? <==> SpawnedState(old(state).value, generation + 1, agentId, now).Ok?))
              && (doc.Ok? && r.Err? ==>
                    var child := KeyOf(agentId, generation + 1);
                    && r == Err(UnknownAgent(SpawnedState(old(state).value, generation + 1, agentId, now).error))
                    && state == old(state)
                    && statuses == old(statuses)[child := NewGenStatus(generation + 1, agentId, true, now)]
                    && transfers == old(transfers)[child := doc.value]
                    && View() == old(View()))
              && (doc.Ok? && r.Ok? ==>
                    var child := KeyOf(agentId, generation + 1);
                    var parent := old(statuses)[KeyOf(agentId, generation)];
                    && r.value == child
                    && state == Some(SpawnedState(old(state).value, generation + 1, agentId, now).value)
                    && statuses == old(statuses)[child := NewGenStatus(generation + 1, agentId, true, now)]
                                                [KeyOf(agentId, generation) := parent.(status := Some("succeeded"),
                                                                                       succeededTo := Some(generation + 1),
                                                                                       completedAt := Some(Parsed(now, true)))]
                    && transfers == old(transfers)[child := doc.value]
                    && (old(View()).Some? ==> View() == Some(Consolidated(old(View()).value, parent.learnings, generation, agentId, now))))
    {
      var doc := CreateTransferDocument(StatusOf(agentId, generation), state, View(), generation, now);
      if doc.Err? {
        return Err(NoState);
      }
      ghost var parent := statuses[KeyOf(agentId, generation)];
      r := SpawnGeneration(generation + 1, agentId, Some(doc.value), now);
      if r.Err? {
        return;
      }
      var k := KeyOf(agentId, generation);
      var old' := if k in statuses then statuses[k] else EmptyStatus;
      statuses := statuses[k := old'.(status := Some("succeeded"), succeededTo := Some(generation + 1),
                                      completedAt := Some(Parsed(now, true)))];
      ConsolidateLearnings(generation, agentId, now);
    }

    /** The trigger script's exit code for generation g, as `check_triggers` runs it. */
    function ExitCodeFor(generation: int, now: int): int
      reads this
    {
      Triggers.CheckTriggersMain(if generation != 0 then Some(generation) else None, state, TopLevelStatuses(), now)
    }

    /** `monitor_generation` for a top-level generation. */
    function Monitor(generation: int, now: int): string
      reads this
    {
      MonitorGeneration(StatusOf(None, generation), ExitCodeFor(generation, now))
    }

    /**
     * One pass of `run_orchestrator`'s loop as written: a completed
     * generation's learnings are consolidated, and when its task is not yet
     * done `handle_succession` consolidates them a second time.  A failed
     * succession is caught and the loop goes on with the same generation.
     */
    method PollOnceAsWritten(currentGen: int, now: int) returns (nextGen: int, running: bool)
      modifies this, knowledge
      ensures knowledge == old(knowledge)
      ensures var m := old(Monitor(currentGen, now));
              var st := old(StatusOf(None, currentGen));
              && (m == "failed" ==> !running && nextGen == currentGen && View() == old(View()))
              && (m == "completed" && st.value.taskComplete ==> !running && nextGen == currentGen)
              && (m !in {"completed", "failed", "needs_succession"} ==> running && nextGen == currentGen && View() == old(View()))
              && (m == "completed" && !st.value.taskComplete && old(View()).Some? && nextGen == currentGen + 1 ==>
                    View() == Some(Consolidated(Consolidated(old(View()).value, st.value.learnings, currentGen, None, now),
                                                st.value.learnings, currentGen, None, now)))
              && (m in {"completed", "needs_succession"} ==> running || (m == "completed" && st.value.taskComplete))
              && (nextGen == currentGen || nextGen == currentGen + 1)
    {
      var m := Monitor(currentGen, now);
      nextGen, running := currentGen, true;
      if m == "completed" {
        ConsolidateLearnings(currentGen, None, now);
        var status := StatusOf(None, currentGen);
        if status.Some? && status.value.taskComplete {
          running := false;
        } else {
          var r := HandleSuccession(currentGen, None, now);
          if r.Ok? {
            nextGen := r.value.generation;
          }
        }
      } else if m == "needs_succession" {
        var r := HandleSuccession(currentGen, None, now);
        if r.Ok? {
          nextGen := r.value.generation;
        }
      } else if m == "failed" {
        running := false;
      }
    }

    /**
     * One pass of the loop with each completed generation consolidated once:
     * when its task is done its learnings are consolidated here, otherwise
     * `handle_succession` does it.
     */
    method PollOnce(currentGen: int, now: int) returns (nextGen: int, running: bool)
      modifies this, knowledge
      ensures knowledge == old(knowledge)
      ensures var m := old(Monitor(currentGen, now));
              var st := old(StatusOf(None, currentGen));
              && (m == "failed" ==> !running && nextGen == currentGen && View() == old(View()))
              && (m == "completed" && st.value.taskComplete ==>
                    !running && nextGen == currentGen
                    && (old(View()).Some? ==> View() == Some(Consolidated(old(View()).value, st.value.learnings, currentGen, None, now))))
              && (m !in {"completed", "failed", "needs_succession"} ==> running && nextGen == currentGen && View() == old(View()))
              && (m in {"completed", "needs_succession"} && !st.value.taskComplete && old(View()).Some? && nextGen == currentGen + 1 ==>
                    View() == Some(Consolidated(old(View()).value, st.value.learnings, currentGen, None, now)))
              && (m in {"completed", "needs_succession"} ==> running || (m == "completed" && st.value.taskComplete))
              && (nextGen == currentGen || nextGen == currentGen + 1)
    {
      var m := Monitor(currentGen, now);
      nextGen, running := currentGen, true;
      var status := StatusOf(None, currentGen);
      if m == "completed" && status.value.taskComplete {
        ConsolidateLearnings(currentGen, None, now);
        running := false;
      } else if m == "completed" || m == "needs_succession" {
        var r := HandleSuccession(currentGen, None, now);
        if r.Ok? {
          nextGen := r.value.generation;
        }
      } else if m == "failed" {
        running := false;
      }
    }

    /** The start of `run_orchestrator`: generation 1 is spawned when the state names none. */
    method StartRun(now: int) returns (r: Result<int, SpawnError>)
      modifies this
      ensures knowledge == old(knowledge)
      ensures !StateRead(old(state)) ==> r == Err(NoState) && state == old(state) && statuses == old(statuses)
      ensures StateRead(old(state)) && old(state).value.currentGeneration.GetOr(0) != 0 ==>
                r == Ok(old(state).value.currentGeneration.value) && state == old(state) && statuses == old(statuses)
      ensures StateRead(old(state)) && old(state).value.currentGeneration.GetOr(0) == 0 ==>
                && r == Ok(1) && statuses == old(statuses)[GenKey(None, 1) := NewGenStatus(1, None, false, now)]
                && state.Some? && state.value.currentGeneration == Some(1)
    {
      if !StateRead(state) {
        return Err(NoState);
      }
      var current := state.value.currentGeneration.GetOr(0);
      if current == 0 {
        var spawned := SpawnGeneration(1, None, None, now);
        current := 1;
      }
      r := Ok(current);
    }
  }
}
