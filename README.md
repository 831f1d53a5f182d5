# Generational agent succession, modelled in Dafny

Generational agent succession (GAS) runs a long task as a chain of agent
*generations*. Each generation writes a `status.json`: interactions, errors,
confidence, learnings and a timestamp. A trigger check scores that status on
four signals. When the score is high enough, the orchestrator hands over:
- it spawns the next generation with a transfer document (the current task state and
  knowledge excerpts);
- it marks the old generation `succeeded`;
- it consolidates the old generation's learnings into a shared knowledge store.

The store keeps three bounded lists of patterns. It merges repeated sightings,
promotes confidence, prunes and decays. A swarm mode splits a task over a
fixed table of roles arranged in waves; a wave manager gates each wave on the
completion of the one before. Prompts for new generations are rendered from a
small Handlebars-like template language. Two dashboard servers (a modular one
and two single-file ones) watch the agents' output files. They:
- parse the NDJSON event stream incrementally;
- classify each agent as pending, running, idle or completed;
- aggregate waves, successions and progress;
- serve the result over HTTP.

The model covers these rules, one module per source file:

| module | file | form |
|---|---|---|
| `Triggers` | scripts/check-triggers.py | functions over real-valued scores; exit-code policy |
| `Knowledge` | scripts/knowledge-store.py | class `KnowledgeStore` whose list fields the methods reassign; query and prune as functions |
| `Orchestrator` | scripts/gas-orchestrator.py | class `Workspace` (state, generation status files, transfer documents, store); one poll step of the run loop |
| `WaveManagerScript` | scripts/wave-manager.py | class `SwarmFiles` (the state document and spawned status files) |
| `SwarmOrchestrator` | scripts/swarm-orchestrator.py | decomposition as loops; class `WaveManager` over the state |
| `PromptRenderer` | scripts/render-prompt.py | class `TemplateRenderer`; regular-expression passes as hand-written scanners |
| `FileTracker` | resources/dashboard/server/file_tracker.py | classes `FilePositionTracker` and `BoundedParseCache` (LRU) |
| `OutputParser` | resources/dashboard/server/output_parser.py | the per-line accumulation loop, progress estimate, display formatting |
| `GasStatus` | resources/dashboard/server/gas_status.py | class `Gatherer` with its event buffers; classification and aggregation as functions |
| `Http` | resources/dashboard/server/http_handler.py | routing, content types, path sanitising, request reading and response writing |
| `Config` | resources/dashboard/server/config.py | lookups and `validate_config` |
| `StandaloneCache`, `StandaloneEvents`, `Standalone` | resources/gas-dashboard-server-standalone.py | its tracker and mtime cache, its event extractors, and agent/swarm status |
| `Dashboard` | resources/gas-dashboard-server.py | generation records, agent status, knowledge summary, wave and succession aggregates (shared with the standalone server) |

The supporting modules are:
- `Wrappers`: Option and Result.
- `Seqs`, `Text`: Python slicing, `split`, `strip`, `replace` and numerals.
- `Json`: decoded JSON values, with `.get` and truthiness.
- `Counter`: insertion-ordered count dicts.
- `Sorting`: a stable sort over a strict weak order, which models `sorted` with a key.
- `Means`: bounds on sums and averages.
- `Records`: the `.gas` documents.

Scores, confidences and progress means are `real`. Clocks are a `now`
parameter, and so are file contents, directory listings, `os.stat` results
and `json.loads`. Where the code raises, the model returns an error value. It
does so in the order Python evaluates the expression, and the callers handle
that value as the code's `try`/`except` does.

`slugify` in scripts/render-prompt.py:49-51 is the same function as
`slugify` in scripts/gas-orchestrator.py. It is modelled once, as
`Orchestrator.Slugify`, and the renderer uses it.

## Model

| member | source | states |
|---|---|---|
| `Triggers.Primary` | scripts/check-triggers.py:96 | the primary trigger has the largest unweighted partial score, and every signal earlier in the order interactions, confidence, errors, stall scores strictly less |
| `Triggers.EvaluateTriggers` | scripts/check-triggers.py:47-98 | a handoff is recommended iff the weighted score exceeds 0.50, urgency is immediate iff it exceeds 0.70, and urgency is none iff there is no handoff |
| `Triggers.ScoresInUnitRange` | scripts/check-triggers.py:54-82 | on non-negative counts, a non-negative confidence and a stamp not in the future, every partial score and the weighted sum lie in [0, 1] |
| `Triggers.WeightedAtMostPositiveWeight` | scripts/check-triggers.py:82 | the weighted score never exceeds the total weight (0.25/0.30/0.25/0.20) of the signals that score above 0 |
| `Triggers.HandoffNeedsTwoSignals` | scripts/check-triggers.py:82-93 | a recommended handoff needs at least two signals scoring above 0 |
| `Triggers.ImmediateNeedsThreeSignals` | scripts/check-triggers.py:82-87 | an immediate handoff needs at least three signals scoring above 0 |
| `Triggers.ClassifyMonotone` | scripts/check-triggers.py:85-93 | a higher weighted score never gives a lower urgency |
| `Triggers.ConfidenceContribution` | scripts/check-triggers.py:58-60 | a confidence of 0 contributes exactly 0.30, one at or above 0.70 contributes nothing, and one in between a partial score in (0, 1] |
| `Triggers.FreshStatusStaysPut` | scripts/check-triggers.py:52-93 | the status `{}` (0 interactions, 0 errors, confidence 1.0, no timestamp) scores 0 and is not handed off |
| `Triggers.BusyGenerationStaysPut` | scripts/check-triggers.py:54-93 | 160 interactions, confidence 0.70 and 2 errors without a timestamp score 0.25 + 1/48 with urgency none |
| `Triggers.ExitCode` | scripts/check-triggers.py:119-167 | exit 3 iff the status is missing or `{}` (Python's `if not status`); a completed status exits 0 and a failed or needs_succession one 2; otherwise the code is non-zero iff a handoff is recommended, 2 exactly for `immediate` urgency and 1 exactly for `soon` |
| `Triggers.CheckTriggersMain` | scripts/check-triggers.py:106-123 | the generation is the argument, else the `current_generation` of a state that is neither missing nor `{}` (default 1); the exit code is 3 iff that generation's status file is missing or `{}`, and otherwise the one `ExitCode` gives for it |
| `Knowledge.ByConfidenceIsOrder` | scripts/knowledge-store.py:228 | "more confident than" is a strict weak order, so the stable sort by descending confidence is well defined |
| `Knowledge.PruneKeepsMostConfident` | scripts/knowledge-store.py:226-229 | `prune_by_confidence` keeps min(len, max_count) entries drawn from its input, sorted by non-increasing confidence, and no dropped entry is more confident than a kept one |
| `Knowledge.SortedPrefix` | scripts/knowledge-store.py:228-229 | a prefix of the sorted list is a sorted sub-multiset of the input that dominates the rest in confidence |
| `Knowledge.SortedPrefixDominates` | scripts/knowledge-store.py:228-229 | in a list sorted by descending confidence, an entry before the cut is at least as confident as one after it |
| `Knowledge.Capped` | scripts/knowledge-store.py:141-163 | after an append the list is either unchanged or within its cap |
| `Knowledge.CappedWithinCap` | scripts/knowledge-store.py:141-163 | an overflowing list is pruned back to at most its cap, and a list within its cap is left as it is |
| `Knowledge.FirstSimilar` | scripts/knowledge-store.py:174-180 | the first entry whose lower-cased pattern equals, contains or is contained in the new one; none when no entry is similar |
| `Knowledge.EmptyPatternMatchesEverything` | scripts/knowledge-store.py:175-177 | an entry with a missing or empty pattern is similar to every pattern, since "" occurs in any string |
| `Knowledge.NewEntryDefaults` | scripts/knowledge-store.py:111-135 | a new entry has 1 occurrence, equal `added_at` and `last_seen`, and confidence 0.75 unless one is given |
| `Knowledge.Promoted` | scripts/knowledge-store.py:120-121 | promotion raises a confidence by at most 0.05 and never above 1.0 |
| `Knowledge.DecayBounds` | scripts/knowledge-store.py:290-296 | decay touches only entries from a generation more than 2 back seen at most once, lowers them by 0.10 and never below 0.1 |
| `Knowledge.DecayAll` | scripts/knowledge-store.py:289-296 | decaying a list keeps its length and decays each entry in place |
| `Knowledge.Matches` | scripts/knowledge-store.py:210-218 | the entries a list contributes to a query are exactly its entries that pass the context and confidence filters, each with the type tag `key.rstrip("s")`, and no more of them than the list holds |
| `Knowledge.SumConfidenceBounds` | scripts/knowledge-store.py:351-354 | a sum of confidences each within [lo, hi] lies between len·lo and len·hi |
| `Knowledge.AverageWithinBounds` | scripts/knowledge-store.py:351-354 | the average confidence `get_stats` reports lies between the least and the greatest confidence of the list |
| `Knowledge.FilterKept` | scripts/knowledge-store.py:257-274 | the filtering loop keeps, in order, exactly the entries `prune_patterns` keeps |
| `Knowledge.DecayList` | scripts/knowledge-store.py:289-296 | the decay loop decays each due entry and counts how many were due |
| `Knowledge.KnowledgeStore.constructor` | scripts/knowledge-store.py:69-78 | an empty store: three empty lists, 0 generations completed, created and updated now |
| `Knowledge.KnowledgeStore.FindSimilarPattern` | scripts/knowledge-store.py:169-180 | looks under the type with an "s" appended unless it ends in one, and returns the first similar entry of that list |
| `Knowledge.KnowledgeStore.SetList` | scripts/knowledge-store.py:142-160 | reassigns one of the three lists and nothing else |
| `Knowledge.KnowledgeStore.AddPattern` | scripts/knowledge-store.py:90-166 | a similar entry is sighted once more (+1 occurrence, promoted by 0.05 from the third one, KeyError without a confidence) and nothing is appended; otherwise a new entry goes to the list its type names, pruned back to its cap, with the type's default evidence, impact or category; the other lists are untouched; lists within their caps stay within them |
| `Knowledge.KnowledgeStore.MergeSighting` | scripts/knowledge-store.py:116-123 | only the matched entry changes: one more occurrence, seen now, promoted at the threshold |
| `Knowledge.KnowledgeStore.AddNew` | scripts/knowledge-store.py:125-166 | the new entry is appended to the list its type names, which is pruned back to its cap; an unknown type appends nothing |
| `Knowledge.KnowledgeStore.PrunePatterns` | scripts/knowledge-store.py:232-280 | each list keeps, in order, exactly the entries with confidence ≥ min (default 0.60, missing counting 1.0) not seen before the cutoff, and each removed count is the old length minus the new |
| `Knowledge.KnowledgeStore.DecayUnusedPatterns` | scripts/knowledge-store.py:283-299 | success and anti lists are decayed entry by entry, domain knowledge is untouched, and the counts are the number of due entries |
| `Knowledge.DomainInsightsNeverMerged` | scripts/knowledge-store.py:171 | the type `domain_knowledge` is looked up as `domain_knowledges`, so a domain insight never matches an existing one |
| `Knowledge.DomainQueryFindsNothing` | scripts/knowledge-store.py:202-205 | a query filtered to `domain_knowledge` searches `domain_knowledges` and returns nothing |
| `Knowledge.CollectedMembers` | scripts/knowledge-store.py:207-218 | every collected entry passes the filters and carries the tag of a searched list, and every passing entry of every searched list is collected with its tag |
| `Knowledge.QueryPatternsSound` | scripts/knowledge-store.py:183-223 | every result passes the filters and carries the tag of a searched list; every passing entry of the searched lists is among the matches; the results are in non-increasing confidence, drawn from the matches, as many as `[:limit]` keeps (min(limit, matches) for a non-negative limit), all of them when the limit allows, and no dropped match is more confident than a returned one |
| `Knowledge.LimitedPrefix` | scripts/knowledge-store.py:221-223 | the first `limit` entries after the sort by descending confidence, as `[:limit]` takes them, are sorted, counted as the slice says, drawn from the list, and at least as confident as every entry left out |
| `Knowledge.PruneKeepsOnlyKept` | scripts/knowledge-store.py:257-276 | an entry survives pruning iff it was in the list and passes the keep test, and pruning again changes nothing |
| `Orchestrator.SlugifyByChar` | scripts/gas-orchestrator.py:82-84 | slugifying keeps the length and maps each character on its own: lower-cased, with spaces and underscores turned into `-` |
| `Orchestrator.SlugifyClean` | scripts/gas-orchestrator.py:82-84 | a slug contains no space and no underscore, and slugifying it again changes nothing |
| `Orchestrator.TriggerDecisionHandsOff` | scripts/gas-orchestrator.py:329-336 | exit codes 1 and 2, and only they, hand off, and a verdict that hands off carries a score above the 0.50 cut-off |
| `Orchestrator.MonitorAgreesWithTriggers` | scripts/gas-orchestrator.py:350-372 | a missing or `{}` status is reported `unknown`; a terminal status is reported unchanged; otherwise `needs_succession` is reported exactly when the trigger evaluation hands off, and the status itself otherwise |
| `Orchestrator.PatternLines` | scripts/gas-orchestrator.py:289-290 | one formatted line per pattern, in order |
| `Orchestrator.FormatPatternsShowsFirstTen` | scripts/gas-orchestrator.py:283-291 | each of the first ten patterns has its line in the formatted text |
| `Orchestrator.FreshGenerationStaysPut` | scripts/gas-orchestrator.py:173-188 | a spawned status is pending with 0 interactions, 0 errors, confidence 1.0 and no learnings; its parent is g−1 iff g > 1; it names `transfer.json` iff a transfer document was given; and the trigger script exits 0 on it |
| `Orchestrator.DoneSubtasks` | scripts/gas-orchestrator.py:405-408 | one `done` subtask per completed task |
| `Orchestrator.TransferDocumentContents` | scripts/gas-orchestrator.py:379-428 | the document exists iff status and state were read and neither is `{}`; it links g to g+1, copies the objective, lists one done subtask per completed task in order, defaults the handoff confidence to 0.5, and carries prefixes of at most 5 entries of each knowledge list |
| `Orchestrator.RoutedAppend` | scripts/gas-orchestrator.py:479-490 | routing one more learning extends exactly the list its type names |
| `Orchestrator.RoutedPartition` | scripts/gas-orchestrator.py:479-490 | the three routed lists together hold exactly as many entries as there are learnings |
| `Orchestrator.RoutedStamped` | scripts/gas-orchestrator.py:481-483 | each routed entry carries the source generation, the source agent and the time it was added |
| `Orchestrator.RouteLearnings` | scripts/gas-orchestrator.py:479-490 | the per-learning loop sends each stamped learning to the success, anti or domain list by its type |
| `Orchestrator.ConsolidationCountsEachLearningOnce` | scripts/gas-orchestrator.py:468-496 | consolidation grows the store by exactly the number of learnings and `generations_completed` by exactly 1 |
| `Orchestrator.DoubleConsolidationDuplicates` | scripts/gas-orchestrator.py:532-545 | consolidating the same generation twice, as the loop does, stores a success learning twice and counts two completed generations |
| `Orchestrator.SpawnedStateCounters` | scripts/gas-orchestrator.py:195-205 | spawning makes the generation current and never lowers the total; for an agent only that agent's counters change; an unknown agent of a swarm fails |
| `Orchestrator.Workspace.constructor` | scripts/gas-orchestrator.py:508-510 | a workspace holds the state, status and knowledge documents as read, with no transfer documents yet |
| `Orchestrator.Workspace.SpawnGeneration` | scripts/gas-orchestrator.py:157-215 | without a state, or with a `{}` state, nothing changes; otherwise the new status (and transfer document) is written and the state is updated as `SpawnedState` says, or left as it was when the agent is unknown |
| `Orchestrator.Workspace.ConsolidateLearnings` | scripts/gas-orchestrator.py:468-496 | a no-op when the status is missing or `{}`, or the store is missing; otherwise the store becomes the consolidated one and its update time is stamped |
| `Orchestrator.Workspace.HandleSuccession` | scripts/gas-orchestrator.py:431-465 | when the transfer document cannot be built nothing changes; otherwise the child's status and transfer document are written, and it succeeds iff `SpawnedState` does: on success the state is the spawned one, g is marked `succeeded` with `succeeded_to` = g+1 and g's learnings are consolidated; on an unknown agent only the child's documents are new |
| `Orchestrator.Workspace.PollOnceAsWritten` | scripts/gas-orchestrator.py:528-562 | failed stops; completed with `task_complete` stops; any other status keeps polling the same generation; a completed generation that hands off has its learnings consolidated twice; the generation advances by at most 1 |
| `Orchestrator.Workspace.PollOnce` | scripts/gas-orchestrator.py:528-562 | the same step with each completed generation's learnings consolidated exactly once |
| `Orchestrator.Workspace.StartRun` | scripts/gas-orchestrator.py:508-516 | without a state, or with a `{}` state, it fails and nothing changes; generation 1 is spawned and made current when the state names none; otherwise the state's generation is kept |
| `WaveManagerScript.WaveCountsPartition` | scripts/wave-manager.py:87-92 | completed (completed or succeeded), running and pending together count every agent of the wave exactly once |
| `WaveManagerScript.AgentLines` | scripts/wave-manager.py:76-85 | one report line per listed agent, in order |
| `WaveManagerScript.SummarizeWave` | scripts/wave-manager.py:67-103 | the counting loop yields the counts of completed, running and pending agents, `total` = number of listed agents, and `is_complete` iff completed == total and total > 0 |
| `WaveManagerScript.GetWaveStatus` | scripts/wave-manager.py:49-105 | a missing or `{}` state and a non-swarm workspace are errors; otherwise every wave gets its summary (its status defaulting to pending, its start time, one line per listed agent, and the completed, running, pending and total counts), with current and total wave defaulting to 1 |
| `WaveManagerScript.CanAdvanceWaveExactly` | scripts/wave-manager.py:148-176 | a wave may be left iff it is not the last and every listed agent is completed or succeeded (so an empty wave may be left); the incomplete list names exactly the others |
| `WaveManagerScript.SpawnAllChangesOnlyFreshAgents` | scripts/wave-manager.py:224-245 | spawning changes only listed agents at generation 0, each to generation 1 and `running`; every other agent is untouched and none is added |
| `WaveManagerScript.SpawnLoop` | scripts/wave-manager.py:224-247 | the loop over the wave's agents computes the spawned agents and ids of `SpawnAll` |
| `WaveManagerScript.GetAgentDependencies` | scripts/wave-manager.py:283-314 | one entry per dependency, in order, whose output is available iff the dependency is completed or succeeded; an available dependency lists the files of its current generation's output folder when that folder exists, and no other entry has a listing; an unreadable state is an error |
| `WaveManagerScript.SwarmFiles.constructor` | scripts/wave-manager.py:187 | the files hold the state as read and no generation-1 status yet |
| `WaveManagerScript.SwarmFiles.AdvanceWave` | scripts/wave-manager.py:179-208 | advances iff `can_advance_wave` says so; on failure the state is unchanged, on success it is the advanced state |
| `WaveManagerScript.SwarmFiles.SpawnWaveAgents` | scripts/wave-manager.py:211-250 | without a state, or with a `{}` state, nothing changes; otherwise the agents become those of `SpawnAll` and each spawned agent gets a generation-1 status |
| `WaveManagerScript.AdvanceMovesOneWave` | scripts/wave-manager.py:179-204 | an allowed advance moves `current_wave` by exactly one from a completed, non-final wave, marks the new wave running and the old one completed, and leaves every agent as it was |
| `SwarmOrchestrator.AgentIdInjective` | scripts/swarm-orchestrator.py:115 | the ids `agent-1`, `agent-2`, … are pairwise different |
| `SwarmOrchestrator.IdsInWaveMembers` | scripts/swarm-orchestrator.py:148-152 | an id is listed in wave w iff some agent with that id is in wave w |
| `SwarmOrchestrator.IdsInWaveEmpty` | scripts/swarm-orchestrator.py:158 | a wave no agent uses lists nobody, so an agent after a missing wave depends on nobody |
| `SwarmOrchestrator.GroupByWave` | scripts/swarm-orchestrator.py:148-152 | the first loop of `generate_dependencies` lists, for every wave, exactly its agents in order |
| `SwarmOrchestrator.WavesListed` | scripts/swarm-orchestrator.py:155-160 | the list read from the grouped waves for an agent is the previous wave's agents, or none in wave 1 |
| `SwarmOrchestrator.DepsAfterStep` | scripts/swarm-orchestrator.py:154-160 | entering one more agent sets its entry to the list the loop reads |
| `SwarmOrchestrator.DepsAfterKeys` | scripts/swarm-orchestrator.py:154-160 | after n agents, exactly their ids have an entry |
| `SwarmOrchestrator.DepsAfterEntry` | scripts/swarm-orchestrator.py:154-160 | an agent whose id no later agent repeats keeps the entry of its own wave |
| `SwarmOrchestrator.GenerateDependencies` | scripts/swarm-orchestrator.py:143-162 | the two loops yield the dependency dict after all agents are entered |
| `SwarmOrchestrator.DepsAfterShape` | scripts/swarm-orchestrator.py:143-162 | every agent has an entry and nothing else does; wave-1 agents depend on nobody and an agent of wave w > 1 on exactly the agents of wave w−1 |
| `SwarmOrchestrator.AssignRoles` | scripts/swarm-orchestrator.py:112-122 | one agent per row of `common_roles[:num_agents]`, with pairwise distinct ids |
| `SwarmOrchestrator.OrganizeWaves` | scripts/swarm-orchestrator.py:125-130 | one pending wave record per wave in use, listing exactly its agents |
| `SwarmOrchestrator.IndexAgents` | scripts/swarm-orchestrator.py:137 | the agents dict has exactly the assigned ids, in assignment order, each with its record |
| `SwarmOrchestrator.DecomposeTask` | scripts/swarm-orchestrator.py:94-140 | the plan holds the assigned agents, their waves, `total_agents`/`total_waves` as their numbers, and the dependencies |
| `SwarmOrchestrator.DecompositionShape` | scripts/swarm-orchestrator.py:102-162 | at most six agents (exactly the count asked for when it is 0 to 6), each listed in its own wave only, wave-1 agents with no dependencies and later ones depending on exactly the previous wave |
| `SwarmOrchestrator.FullTeamHasFourWaves` | scripts/swarm-orchestrator.py:102-109 | with all six roles in use the swarm has waves 1 to 4 |
| `SwarmOrchestrator.WaveManager.constructor` | scripts/swarm-orchestrator.py:245-248 | the manager holds the state and agent configs as read, with no generation written yet |
| `SwarmOrchestrator.WaveManager.IsWaveComplete` | scripts/swarm-orchestrator.py:259-266 | true iff every listed agent of the wave is completed or succeeded (vacuously for an empty wave) |
| `SwarmOrchestrator.WaveManager.AdvanceWave` | scripts/swarm-orchestrator.py:268-291 | advances iff current < total and the current wave is complete; then `current_wave` becomes current+1 and the next wave, if listed, starts running; otherwise nothing changes |
| `SwarmOrchestrator.WaveManager.UpdateAgentStatus` | scripts/swarm-orchestrator.py:293-302 | only the named agent changes (an unknown id changes nothing), and its generation only when the argument is truthy |
| `SwarmOrchestrator.WaveManager.SpawnAgentGeneration` | scripts/swarm-orchestrator.py:304-331 | writes a running generation status with role and focus from the agent's config ("general" and "" by default) and marks the agent running at that generation |
| `SwarmOrchestrator.WaveManager.CheckAllComplete` | scripts/swarm-orchestrator.py:333-338 | true iff every agent is completed or succeeded |
| `SwarmOrchestrator.WaveManager.GetStatusSummary` | scripts/swarm-orchestrator.py:340-355 | `by_status` has one exact count per status name and its counts sum to `total_agents`; `is_complete` iff every agent is completed or succeeded |
| `SwarmOrchestrator.CountStatuses` | scripts/swarm-orchestrator.py:344-347 | the counting loop gives distinct names, the exact count of each status, and counts that sum to the number of agents |
| `SwarmOrchestrator.CountStep` | scripts/swarm-orchestrator.py:346-347 | counting one more agent keeps the counts distinct, exact and summing to the agents seen |
| `SwarmOrchestrator.WithStatusStep` | scripts/swarm-orchestrator.py:346-347 | one more agent adds one to the count of its own status and nothing to the others |
| `SwarmOrchestrator.AdvanceAgreesWithCommand` | scripts/swarm-orchestrator.py:268-277 | the manager's advance test agrees with the wave-manager command's `can_advance_wave` verdict |
| `PromptRenderer.SpaceRun` | scripts/render-prompt.py:105 | the `\s+` run at the start of a text stops at the first non-whitespace character |
| `PromptRenderer.WordRun` | scripts/render-prompt.py:105 | the `(\w+)` run covers only word characters and stops at the first other one |
| `PromptRenderer.TagName` | scripts/render-prompt.py:105 | a matched `\s+(\w+)}}` yields a non-empty word name and a body start inside the text |
| `PromptRenderer.OpenTag` | scripts/render-prompt.py:105 | a matched opening tag yields a word name and a body start past `{{#tag` |
| `PromptRenderer.BlockAt` | scripts/render-prompt.py:105 | a block found at the start of the text covers a non-empty prefix of it |
| `PromptRenderer.BlockWith` | scripts/render-prompt.py:128 | a block opened by a tag word covers a non-empty prefix of the text |
| `PromptRenderer.BodyWith` | scripts/render-prompt.py:105 | the lazy body and its closing tag lie within the rest of the text |
| `PromptRenderer.EachItems` | scripts/render-prompt.py:156-167 | an each-block yields exactly one copy of its body per list item |
| `PromptRenderer.Numbered` | scripts/render-prompt.py:157 | enumerating the items yields one text per item |
| `PromptRenderer.UntilFixedPasses` | scripts/render-prompt.py:120-125 | the nested-if loop runs k ≤ 10 passes, each of which changed the text, and when it stops early the text is a fixpoint of the pass |
| `PromptRenderer.Placeholder` | scripts/render-prompt.py:92 | a placeholder is never empty |
| `PromptRenderer.OpenRun` | scripts/render-prompt.py:176 | the `[^}]+` run stops at the first closing brace |
| `PromptRenderer.NewlineRun` | scripts/render-prompt.py:180 | the newline run covers only newlines and stops at the first other character |
| `PromptRenderer.CollapseNoTriple` | scripts/render-prompt.py:180 | after `\n{3,}` is replaced by two newlines no run of three newlines is left, and a leading non-newline is kept |
| `PromptRenderer.StripNoTriple` | scripts/render-prompt.py:181 | stripping both ends cannot create a run of three newlines |
| `PromptRenderer.CleanupShape` | scripts/render-prompt.py:173-181 | cleaned text has no run of three newlines and neither starts nor ends with whitespace |
| `PromptRenderer.Settle` | scripts/render-prompt.py:120-125 | the loop applies the pass until it changes nothing or the ten-pass budget runs out, returning some k ≤ budget applications |
| `PromptRenderer.TemplateRenderer.constructor` | scripts/render-prompt.py:67-69 | the renderer keeps the template and the variables it was given |
| `PromptRenderer.TemplateRenderer.Render` | scripts/render-prompt.py:71-87 | the output is conditionals, then loops, then substitution, then cleanup of the template, and has no blank-line run of three and no surrounding whitespace |
| `PromptRenderer.TemplateRenderer.ProcessConditionals` | scripts/render-prompt.py:102-142 | up to ten if-passes to a fixpoint, then a single unless-pass |
| `PromptRenderer.TemplateRenderer.SubstituteVariables` | scripts/render-prompt.py:89-100 | every variable's placeholder is replaced in the dict's order |
| `PromptRenderer.OpenTagOf` | scripts/render-prompt.py:105 | the opening tag `{{#tag name}}` is read back as the variable `name` |
| `PromptRenderer.BlockWithOpen` | scripts/render-prompt.py:105 | a block is its opening tag followed by the lazy body scan |
| `PromptRenderer.PlainBody` | scripts/render-prompt.py:128 | a body not holding the closing tag runs exactly up to that tag |
| `PromptRenderer.ElseBody` | scripts/render-prompt.py:105 | an if-body holding `{{else}}` splits there into the if part and the else part |
| `PromptRenderer.IfBody` | scripts/render-prompt.py:105 | an if-body without `{{else}}` has no else part |
| `PromptRenderer.SubAllWhole` | scripts/render-prompt.py:122 | a pass over text that is one whole block yields that block's replacement |
| `PromptRenderer.IfElseSemantics` | scripts/render-prompt.py:107-117 | `{{#if V}}a{{else}}b{{/if}}` becomes a when V holds (a string only when it reads "true") and b otherwise |
| `PromptRenderer.UntilFixedSettles` | scripts/render-prompt.py:121-125 | once a pass reaches a fixpoint the loop stops there |
| `PromptRenderer.IfElseConditionals` | scripts/render-prompt.py:119-125 | the nested-if loop settles on the chosen branch of a lone if/else block |
| `PromptRenderer.IfSemantics` | scripts/render-prompt.py:107-117 | `{{#if V}}a{{/if}}` becomes a when V holds and nothing otherwise |
| `PromptRenderer.UnlessSemantics` | scripts/render-prompt.py:130-140 | `{{#unless V}}a{{/unless}}` becomes nothing when V holds and a otherwise |
| `PromptRenderer.EachSemantics` | scripts/render-prompt.py:148-171 | `{{#each L}}body{{/each}}` becomes the item copies joined by newlines when L is a list, and nothing otherwise |
| `PromptRenderer.EachItemsAt` | scripts/render-prompt.py:157-167 | the copy at position i is the i-th item's own text, numbered from 1 |
| `PromptRenderer.NumberedAt` | scripts/render-prompt.py:157 | `enumerate` pairs the i-th item with the index from + i |
| `PromptRenderer.IndexNumbering` | scripts/render-prompt.py:166 | `{{@index}}` in a copy shows the item's position counted from 1 |
| `PromptRenderer.SubstitutedNoBrace` | scripts/render-prompt.py:89-100 | substitution leaves text without braces unchanged |
| `PromptRenderer.SubstituteOne` | scripts/render-prompt.py:92-99 | a placeholder between brace-free text is replaced by its value's rendering (lists and dicts as indented JSON, booleans lower-case, None empty) |
| `PromptRenderer.SubAllAbsent` | scripts/render-prompt.py:122 | text without a block's opening passes through a block pass unchanged |
| `PromptRenderer.SubAllNoBrace` | scripts/render-prompt.py:140 | brace-free text passes through every block pass unchanged |
| `PromptRenderer.RenderIfElse` | scripts/render-prompt.py:71-87 | an if/else template with brace-free branches renders to the cleaned chosen branch |
| `PromptRenderer.RenderPlain` | scripts/render-prompt.py:71-87 | brace-free text is only cleaned |
| `PromptRenderer.AsVars` | scripts/render-prompt.py:219-242 | the variables dict has its seventeen keys |
| `PromptRenderer.SubtaskOf` | scripts/render-prompt.py:231-233 | a phase given as text is a pending, normal-priority subtask of that name; only text and dicts are accepted |
| `PromptRenderer.SubtasksOf` | scripts/render-prompt.py:230-235 | the subtask list has one entry per remaining phase, in order, and fails iff some phase is neither text nor a dict |
| `PromptRenderer.CurrentSubtask` | scripts/render-prompt.py:212-217 | with no remaining phases the current subtask is the objective; otherwise a first phase given as text is the current subtask |
| `PromptRenderer.Patterns` | scripts/render-prompt.py:238-239 | without knowledge the patterns are empty; otherwise they are the first at most five of the stored list |
| `PromptRenderer.BuildVariables` | scripts/render-prompt.py:188-244 | a missing or empty state is an error; generation, next and parent generation, the first-generation flag, the initial context, the transfer document and the agent id follow the generation number |
| `PromptRenderer.AgentNumberShape` | scripts/render-prompt.py:241 | the agent number is the dash-free text after the id's first dash, or "1" for an id without a dash |
| `PromptRenderer.FirstGenerationVariables` | scripts/render-prompt.py:211-237 | the first generation has no subtasks and no transfer document, and its current subtask and initial context are the objective |
| `PromptRenderer.TransferredSubtasks` | scripts/render-prompt.py:206-236 | a later generation takes its subtasks, in order, from the parent's remaining phases, the first being the current subtask, and embeds the transfer document |
| `FileTracker.Untouched` | resources/dashboard/server/file_tracker.py:20-28 | a new file state starts at position 0, never read, with no errors |
| `FileTracker.Find` | resources/dashboard/server/file_tracker.py:60-64 | the lookup finds the state stored under the path, and fails exactly when the path is untracked |
| `FileTracker.Oldest` | resources/dashboard/server/file_tracker.py:132-135 | the evicted entry has the least `last_read` (never read counting as oldest), and is the first such in dict order |
| `FileTracker.Without` | resources/dashboard/server/file_tracker.py:136 | deleting one entry leaves one fewer |
| `FileTracker.Capacity` | resources/dashboard/server/file_tracker.py:128-136 | below the bound nothing changes; at or above it the oldest entry is deleted; `min` of an empty dict raises exactly when the bound is not positive and nothing is tracked |
| `FileTracker.ReadFrom` | resources/dashboard/server/file_tracker.py:77-80 | seeking within the text reads the rest and ends at its length; seeking past the end reads nothing and stays put |
| `FileTracker.Refresh` | resources/dashboard/server/file_tracker.py:66-89 | unchanged size and mtime return nothing; otherwise a shrunk file is re-read from 0, the rest from the stored position is returned, stat, read time and line count are updated and the error count cleared; a failed open counts an error |
| `FileTracker.CountCharAppend` | resources/dashboard/server/file_tracker.py:87 | newline counts add up over concatenated text |
| `FileTracker.TwoPolls` | resources/dashboard/server/file_tracker.py:43-89 | two polls of an append-only file deliver, end to end, exactly the text after the starting position, and the line count keeps up |
| `FileTracker.ShrunkRestarts` | resources/dashboard/server/file_tracker.py:70-74 | a truncated file is delivered again from its beginning with the line count started over |
| `FileTracker.Loaded` | resources/dashboard/server/file_tracker.py:107-112 | the initial load moves the position to the end of the text and stamps the read time, leaving size, mtime and counters as they were |
| `FileTracker.LoadThenPoll` | resources/dashboard/server/file_tracker.py:43-115 | after the initial load, a poll that finds the file changed delivers exactly what was appended since, and a poll of the same text delivers nothing |
| `FileTracker.Store` | resources/dashboard/server/file_tracker.py:64 | updating a state keeps the set of tracked paths and their uniqueness |
| `FileTracker.CountError` | resources/dashboard/server/file_tracker.py:91-93 | counting an error keeps the set of tracked paths |
| `FileTracker.FilePositionTracker.constructor` | resources/dashboard/server/file_tracker.py:38-41 | a new tracker tracks nothing and keeps its bound |
| `FileTracker.FilePositionTracker.EnsureCapacity` | resources/dashboard/server/file_tracker.py:128-136 | the tracked files become those `Capacity` gives, or stay unchanged when `min` raises |
| `FileTracker.FilePositionTracker.Track` | resources/dashboard/server/file_tracker.py:59-64 | get or create the path's state, making room first for a new path |
| `FileTracker.FilePositionTracker.GetNewContent` | resources/dashboard/server/file_tracker.py:43-95 | a missing file returns nothing; a failed stat counts an error on a tracked file; otherwise the tracked state is refreshed as `Refresh` says; new content is reported iff it is non-empty |
| `FileTracker.FilePositionTracker.GetAllContent` | resources/dashboard/server/file_tracker.py:97-115 | a missing or unreadable file, or a raising `_ensure_capacity`, returns nothing and changes nothing; otherwise the whole text is returned and the file's state (created if untracked) is `Loaded`: position at the end, read time stamped |
| `FileTracker.FilePositionTracker.ResetPosition` | resources/dashboard/server/file_tracker.py:117-121 | a tracked file's position goes back to 0 and nothing else changes |
| `FileTracker.FilePositionTracker.Clear` | resources/dashboard/server/file_tracker.py:138-141 | nothing stays tracked |
| `FileTracker.Tracked` | resources/dashboard/server/file_tracker.py:59-64 | the result holds a state for the path; a tracked path keeps its own |
| `FileTracker.AdmitsWithinBound` | resources/dashboard/server/file_tracker.py:60-62 | a tracker within its bound stays within it after admitting a new file, and a full one drops exactly one entry of least age |
| `FileTracker.MtimeKeysOfFile` | resources/dashboard/server/file_tracker.py:191-227 | for paths without a colon, a composite key belongs to a file exactly when it was made from that file |
| `FileTracker.ColonPathsShareEntries` | resources/dashboard/server/file_tracker.py:224 | a path holding a colon (`out:1`) has keys that `invalidate_file("out")` also removes |
| `FileTracker.Remove` | resources/dashboard/server/file_tracker.py:184 | `list.remove` drops one element when present and changes nothing otherwise |
| `FileTracker.RemoveDistinct` | resources/dashboard/server/file_tracker.py:184 | in a duplicate-free list, `remove` takes out exactly that element |
| `FileTracker.OfFileKeys` | resources/dashboard/server/file_tracker.py:224 | `keys_to_remove` holds exactly the cached keys that start with the path and a colon |
| `FileTracker.DropMembers` | resources/dashboard/server/file_tracker.py:225-227 | after the removal loop, an element is left iff it was present and not removed |
| `FileTracker.DropDistinct` | resources/dashboard/server/file_tracker.py:225-227 | the access order stays duplicate-free |
| `FileTracker.DropOneMore` | resources/dashboard/server/file_tracker.py:227 | each loop iteration removes one more key |
| `FileTracker.DropOfFile` | resources/dashboard/server/file_tracker.py:224-227 | removing exactly the file's keys leaves the other files' keys, in order |
| `FileTracker.MinusSize` | resources/dashboard/server/file_tracker.py:226 | deleting keys never grows the cache |
| `FileTracker.DeleteKeys` | resources/dashboard/server/file_tracker.py:225-227 | the loop deletes every listed key from both the dict and the access order |
| `FileTracker.DeletedInStep` | resources/dashboard/server/file_tracker.py:221-227 | deleting listed keys from both keeps the access order and the cache in step |
| `FileTracker.HitRate` | resources/dashboard/server/file_tracker.py:246-247 | the hit rate is a percentage; it is 100 iff there were hits and no misses, and 0 iff there were no hits |
| `FileTracker.LruTouch` | resources/dashboard/server/file_tracker.py:179-207 | a hit, or a set of a cached key, moves the key to the end and keeps the cache invariant |
| `FileTracker.LruAdd` | resources/dashboard/server/file_tracker.py:206-207 | a new key below the bound is appended and keeps the invariant |
| `FileTracker.LruEvict` | resources/dashboard/server/file_tracker.py:201-207 | a new key at the bound evicts the least recently used key and keeps the invariant |
| `FileTracker.LruRemove` | resources/dashboard/server/file_tracker.py:214-219 | invalidating a cached key keeps the invariant |
| `FileTracker.BoundedParseCache.constructor` | resources/dashboard/server/file_tracker.py:171-177 | a new cache is empty with zeroed counters |
| `FileTracker.BoundedParseCache.Get` | resources/dashboard/server/file_tracker.py:179-189 | a hit returns the value, moves the key to the most recent end and counts a hit; a miss changes nothing but the miss count |
| `FileTracker.BoundedParseCache.GetWithMtime` | resources/dashboard/server/file_tracker.py:191-194 | `get` under the key `path:mtime`, with all its effects: a hit returns the value, moves the key to the most recent end and counts a hit; a miss changes nothing but the miss count |
| `FileTracker.BoundedParseCache.Set` | resources/dashboard/server/file_tracker.py:196-207 | a cached key is updated and moved to the end; a new key is appended, evicting the least recently used at the bound; popping an empty order raises only for a non-positive bound |
| `FileTracker.BoundedParseCache.SetWithMtime` | resources/dashboard/server/file_tracker.py:209-212 | `set` under the key `path:mtime`, with all its effects: a cached key is refreshed and moved to the end; a new key is appended, evicting the least recently used one when full; an empty cache with a bound that is not positive raises and nothing changes; the counters stay |
| `FileTracker.BoundedParseCache.Invalidate` | resources/dashboard/server/file_tracker.py:214-219 | the key leaves both the cache and the access order |
| `FileTracker.BoundedParseCache.InvalidateFile` | resources/dashboard/server/file_tracker.py:221-227 | exactly the keys starting with the path and a colon leave the cache; the rest keep their values and order |
| `FileTracker.BoundedParseCache.Clear` | resources/dashboard/server/file_tracker.py:229-235 | cache, order and counters start over |
| `FileTracker.BoundedParseCache.Stats` | resources/dashboard/server/file_tracker.py:243-254 | size, bound, hits, misses and hit rate are reported, and the size is within a positive bound |
| `OutputParser.Slice` | resources/dashboard/server/output_parser.py:198-203 | `v[:n]` succeeds exactly on strings and lists, is at most n long, and leaves a value no longer than n unchanged |
| `OutputParser.ParseNdjsonLineAsWritten` | resources/dashboard/server/output_parser.py:39-49 | a blank line gives None; otherwise the stripped line is decoded |
| `OutputParser.ParseNdjsonLine` | resources/dashboard/server/output_parser.py:39-49 | the line as an event: the decoded value when it is a dict, nothing otherwise; this is the corrected step, which skips a decoded value that is not a dict where the code raises (see "## Findings") |
| `OutputParser.ToolUses` | resources/dashboard/server/output_parser.py:102-104 | one tool call per `tool_use` dict among the content items |
| `OutputParser.ExtractAllTools` | resources/dashboard/server/output_parser.py:86-116 | a `tool_use` event is one call; an `assistant` event holds the calls in its content list and in its message's content list; any other event holds none |
| `OutputParser.CheckCompletionMarkers` | resources/dashboard/server/output_parser.py:137-143 | the loop answers true iff some completion marker occurs in the text, ignoring case |
| `OutputParser.MarkerIgnoresCase` | resources/dashboard/server/output_parser.py:137-143 | lower-casing the text does not change whether a marker is found |
| `OutputParser.InputSummary` | resources/dashboard/server/output_parser.py:164-176 | the content line of a tool call is text |
| `OutputParser.FirstText` | resources/dashboard/server/output_parser.py:195-199 | the text of the first `text` item is cut to the maximum length |
| `OutputParser.Describe` | resources/dashboard/server/output_parser.py:155-203 | the kind is one of tool, result, thinking, text, unknown, the content has a length, and only the tool_use, assistant and text branches can raise |
| `OutputParser.FormatEvent` | resources/dashboard/server/output_parser.py:146-209 | the entry keeps the event's timestamp (or the clock's), its kind is one of the five, and its content is at most the maximum length plus the three-dot ellipsis |
| `OutputParser.PushLive` | resources/dashboard/server/output_parser.py:299-303 | only an entry with content goes in, at the end, and the feed keeps at most `MAX_LIVE_EVENTS` entries, dropping the oldest |
| `OutputParser.NoteTimestamp` | resources/dashboard/server/output_parser.py:231-240 | the last activity never moves backwards; only a comparison of a naive with an aware time raises |
| `OutputParser.NoteFile` | resources/dashboard/server/output_parser.py:255-263 | a Write adds its path to `files_created`, an Edit to `files_modified`, each list staying duplicate-free |
| `OutputParser.NoteTool` | resources/dashboard/server/output_parser.py:251-271 | the tool's count goes up by one and nothing but the counts, file lists and current task changes; an unhashable name or a non-iterable `todos` raises |
| `OutputParser.NoteTools` | resources/dashboard/server/output_parser.py:251-271 | the counts' total grows by the number of tool calls of the event |
| `OutputParser.Fallback` | resources/dashboard/server/output_parser.py:273-285 | the fallback changes only the counts and file lists |
| `OutputParser.NoteError` | resources/dashboard/server/output_parser.py:292-296 | an error message is recorded only when it is text shorter than 200 characters |
| `OutputParser.Opened` | resources/dashboard/server/output_parser.py:229-247 | each event counts once and changes only the counters and the last activity |
| `OutputParser.Tooled` | resources/dashboard/server/output_parser.py:249-285 | the tool calls change only the counts, file lists and current task, keeping the accumulator's invariant |
| `OutputParser.Closed` | resources/dashboard/server/output_parser.py:287-303 | the completion flag becomes set iff it was or the event's JSON holds a marker |
| `OutputParser.AddEvent` | resources/dashboard/server/output_parser.py:229-303 | one event adds one to the event count, leaves the line count and estimate alone, sets the completion flag as the markers say and keeps the invariant |
| `OutputParser.AddEventLive` | resources/dashboard/server/output_parser.py:298-303 | an event that goes through pushes its formatted entry onto the live feed |
| `OutputParser.FoldStep` | resources/dashboard/server/output_parser.py:224 | one more line runs the loop body once more on what the loop had |
| `OutputParser.LineStepFacts` | resources/dashboard/server/output_parser.py:224-303 | one run of the body counts one event for an event line and sets the flag for a marked one |
| `OutputParser.LinesCount` | resources/dashboard/server/output_parser.py:224-229 | the loop counts one event per line that decodes to a non-empty dict; this is the corrected step, which skips a decoded value that is not a dict where the code raises (see "## Findings") |
| `OutputParser.LinesMarked` | resources/dashboard/server/output_parser.py:287-290 | the loop ends marked iff it started marked or some event line carries a marker; this is the corrected step, which skips a decoded value that is not a dict where the code raises (see "## Findings") |
| `OutputParser.LinesWell` | resources/dashboard/server/output_parser.py:224-303 | the loop keeps the accumulator's invariant: duplicate-free file lists, distinct tool keys, a bounded live feed, short errors |
| `OutputParser.FoldCounts` | resources/dashboard/server/output_parser.py:224-229 | any loop body that counts once per event line counts the event lines |
| `OutputParser.FoldMarks` | resources/dashboard/server/output_parser.py:287-290 | any loop body that marks per line ends marked iff some line is marked |
| `OutputParser.FoldWell` | resources/dashboard/server/output_parser.py:224-303 | any loop body that keeps the invariant keeps it over all lines |
| `OutputParser.PushLiveKeepsLast` | resources/dashboard/server/output_parser.py:300-303 | within the limit, pushing keeps the last `MAX_LIVE_EVENTS` of the feed with the entry added when it has content |
| `OutputParser.LiveAccumulate` | resources/dashboard/server/output_parser.py:298-303 | after the loop the feed is the last `MAX_LIVE_EVENTS` of the old feed followed by the lines' entries; this is the corrected step, which skips a decoded value that is not a dict where the code raises (see "## Findings") |
| `OutputParser.FoldLive` | resources/dashboard/server/output_parser.py:298-303 | a body that trims after each push gives the trimmed concatenation of all entries |
| `OutputParser.LineStepLive` | resources/dashboard/server/output_parser.py:298-303 | one line adds its entry, if any, to the live feed |
| `OutputParser.EventLive` | resources/dashboard/server/output_parser.py:298-303 | an event adds its entry, if it has content, to the live feed |
| `OutputParser.FoldErrSticky` | resources/dashboard/server/output_parser.py:224-303 | once the loop has raised on a prefix of the lines, the exception ends the parse |
| `OutputParser.ParseOutputContent` | resources/dashboard/server/output_parser.py:212-308 | the parse is the loop over the newline-split lines from the given or fresh accumulator, with the lines counted first and the estimate stored last; this is the corrected step, which skips a decoded value that is not a dict where the code raises (see "## Findings") |
| `OutputParser.RunLines` | resources/dashboard/server/output_parser.py:224-303 | the loop runs the body on each line in turn and stops at the first exception |
| `OutputParser.ParseCounts` | resources/dashboard/server/output_parser.py:219-229 | a parse adds the number of lines to the line count and the number of event lines to the event count; this is the corrected step, which skips a decoded value that is not a dict where the code raises (see "## Findings") |
| `OutputParser.ParseEstimate` | resources/dashboard/server/output_parser.py:305-306 | the stored estimate is the estimate of the fields the parse ends with |
| `OutputParser.ParseWell` | resources/dashboard/server/output_parser.py:212-308 | a parse keeps a well-formed accumulator well-formed |
| `OutputParser.ParseLive` | resources/dashboard/server/output_parser.py:298-303 | the live feed after a parse is the last `MAX_LIVE_EVENTS` of the old feed followed by the lines' entries; this is the corrected step, which skips a decoded value that is not a dict where the code raises (see "## Findings") |
| `OutputParser.EstimateProgress` | resources/dashboard/server/output_parser.py:311-334 | the estimate is in [0, 100], 100 iff a completion marker was seen, and at most 95 without one |
| `OutputParser.EstimateIgnoresEstimate` | resources/dashboard/server/output_parser.py:311-334 | the estimate does not depend on the previously stored estimate |
| `OutputParser.ProgressMonotone` | resources/dashboard/server/output_parser.py:319-334 | more tool calls, more files, a task or a marker never lower the estimate |
| `OutputParser.ProgressSaturates` | resources/dashboard/server/output_parser.py:319-334 | twenty tool calls, four created and five modified files and a current task reach the 95 cap |
| `OutputParser.ActivitySummary` | resources/dashboard/server/output_parser.py:428-449 | the current task first, then "Task completed"; then, for the latest live entry, "Using <tool>" when it names a tool, else its content cut to 80 characters with "..." exactly when the content is longer; then "Working... (N tool calls)" with the total count, or "Initializing..." when no tool was called; never empty, and a non-text content that cannot be cut raises |
| `OutputParser.NonObjectLineRaises` | resources/dashboard/server/output_parser.py:224-232 | a line holding a bare number raises in the loop as written; the corrected loop skips it |
| `OutputParser.LineStepSkipsNonObjects` | resources/dashboard/server/output_parser.py:224-232 | where the loop as written goes on the corrected loop agrees with it, and a non-object line changes nothing |
| `OutputParser.KeysAfterInc` | resources/dashboard/server/output_parser.py:252 | counting a hashable tool name keeps the count keys distinct |
| `GasStatus.DetermineAgentStatus` | resources/dashboard/server/gas_status.py:358-382 | the status is one of completed, idle, running, pending; completed iff a marker was seen or more than 20 events and no activity past the completion threshold; pending iff nothing was ever seen; running iff the last activity is within the idle threshold |
| `GasStatus.StatusAges` | resources/dashboard/server/gas_status.py:358-382 | as time passes without new output an agent never returns to running, a completed one stays completed, and pending does not depend on the time |
| `GasStatus.SumProgress` | resources/dashboard/server/gas_status.py:389 | the progress sum is non-negative for non-negative progress values and at least 100 per agent when all are at 100 |
| `GasStatus.CountCompleted` | resources/dashboard/server/gas_status.py:390 | the number of completed agents is at most the number of agents, and all of them when all are completed |
| `GasStatus.Trunc` | resources/dashboard/server/gas_status.py:396 | `int()` of a float truncates toward zero |
| `GasStatus.ProgressTerms` | resources/dashboard/server/gas_status.py:393-394 | the mean-progress and completion terms add to at least 0, and to at least 100 when all agents are complete at full progress |
| `GasStatus.OverallProgress` | resources/dashboard/server/gas_status.py:384-396 | no agents give 0; the figure is at most 100, not negative for non-negative progress values, and 100 when every agent has completed at full progress |
| `GasStatus.FindWave` | resources/dashboard/server/gas_status.py:405 | the lookup finds the record of the wave, and fails only when no record has that wave |
| `GasStatus.OrganizedStep` | resources/dashboard/server/gas_status.py:402-422 | one more agent runs the loop body once more on the records the loop had |
| `GasStatus.WaveOfAbsent` | resources/dashboard/server/gas_status.py:405-414 | a wave no agent belongs to has an empty record |
| `GasStatus.PlaceKeys` | resources/dashboard/server/gas_status.py:405-418 | placing an agent keeps existing records in place and adds one at the end exactly for a new wave |
| `GasStatus.OrganizedDistinct` | resources/dashboard/server/gas_status.py:398-424 | no wave has two records |
| `GasStatus.OrganizedCovers` | resources/dashboard/server/gas_status.py:402-418 | every agent's wave has a record |
| `GasStatus.OrganizedOccupied` | resources/dashboard/server/gas_status.py:402-418 | every record belongs to the wave of some agent |
| `GasStatus.OrganizedMeaning` | resources/dashboard/server/gas_status.py:398-424 | each record holds exactly the ids of its wave's agents in dict order, their number and the number per status |
| `GasStatus.MembersHas` | resources/dashboard/server/gas_status.py:417 | an id is listed under a wave iff some agent with that id is in that wave |
| `GasStatus.StatusCountsBounded` | resources/dashboard/server/gas_status.py:418-422 | the status counters never exceed the total, and add up to it when every status is one of the four |
| `GasStatus.EveryAgentInOneWave` | resources/dashboard/server/gas_status.py:398-424 | with distinct agent ids each agent is listed in exactly one record, that of its own wave |
| `GasStatus.OrganizeByWaves` | resources/dashboard/server/gas_status.py:398-424 | the loop builds the records in order of first appearance, and raises iff some wave cannot be a dict key |
| `GasStatus.PlaceAgent` | resources/dashboard/server/gas_status.py:403-422 | the loop body creates the wave's record when new, then lists and counts the agent |
| `GasStatus.PathPieces` | resources/dashboard/server/gas_status.py:318 | no path component holds a slash |
| `GasStatus.RootIsNoAgent` | resources/dashboard/server/gas_status.py:318-323 | the root `/` of an absolute path never names an agent |
| `GasStatus.FirstAgentPart` | resources/dashboard/server/gas_status.py:319-323 | the first component that starts with `a` and has seven characters, or contains "agent" in any case, and none before it does |
| `GasStatus.AgentIdOf` | resources/dashboard/server/gas_status.py:316-326 | the id is the first agent-like component or else the parent directory's name; either way it holds no slash |
| `GasStatus.ExtractAgentId` | resources/dashboard/server/gas_status.py:316-326 | the loop over the path's components finds that id |
| `GasStatus.GenerationOf` | resources/dashboard/server/gas_status.py:434-443 | an agent yields an entry iff its generation (default 1) is above 1; a non-dict record or a generation that does not compare with 1 raises |
| `GasStatus.Collected` | resources/dashboard/server/gas_status.py:432-443 | the collected entries are exactly the later-generation agents; the first bad record raises |
| `GasStatus.ByGenerationThenIdIsOrder` | resources/dashboard/server/gas_status.py:445 | ordering by generation and then id is a strict weak order |
| `GasStatus.DetectAgentGenerations` | resources/dashboard/server/gas_status.py:427-445 | exactly the agents of generation above 1, each once, sorted by generation and then id |
| `GasStatus.Tag` | resources/dashboard/server/gas_status.py:165-166 | each passed-on entry is tagged with the agent id |
| `GasStatus.Emitted` | resources/dashboard/server/gas_status.py:164-168 | at most ten entries are passed on per change |
| `GasStatus.Absorb` | resources/dashboard/server/gas_status.py:152-168 | the new-events buffer only grows |
| `GasStatus.SweepFeedsBoth` | resources/dashboard/server/gas_status.py:152-168 | every event the loop passes on reaches both buffers in the same order |
| `GasStatus.SweepStep` | resources/dashboard/server/gas_status.py:152 | one more file runs the loop body once more |
| `GasStatus.SweepRaisedSticky` | resources/dashboard/server/gas_status.py:152-168 | once a parse raises, the remaining files are not looked at |
| `GasStatus.Trim` | resources/dashboard/server/gas_status.py:170-172 | a recent-events buffer past twice the limit drops to its newest `MAX_LIVE_EVENTS`, so it never ends above twice the limit |
| `GasStatus.Checked` | resources/dashboard/server/gas_status.py:138-175 | the check is the loop over the files, then the trim when no parse raised; the entries passed on are the corrected ones (`Emitted`: only what the new text yields), see "## Findings" |
| `GasStatus.Gatherer.constructor` | resources/dashboard/server/gas_status.py:38-60 | the gatherer starts with no parse results and empty buffers |
| `GasStatus.Gatherer.GetRecentEvents` | resources/dashboard/server/gas_status.py:128-130 | the newest `MAX_LIVE_EVENTS` entries of the recent-events buffer |
| `GasStatus.Gatherer.GetNewEvents` | resources/dashboard/server/gas_status.py:132-136 | the buffered events, leaving the buffer empty and nothing else changed |
| `GasStatus.Gatherer.AbsorbOutput` | resources/dashboard/server/gas_status.py:153-168 | one changed file is absorbed as `Absorb` says, passing on the corrected entries (`Emitted`, see "## Findings"), or nothing changes when its parse raises |
| `GasStatus.Gatherer.CheckForChanges` | resources/dashboard/server/gas_status.py:138-175 | the state after the check is `Checked`, with the corrected entries passed on (see "## Findings"); changes are reported iff the state file or some output file changed |
| `GasStatus.Gatherer.SweepOutputs` | resources/dashboard/server/gas_status.py:150-168 | the loop over the output files gives `Sweep`, which folds the corrected `Absorb` (see "## Findings"), and reports a change iff some file changed |
| `GasStatus.ReemitsOnEventlessChange` | resources/dashboard/server/gas_status.py:159-168 | as written a change yielding no new entry still passes on the last entries of the agent's old feed; the corrected check passes on none |
| `GasStatus.BlankLineIsEventless` | resources/dashboard/server/gas_status.py:159-160 | a change adding one blank line yields no live entry and parses |
| `GasStatus.SplitNewline` | resources/dashboard/server/gas_status.py:160 | a lone newline splits into two empty lines |
| `GasStatus.BlankLineSkipped` | resources/dashboard/server/gas_status.py:160 | the parse loop skips an empty line and yields no entry for it |
| `GasStatus.AsWrittenMixesOldEntries` | resources/dashboard/server/gas_status.py:159-168 | the corrected check passes on the newest ten entries of the new text only; as written, entries from the earlier feed fill up the ten |
| `Http.Lookup` | resources/dashboard/server/http_handler.py:353-357 | `d.get(key)` finds the key's value, and None exactly when the key is absent |
| `Http.AssignLookup` | resources/dashboard/server/http_handler.py:377-379 | after `d[key] = value` the key holds the value and every other key what it held |
| `Http.AssignUnique` | resources/dashboard/server/http_handler.py:377-379 | assigning keeps the dict's keys unique |
| `Http.RFind` | resources/dashboard/server/http_handler.py:45 | `rfind` gives the last position of the character, or -1 |
| `Http.ExtensionShape` | resources/dashboard/server/http_handler.py:45 | an extension is empty or a dot followed by a suffix of the path with no further dot or slash |
| `Http.DefaultType` | resources/dashboard/server/http_handler.py:43-46 | the octet-stream default is given exactly to the extensions the table does not know |
| `Http.LowerIdempotent` | resources/dashboard/server/http_handler.py:45 | lower-casing twice is lower-casing once |
| `Http.ExtensionOfLower` | resources/dashboard/server/http_handler.py:45 | the extension of the lower-cased path is the lower-cased extension |
| `Http.ContentTypeIgnoresCase` | resources/dashboard/server/http_handler.py:43-46 | a path and its lower-cased form have the same content type |
| `Http.NamedExtension` | resources/dashboard/server/http_handler.py:23-46 | a name with a stem and an extension, in any folder, has that extension and the table's type for it |
| `Http.DotfileHasNoType` | resources/dashboard/server/http_handler.py:45-46 | a name that is only a dot and an extension, such as `.png`, has no extension and gets the octet-stream type |
| `Http.AgentId` | resources/dashboard/server/http_handler.py:89 | the agent id holds no `/api/agent/` and does not end with a slash |
| `Http.FixedRoutesAreNotAgents` | resources/dashboard/server/http_handler.py:82-92 | none of the fixed routes starts with the agent prefix |
| `Http.RouteOf` | resources/dashboard/server/http_handler.py:81-96 | a path not starting with a slash is not found; the agent route is chosen iff the path starts with `/api/agent/`; the static route gets every other slash path |
| `Http.AgentRoundTrip` | resources/dashboard/server/http_handler.py:88-90 | an id without the prefix and without a trailing slash is routed back to itself |
| `Http.Sanitise` | resources/dashboard/server/http_handler.py:125 | the sanitised path holds no `..` |
| `Http.ReplaceLeavesNoDots` | resources/dashboard/server/http_handler.py:125 | deleting every `..` from left to right leaves none |
| `Http.SanitisedCanEscape` | resources/dashboard/server/http_handler.py:124-133 | sanitising alone does not keep a path inside the folder: `/..` then an absolute path becomes that absolute path, so the containment check is what keeps it in |
| `Http.JsonResponse` | resources/dashboard/server/http_handler.py:197-211 | a JSON response has the given code, the JSON content type, `no-cache`, and the data's indented JSON text as its body |
| `Http.ServeStatic` | resources/dashboard/server/http_handler.py:122-150 | 200 exactly for an existing regular file whose resolved path lies inside the resolved folder and that can be read, with its bytes, its extension's type and an hour of caching; any other file is 404 `Not Found`; a read error is 500 with its text |
| `Http.ServeIndex` | resources/dashboard/server/http_handler.py:98-120 | the index page with the HTML type when it reads; 500 with the error's text when reading it fails; the placeholder page when there is none |
| `Http.Respond` | resources/dashboard/server/http_handler.py:71-219 | the code is 200, 404 or 500; `/` and `/index.html` serve the index; `/health` is the health record; `/api/status` and `/api/events` are the gatherer's answers or 500 with the error's text; `/api/agent/<id>` is the agent's details, 404 for an unknown agent or 500; other paths are static files, served only from inside the folder; an unroutable path is 404 |
| `Http.RequestLine` | resources/dashboard/server/http_handler.py:333-339 | a line of fewer than two space-separated parts is refused; the path keeps no query |
| `Http.FirstPiece` | resources/dashboard/server/http_handler.py:339 | the text before the first `?` is the first piece of the split |
| `Http.RequestLineRoundTrip` | resources/dashboard/server/http_handler.py:333-339 | a request line of a method, a path with a query and a version gives back the method and the path |
| `Http.Terminator` | resources/dashboard/server/http_handler.py:343-349 | the header loop stops at the first blank line or the end of the stream |
| `Http.HeaderLine` | resources/dashboard/server/http_handler.py:350-353 | a header line is used iff it holds a colon |
| `Http.FieldsLastValue` | resources/dashboard/server/http_handler.py:341-353 | a later header line with the same key overrides an earlier one |
| `Http.FieldsUnique` | resources/dashboard/server/http_handler.py:341-353 | the header dict never holds a key twice |
| `Http.HeaderLineRoundTrip` | resources/dashboard/server/http_handler.py:350-382 | a header line as the server writes one reads back as its lower-cased key and its value |
| `Http.ReadFieldsFold` | resources/dashboard/server/http_handler.py:343-353 | reading from the front gives the dict of the header lines before the end of the headers |
| `Http.ReadFieldsStep` | resources/dashboard/server/http_handler.py:343-353 | a header line before the end is read into the dict and the loop goes on |
| `Http.ReadFieldsDone` | resources/dashboard/server/http_handler.py:348-349 | at the end of the headers the loop stops |
| `Http.ReadHeaders` | resources/dashboard/server/http_handler.py:341-353 | the header loop gives the dict of the lines before the blank line |
| `Http.ReadUntilBlank` | resources/dashboard/server/http_handler.py:343-353 | the loop runs its body on each line until the end of the headers |
| `Http.StatusText` | resources/dashboard/server/http_handler.py:370-374 | the reason is "Unknown" exactly for codes other than 200, 404 and 500 |
| `Http.FinishedHeaders` | resources/dashboard/server/http_handler.py:377-379 | the sent headers hold the body's length, `close` and `*`, every other header as the handler set it, and no key twice |
| `Http.HeaderLines` | resources/dashboard/server/http_handler.py:381-382 | one line per header |
| `Http.HeadShape` | resources/dashboard/server/http_handler.py:376-385 | the head starts with the status line and ends with an empty line |
| `Http.HeadStarts` | resources/dashboard/server/http_handler.py:376-385 | the head starts with the status line |
| `Http.HeadEnds` | resources/dashboard/server/http_handler.py:384-385 | the head ends with CRLF CRLF |
| `Http.WireShape` | resources/dashboard/server/http_handler.py:385-388 | what is written starts with the status line and carries the body unchanged after the head |
| `Http.ParseIntNatToString` | resources/dashboard/server/http_handler.py:357-377 | a written length reads back as the same number |
| `Http.LengthHeaderReadsBack` | resources/dashboard/server/http_handler.py:357-382 | the length header the server writes reads back, through the request header parser, as the body's length |
| `Http.HandleClient` | resources/dashboard/server/http_handler.py:318-389 | nothing is written for an empty stream, a request line of fewer than two parts or a malformed `content-length`; otherwise the handler's response with its head, whose status always has a known reason |
| `StandaloneCache.Poll` | resources/gas-dashboard-server-standalone.py:2168-2193 | unchanged size and mtime give nothing; otherwise what the tracker then remembers is the stat it saw |
| `StandaloneCache.AppendedOnly` | resources/gas-dashboard-server-standalone.py:2172-2193 | a file read to its end that has only grown yields exactly the appended text |
| `StandaloneCache.ShrunkRereads` | resources/gas-dashboard-server-standalone.py:2176-2178 | a file that shrank is read again from its start |
| `StandaloneCache.TwoPolls` | resources/gas-dashboard-server-standalone.py:2163-2193 | two polls of a growing file return, together, the text after the first poll's position |
| `StandaloneCache.FilePositionTracker.constructor` | resources/gas-dashboard-server-standalone.py:2158-2161 | the tracker starts with three empty dicts |
| `StandaloneCache.FilePositionTracker.GetNewContent` | resources/gas-dashboard-server-standalone.py:2163-2196 | a missing file or a failed stat gives None and changes nothing; otherwise the file's entry becomes what `Poll` remembers, the three dicts staying in step |
| `StandaloneCache.FilePositionTracker.Reset` | resources/gas-dashboard-server-standalone.py:2198-2207 | a non-empty path forgets that file only; no path or an empty one forgets all |
| `StandaloneCache.FilePositionTracker.GetFullContent` | resources/gas-dashboard-server-standalone.py:2209-2223 | the whole text, after which position and size are the reported size and the mtime is remembered; a failure changes nothing |
| `StandaloneCache.Find` | resources/gas-dashboard-server-standalone.py:2242 | `dict.get` finds the value stored beside the key, and None exactly when the key is absent |
| `StandaloneCache.IndexOf` | resources/gas-dashboard-server-standalone.py:2248 | `key in self._cache`: where the key sits, if cached |
| `StandaloneCache.Oldest` | resources/gas-dashboard-server-standalone.py:2249 | the evicted key has the least mtime, and is the first such in dict order |
| `StandaloneCache.Evicted` | resources/gas-dashboard-server-standalone.py:2250 | deleting one entry keeps the others in order |
| `StandaloneCache.Others` | resources/gas-dashboard-server-standalone.py:2255-2258 | invalidating a file never grows the cache |
| `StandaloneCache.KeysOf` | resources/gas-dashboard-server-standalone.py:2256 | `keys_to_remove` holds exactly the cached keys of that file |
| `StandaloneCache.WithoutOneMore` | resources/gas-dashboard-server-standalone.py:2257-2258 | each loop iteration deletes one more key |
| `StandaloneCache.WithoutKeysOf` | resources/gas-dashboard-server-standalone.py:2256-2258 | deleting the file's keys leaves the other files' entries, in order |
| `StandaloneCache.OthersFind` | resources/gas-dashboard-server-standalone.py:2253-2258 | after invalidating a file its keys are gone and every other key keeps its result |
| `StandaloneCache.OthersDistinct` | resources/gas-dashboard-server-standalone.py:2255-2258 | invalidating keeps the keys distinct |
| `StandaloneCache.BoundedParseCache.constructor` | resources/gas-dashboard-server-standalone.py:2236-2238 | a new cache is empty with its bound |
| `StandaloneCache.BoundedParseCache.Get` | resources/gas-dashboard-server-standalone.py:2240-2242 | a result is found iff it was cached under that path and mtime |
| `StandaloneCache.BoundedParseCache.Size` | resources/gas-dashboard-server-standalone.py:2262-2265 | the cache never holds more than its bound (and nothing under a non-positive one) |
| `StandaloneCache.BoundedParseCache.Put` | resources/gas-dashboard-server-standalone.py:2244-2251 | a cached key gets the new result in place; a new key is appended after evicting the first key of least mtime when full; `min` of an empty cache raises exactly for a non-positive bound; afterwards the key reads back the result |
| `StandaloneCache.BoundedParseCache.Invalidate` | resources/gas-dashboard-server-standalone.py:2253-2260 | a non-empty path loses exactly its keys, the rest keep their order; no path or an empty one clears the cache |
| `StandaloneCache.FindAt` | resources/gas-dashboard-server-standalone.py:2242 | with distinct keys a lookup finds the value stored beside the key |
| `StandaloneCache.RePutKeepsKeys` | resources/gas-dashboard-server-standalone.py:2248-2251 | re-putting a cached key never evicts: the cache keeps exactly its keys |
| `StandaloneCache.EvictsOldest` | resources/gas-dashboard-server-standalone.py:2248-2250 | the evicted key has an mtime no larger than any key that stays |
| `StandaloneEvents.GatherStep` | resources/gas-dashboard-server-standalone.py:2292-2304 | one more element of a walk appends its list, or its error ends the walk |
| `StandaloneEvents.GatherErr` | resources/gas-dashboard-server-standalone.py:2292-2304 | an error among the first elements is the error of the whole walk |
| `StandaloneEvents.GatherOk` | resources/gas-dashboard-server-standalone.py:2292-2304 | a walk succeeds exactly when every element's list can be built |
| `StandaloneEvents.GatherMembers` | resources/gas-dashboard-server-standalone.py:2357-2377 | what a walk yields is what some element's list holds |
| `StandaloneEvents.JsonLines` | resources/gas-dashboard-server-standalone.py:2275-2286 | there are never more events than lines |
| `StandaloneEvents.JsonLinesMembers` | resources/gas-dashboard-server-standalone.py:2278-2285 | every event is the decoding of one non-blank stripped line |
| `StandaloneEvents.ParseJsonLines` | resources/gas-dashboard-server-standalone.py:2275-2286 | the loop keeps each stripped, non-blank line that decodes, in order, and skips the rest |
| `StandaloneEvents.ContentOf` | resources/gas-dashboard-server-standalone.py:2300 | a message that is a dict never raises when its content is looked at |
| `StandaloneEvents.CountAllSnoc` | resources/gas-dashboard-server-standalone.py:2296 | counting one more name raises exactly that name's count |
| `StandaloneEvents.ExtractToolUsage` | resources/gas-dashboard-server-standalone.py:2289-2305 | the counts of all names the events give, in order (an event's own `name`, then its `tool_use` items' names or "unknown"), each name once |
| `StandaloneEvents.CountEvent` | resources/gas-dashboard-server-standalone.py:2293-2304 | one event's names are added to the counts, or its error is the result |
| `StandaloneEvents.CountItems` | resources/gas-dashboard-server-standalone.py:2301-2304 | one message's `tool_use` items are counted in order |
| `StandaloneEvents.Clip` | resources/gas-dashboard-server-standalone.py:2316 | a clipped content is at most `MAX_CONTENT_LENGTH` long |
| `StandaloneEvents.ItemEntries` | resources/gas-dashboard-server-standalone.py:2326-2344 | an item adds at most one feed entry |
| `StandaloneEvents.ExtractLiveEvents` | resources/gas-dashboard-server-standalone.py:2308-2350 | the feed is built from the last 2·max events and keeps at most max entries |
| `StandaloneEvents.ItemsFeed` | resources/gas-dashboard-server-standalone.py:2325-2344 | the inner loop gives the entries of a message's items, in order |
| `StandaloneEvents.LiveIgnoresOlder` | resources/gas-dashboard-server-standalone.py:2312 | events older than the last 2·max change nothing in the feed |
| `StandaloneEvents.ZeroBoundKeepsAll` | resources/gas-dashboard-server-standalone.py:2312-2350 | with a bound of 0 the slices `[-0:]` keep every event and every entry |
| `StandaloneEvents.InputPath` | resources/gas-dashboard-server-standalone.py:2361-2364 | at most one path per input, truthy and hashable |
| `StandaloneEvents.DirectPaths` | resources/gas-dashboard-server-standalone.py:2359-2364 | an event's own input names at most one path |
| `StandaloneEvents.Dedup` | resources/gas-dashboard-server-standalone.py:2355-2364 | the set holds each path once, and exactly the paths seen |
| `StandaloneEvents.DedupSnoc` | resources/gas-dashboard-server-standalone.py:2364 | adding a path already present changes nothing; a new one goes last |
| `StandaloneEvents.ExtractFilesCreated` | resources/gas-dashboard-server-standalone.py:2353-2379 | no path twice, at most `max_files` of them, each named by some event |
| `StandaloneEvents.AddEventPaths` | resources/gas-dashboard-server-standalone.py:2358-2377 | one event's paths are added to the set, or its error is the result |
| `StandaloneEvents.AddItemPaths` | resources/gas-dashboard-server-standalone.py:2370-2377 | one message's item paths are added to the set in order |
| `Config.Find` | resources/dashboard/server/config.py:255 | a dict-literal lookup finds a value iff the key is in the table, and the value found is paired with that key there |
| `Config.FindAt` | resources/dashboard/server/config.py:93-116 | a key's first entry in the table is the one a lookup returns |
| `Config.ToolIcon` | resources/dashboard/server/config.py:245-255 | a known tool gets its own icon from `TOOL_ICONS`; any other name gets `tool` |
| `Config.StatusColor` | resources/dashboard/server/config.py:258-268 | the colour is the table's entry for the lower-cased status, or the pending colour `#9B8B7A` when there is none |
| `Config.StatusColorIgnoresCase` | resources/dashboard/server/config.py:268 | a status and its lower-cased or upper-cased spelling get the same colour |
| `Text.LowerOfUpper` | resources/dashboard/server/config.py:268 | an upper-cased text lower-cases to the same text as the original |
| `Config.When` | resources/dashboard/server/config.py:294-314 | a conditional `append` adds its message exactly when the condition holds |
| `Config.ValidateConfig` | resources/dashboard/server/config.py:275-319 | `valid` iff no issue; one issue for each non-positive idle threshold, watch interval, ping interval or limit; the threshold warning iff completion ≤ idle; one warning per missing directory |
| `Config.ShippedSettingsValid` | resources/dashboard/server/config.py:44-60 | the shipped constants raise no issue and no threshold warning, so only missing directories are reported |
| `Standalone.ReadAgoText` | resources/gas-dashboard-server-standalone.py:2419-2426 | a "N<unit> ago" text reads back as exactly its number and unit, so the formatted age can be decoded |
| `Standalone.FormatTimeAgo` | resources/gas-dashboard-server-standalone.py:2409-2426 | "Unknown" without a time, "Just now" when the truncated age is negative; otherwise the text decodes to a unit and count with unit*count <= age < unit*(count+1), and the unit is s, m, h or d exactly on the ranges below 60, below 3600, below 86400 and beyond |
| `Standalone.FindMarker` | resources/gas-dashboard-server-standalone.py:2489-2493 | the marker loop reports true exactly when one of the eight completion markers occurs in the content |
| `Standalone.Summary` | resources/gas-dashboard-server-standalone.py:2505 | a line of at most 100 characters is shown unchanged; a longer one becomes its first 100 characters plus "..." (103 characters) |
| `Standalone.Window` | resources/gas-dashboard-server-standalone.py:2501-2503 | the activity search sees at most the last ten lines of the stripped content |
| `Standalone.LastMeaningful` | resources/gas-dashboard-server-standalone.py:2503-2504 | the index found holds a meaningful line (longer than 10, not starting with "{") and every later line is not meaningful; none means no line is |
| `Standalone.LastMeaningfulAt` | resources/gas-dashboard-server-standalone.py:2503-2506 | a meaningful line with no meaningful line after it is the one the search finds |
| `Standalone.Activity` | resources/gas-dashboard-server-standalone.py:2500-2506 | the activity loop yields the summary of the last meaningful line among the last ten, or nothing |
| `Standalone.NewestMeaningful` | resources/gas-dashboard-server-standalone.py:2503-2506 | scanning the window newest first stops at the last meaningful line and returns its summary |
| `Standalone.Estimate` | resources/gas-dashboard-server-standalone.py:2509-2511 | the estimated progress lies between 0 and 95 |
| `Standalone.ProgressRule` | resources/gas-dashboard-server-standalone.py:2488-2511 | the parse is complete exactly when a marker is present, progress is 100 exactly then, always within 0..100, and otherwise min(95, 5 * tool uses) (0 when counting the tools raised) |
| `Standalone.StagesProgress` | resources/gas-dashboard-server-standalone.py:2488-2511 | the same progress rule for the parse stages given the marker verdict, the events and the activity line |
| `Standalone.AnalysisBounds` | resources/gas-dashboard-server-standalone.py:2473-2515 | the last activity is the file's mtime, there are no more events than lines, and a finished parse keeps at most 20 distinct files and 30 live events |
| `Standalone.StagesBounds` | resources/gas-dashboard-server-standalone.py:2496-2515 | the same bounds for the parse stages over a given event list |
| `Standalone.Analyse` | resources/gas-dashboard-server-standalone.py:2488-2515 | the imperative body of the parse equals the staged specification, including the fields left set when a step raises |
| `Standalone.ParseAgentOutput` | resources/gas-dashboard-server-standalone.py:2456-2525 | no path, a missing file or an unreadable mtime give the empty result; a cache hit returns the cached result untouched; an empty file gives only the last activity; otherwise the parse, cached (and retrievable) only when it ran to the end and caching is on; the cache stays valid |
| `Standalone.Candidates` | resources/gas-dashboard-server-standalone.py:2609-2620 | output.jsonl and agent.output in the agent folder are the last two candidates, preceded by the agent's task output file exactly when the agent has a truthy task id |
| `Standalone.FirstPresent` | resources/gas-dashboard-server-standalone.py:2622-2625 | the candidate chosen exists and no earlier one does; none means no candidate exists |
| `Standalone.ChooseOutput` | resources/gas-dashboard-server-standalone.py:2609-2632 | the output file is the first existing candidate, else the first glob match, else none; none exactly when no candidate exists and the glob matched nothing |
| `Standalone.ClassifyStatus` | resources/gas-dashboard-server-standalone.py:2646-2667 | completed exactly when a marker, a completed status or more than 120 s of silence, and then progress 100 and not idle; idle exactly when not completed and silent for more than 60 s; otherwise failed stays failed and anything else becomes running |
| `Standalone.ClassifyProgress` | resources/gas-dashboard-server-standalone.py:2669-2671 | the comparison raises exactly when an uncompleted agent's progress is not a number; otherwise an uncompleted agent's progress is the larger of its own and the parsed one |
| `Standalone.Observe` | resources/gas-dashboard-server-standalone.py:2634-2671 | the parsed fields are copied; with a last activity the status, progress and idleness are the classification and the age text is formatted; only an idle status sets the idle flag; id, role, generations and mission are untouched |
| `Standalone.AgentStatus` | resources/gas-dashboard-server-standalone.py:2561-2673 | the error, or the record, is the shared `Dashboard.Record` with the role defaulting to the id; with no output file found it carries the mission and the output defaults (no tools, events or files, `Never`, not idle, `Waiting...`) and the cache is untouched; otherwise it is `Observed` on the parse `ParseResult` gives for the chosen file and the cache's entry before the call; it is idle only with the idle status and the cache stays valid |
| `Standalone.Infos` | resources/gas-dashboard-server-standalone.py:2724-2725 | the shared agent records are the agents' records in order, one per agent |
| `Standalone.StatusTally` | resources/gas-dashboard-server-standalone.py:2748-2752 | the five per-status counts add up to at most the number of agents |
| `Standalone.TallyDisjoint` | resources/gas-dashboard-server-standalone.py:2748-2752 | no agent is counted under two statuses |
| `Standalone.GasStatus` | resources/gas-dashboard-server-standalone.py:2707-2803 | succeeds exactly when the wave flags, the knowledge summary, the successions and the aggregates can be computed, and then carries exactly those (the knowledge summary is `Dashboard.Summary` of the store), the per-status tally and the elapsed time; the contributions add up to the success-pattern count |
| `Dashboard.GenRecords` | resources/gas-dashboard-server.py:59-73 | the listing loop keeps at most one record per entry of the generations folder |
| `Dashboard.GenRecordsMembers` | resources/gas-dashboard-server.py:59-73 | a record is kept exactly when some numbered `gen-` entry produced it: its status file when that is truthy, else the default; an entry whose status file is not UTF-8 produces none |
| `Dashboard.MissingStatusIsPending` | resources/gas-dashboard-server.py:60-70 | a numbered `gen-` entry whose status file is missing, unreadable or falsy gives the default record (pending, its own generation number, progress 0); one whose file is not UTF-8 is dropped |
| `Dashboard.DefaultGenerationFields` | resources/gas-dashboard-server.py:65-70 | the default generation record has status pending, the folder's generation number and progress 0 |
| `Dashboard.ByGenerationIsOrder` | resources/gas-dashboard-server.py:77 | comparing records by their `generation` key is a strict weak order, as `sorted` needs |
| `Dashboard.SortedGenerations` | resources/gas-dashboard-server.py:77 | sorting succeeds exactly when every record is a dict and, once there are two records, all generation keys are numbers or all are strings; the result is ordered by generation, is a permutation of the records and holds only dicts |
| `Dashboard.KeyLessOrder` | resources/gas-dashboard-server.py:77 | Python's `<` on generation keys is a strict weak order |
| `Dashboard.StringGenerationsSort` | resources/gas-dashboard-server.py:77 | two records with generations `"2"` and `"1"` sort, as strings, to `"1"` then `"2"` |
| `Dashboard.MixedGenerationsRaise` | resources/gas-dashboard-server.py:77 | a string generation beside a number one makes the sort raise |
| `Dashboard.AgentGenerations` | resources/gas-dashboard-server.py:50-77 | a missing folder gives no records; otherwise the outcome is that of sorting the records of the numbered `gen-` entries, and a sorted result holds exactly those records, ordered by generation |
| `Dashboard.CollectGenerations` | resources/gas-dashboard-server.py:58-75 | the listing loop collects the records of the listing in listing order |
| `Dashboard.GenRecordsStep` | resources/gas-dashboard-server.py:59-71 | one more entry appends its record when it is a numbered `gen-` entry and nothing otherwise |
| `Dashboard.GenerationsFacts` | resources/gas-dashboard-server.py:50-77 | the records returned are in generation order and are exactly those of the listing's numbered entries |
| `Dashboard.Latest` | resources/gas-dashboard-server.py:113 | `max` by generation picks a record whose key no other key exceeds, and every record before it has a smaller key |
| `Dashboard.LastIsLatest` | resources/gas-dashboard-server.py:113 | a last key above the first greatest key of the others exceeds every other key |
| `Dashboard.AgentStatus` | resources/gas-dashboard-server.py:80-118 | a config, status file or listing that makes the code raise is an error; otherwise id, role, wave and generations come from the inputs, the generation count is the number of records, and status, progress and current generation come from the latest record, else the status file, else the defaults; the result is `Dashboard.Record`, which the standalone server shares |
| `Dashboard.Len` | resources/gas-dashboard-server.py:143-145 | `len` of a list is its number of items |
| `Dashboard.Sources` | resources/gas-dashboard-server.py:138-140 | the contributors are found exactly when every pattern has one, and then one per pattern, in order |
| `Dashboard.Summary` | resources/gas-dashboard-server.py:121-149 | a missing or empty store gives the zero summary; otherwise it succeeds exactly when the store can be summarised (success patterns a list of dicts, or the empty string, which the loop visits no times), and then gives the three lengths, the generation total, the first five success patterns (`""` for the empty string) and the per-agent contribution counts, which add up to the number of success patterns and name each agent once |
| `Dashboard.KnowledgeSummary` | resources/gas-dashboard-server.py:121-149 | the server's steps, with the counting loop, give exactly `Dashboard.Summary`, errors included |
| `Dashboard.EmptyTextPatternsSummarised` | resources/gas-dashboard-server.py:137-147 | a store whose success patterns are `""` is summarised with zero counts and `""` as its patterns; an empty dict there raises at `[:5]` |
| `Dashboard.SourcesErrSticky` | resources/gas-dashboard-server.py:137-140 | once a pattern raises, the whole loop raises that error |
| `Dashboard.CountSources` | resources/gas-dashboard-server.py:137-140 | the counting loop succeeds exactly when every pattern has a contributor and then counts each contributor's patterns; otherwise it raises the first bad pattern's error |
| `Dashboard.SourcesStep` | resources/gas-dashboard-server.py:138-140 | one more pattern appends its contributor, or ends in the error it raises |
| `Dashboard.FindAgent` | resources/gas-dashboard-server.py:203 | a found record is the record of an agent with that id; none is found exactly when no agent has the id |
| `Dashboard.AllCompleted` | resources/gas-dashboard-server.py:202-205 | `all` returns true exactly when every member names a completed agent |
| `Dashboard.AllCompletedRaises` | resources/gas-dashboard-server.py:202-205 | `all` raises exactly when an unhashable member is reached after completed members only |
| `Dashboard.AnyRunning` | resources/gas-dashboard-server.py:206-209 | `any` returns true only when some member names a running agent |
| `Dashboard.AnyRunningDecides` | resources/gas-dashboard-server.py:206-209 | when `any` returns, it returns true exactly when some member names a running agent |
| `Dashboard.AnyRunningRaises` | resources/gas-dashboard-server.py:206-209 | `any` raises exactly when an unhashable member is reached after hashable members that are not running |
| `Dashboard.FlagsOfHashable` | resources/gas-dashboard-server.py:202-209 | members that are all hashable never make `all` or `any` raise |
| `Dashboard.Flags` | resources/gas-dashboard-server.py:200-210 | a wave's entry keeps its member list; a list of hashable members always gives flags |
| `Dashboard.FlagsMeaning` | resources/gas-dashboard-server.py:200-210 | a wave is completed exactly when all its members are completed, and in progress exactly when some member is running |
| `Dashboard.WaveStatus` | resources/gas-dashboard-server.py:197-210 | the wave table succeeds exactly when every wave's flags do, and then has one entry per wave, in order, with its flags |
| `Dashboard.FlagsOf` | resources/gas-dashboard-server.py:198-210 | the loop over the waves gives each wave's name and flags in order, and fails exactly when some wave's flags raise |
| `Dashboard.EmptyWaveCompleted` | resources/gas-dashboard-server.py:202-209 | a wave without members is completed and not in progress |
| `Dashboard.Successor` | resources/gas-dashboard-server.py:229 | `+ 1` succeeds exactly on a number, and gives that number plus one |
| `Dashboard.Step` | resources/gas-dashboard-server.py:224-231 | a generation gives an event exactly when its status is completed or needs_succession, and raises only then when its generation number is not a number |
| `Dashboard.AgentEvents` | resources/gas-dashboard-server.py:224-231 | the events of the first n records are found exactly when no record among them raises |
| `Dashboard.AgentEventsMembers` | resources/gas-dashboard-server.py:224-231 | an event is listed exactly when one of the first n records hands over and yields it |
| `Dashboard.AgentEventsShape` | resources/gas-dashboard-server.py:224-231 | there is one event per handing-over record, each for this agent, from a generation number to that number plus one |
| `Dashboard.NoEventFromLast` | resources/gas-dashboard-server.py:224 | every event comes from a handed-over record other than the latest one |
| `Dashboard.Successions` | resources/gas-dashboard-server.py:222-231 | the collecting loop gives the events of all agents, agent by agent, or the first error |
| `Dashboard.AgentSuccessions` | resources/gas-dashboard-server.py:224-231 | the inner loop gives the events of all of one agent's records but the last |
| `Dashboard.AgentEventsErr` | resources/gas-dashboard-server.py:224-231 | once a record raises, later records do not change the outcome |
| `Dashboard.EventsOfErr` | resources/gas-dashboard-server.py:222-231 | once an agent's records raise, later agents do not change the outcome |
| `Dashboard.CountWithStatus` | resources/gas-dashboard-server.py:217-218 | the count of agents with a status is at most the number of agents |
| `Dashboard.ProgressSum` | resources/gas-dashboard-server.py:235 | the sum of progress succeeds exactly when every agent's progress is a number |
| `Dashboard.MeanProgress` | resources/gas-dashboard-server.py:234-237 | the mean succeeds exactly when every progress is a number, and is 0 without agents |
| `Dashboard.ProgressSumWithin` | resources/gas-dashboard-server.py:235 | a sum of n progress values within [lo, hi] lies within [n*lo, n*hi] |
| `Dashboard.MeanWithin` | resources/gas-dashboard-server.py:234-237 | the overall progress lies between the least and the greatest agent progress |
| `Dashboard.Aggregates` | resources/gas-dashboard-server.py:215-237 | the aggregates succeed exactly when the mean does; completed plus running agents are at most the number of agents, which is the total |
| `Dashboard.CompletedRunningDisjoint` | resources/gas-dashboard-server.py:217-218 | no agent is counted both completed and running |
| `Dashboard.TotalGenerationsCounts` | resources/gas-dashboard-server.py:219 | when each agent's count is its number of records, the total counts every record of every agent once |
| `Dashboard.FormatElapsed` | resources/gas-dashboard-server.py:152-173 | an unreadable start time gives "Unknown", a negative difference "0s", and otherwise a text that reads back as exactly the whole seconds elapsed |
| `Dashboard.UnitValueOf` | resources/gas-dashboard-server.py:167-171 | a number followed by its unit letter reads back as that number |
| `Dashboard.ReadThree` | resources/gas-dashboard-server.py:167 | an "Nh Nm Ns" text reads back as hours*3600 + minutes*60 + seconds |
| `Dashboard.ReadTwo` | resources/gas-dashboard-server.py:169 | an "Nm Ns" text reads back as minutes*60 + seconds |
| `Dashboard.ReadHms` | resources/gas-dashboard-server.py:163-171 | the text chosen for hours, minutes and seconds reads back as their total in seconds |
| `Dashboard.ReadHmsThree` | resources/gas-dashboard-server.py:166-167 | with hours, the three-field text reads back as the total |
| `Dashboard.ReadHmsTwo` | resources/gas-dashboard-server.py:168-169 | without hours but with minutes, the two-field text reads back as the total |
| `Dashboard.ReadHmsOne` | resources/gas-dashboard-server.py:170-171 | with seconds only, the one-field text reads back as the seconds |
| `Dashboard.ElapsedRoundTrip` | resources/gas-dashboard-server.py:163-171 | the `divmod` split into hours, minutes and seconds and its text lose nothing: reading it back gives the total |

## Left out

What the code does outside the rules, and why the model does not follow it:
- Files and JSON. The model has no file I/O. Reading and writing JSON files, `mkdir`, `os.stat`, `os.listdir` and `glob` are replaced by parameters or by class fields holding the documents. So are opening output files and `json.loads`. A failed read is `None`. The `.gas` documents carry a flag for keys the model does not name, so that `{}` can be told apart from a document with content: where the code tests `if not doc`, `{}` counts as missing (`Records.StatusRead`, `Records.StateRead`). The knowledge store is kept as a class whose object always holds its three lists, so a store file holding `{}` is given as no store.
- `Records.GenStatus`: the fields of a status document are typed. A field that is `null` or of the wrong type (`"confidence": null`, `"interactions": "5"`) cannot be represented; a `null` reads as missing, so the default is used. In the code `evaluate_triggers` raises `TypeError` on such a field, the script exits with code 1, and `check_triggers` reads that as a warning-level handoff; the model does not capture that path.
- `Knowledge.KnowledgeStore.AddPattern`: entries carry a flag for keys the model does not name (`Records.Entry`), so an entry holding only such keys is not `{}` and is merged into, as `if existing:` does; the values of those keys are not kept.
- Clocks. `datetime.utcnow`, `datetime.now` and `fromisoformat` become a `now` parameter and a parsed-time parameter, in seconds (microseconds for the elapsed-time text). The `last_updated`/`completed_at` stamps are not formatted as ISO text.
- Processes and timing. The model does not run processes, handle signals, sleep or lock. `subprocess.run` in `check_triggers` becomes the script's exit code as a parameter. The poll loop of `run_orchestrator` is modelled one step at a time (`Orchestrator.Workspace.PollOnce`). Signal handlers and `time.sleep` are left out. The `threading.Lock`s guard sequential logic, which is modelled without them.
- `run_swarm` (scripts/swarm-orchestrator.py:362-429) has no member of its own. Its start-up (spawning wave 1, marking it running) and its poll loop (re-reading the state, `check_all_complete`, `advance_wave`, spawning the current wave's fresh agents, the status summary, the sleep and the catch-all `except`) are not modelled as a step. The `SwarmOrchestrator.WaveManager` methods it calls are modelled one by one, so the order in which the loop composes them, and the state it re-reads between passes, are not captured.
- `generate_id`: the md5 digest is an opaque id given as a parameter.
- Command-line front ends and reports. These are the `main` functions, `init_workspace`, `init_swarm`, `render_generation_prompt` and the `remove_else_blocks`/`keep_else_blocks` helpers. Also `generate_report`, `get_status`, `print_wave_status`, `get_swarm_status`, `generate_swarm_report`, `sync_agent_outputs`, `export_to_json`/`export_to_markdown` and the logging. They only print, copy files or format text over the rules that are modelled.
- HTML, CSS and JavaScript. The embedded dashboard pages of both single-file servers and the modular server's placeholder page are presentation only.
- Networking. Sockets, asyncio, the `HTTPServer`/`GASHandler` classes, server start-up and all of the WebSocket handler are left out. `Http.HandleClient` starts from the bytes already read.
- Floating point. Scores and confidences are exact reals. `round(..., 1)` on the overall progress and the hit rate is not modelled, and neither are the `:.2f`/`:.0%` renderings. Float values carry Python's `repr` text where they are shown.
- Regular expressions. The template passes and the dashboard's path and ID patterns are hand-written scanners. These find the blocks `re.sub` finds for the patterns used. The file-path pattern of `extract_file_path` is a parameter (`OutputParser.Env`).
- JSON rendering. `json.dumps` of lists and dicts renders without escaping special characters inside strings.
- File positions. `FileTracker` and `StandaloneCache` count positions in characters. Python's `tell`/`seek` use opaque byte cookies. The two agree on ASCII text.
- Environment variables. `os.getenv` settings are fixed at their shipped defaults.
- `validate_config`: whether the `.gas` and task directories exist is given as two parameters rather than checked on disk; the warnings the code emits for them are modelled.
- `get_config_summary`, `get_gas_path`, `get_session_path` and `get_task_path` are left out. They only join paths.
- Generation caps. `max_generations_per_agent` and `max_total_generations` are declared in scripts/gas-orchestrator.py:32-33 but never checked there, so the model does not enforce them. No transfer-document size budget and no atomic write are stated either, because the code has none.
- `Knowledge.KnowledgeStore.GetStats` carries no contract of its own. The averages it reports are bounded by `Knowledge.AverageWithinBounds`.
- `file_tracker.py`: `get_file_info`, `tracked_count` and the tracker's `get_stats` are not modelled. They only report the states the model keeps.
- `FileTracker.FilePositionTracker.GetAllContent`: the code sets the position to the UTF-8 byte length of the text; the model uses its length in characters, as everywhere else in the tracker. A read that replaces undecodable bytes is not modelled; the text is a parameter.
- `output_parser.py`: `parse_output_file` and `parse_incremental` are not modelled. They open a file and compose the tracker, the cache and `parse_output_content`, which are modelled separately. `ParsedOutput.to_dict` is not modelled either.
- `output_parser.py`: `extract_tool_name` and `extract_file_path` are modelled as plain helpers without contracts of their own.
- `gas_status.py`: `get_full_status`, `get_agent_details`, `_gather_agent_statuses`, `_read_gas_state`, `_read_knowledge_store`, `_find_agent_output_files` and `_parse_agent_output` are not modelled. They read files and assemble dicts from the modelled parts. `_last_check` is a clock reading.
- `GasStatus.Checked`: passes on the corrected entries, the last ten that the newly read text yields (`GasStatus.Emitted`). The code passes on the last ten of the agent's whole accumulated live feed (`GasStatus.EmittedAsWritten`, see "## Findings").
- `GasStatus.Gatherer.AbsorbOutput`: passes on the corrected entries (see `GasStatus.Checked` above). A parse that raises leaves the stored parse as it was; when the agent already had a stored parse, the code has by then updated it in place (the line count, and every line before the raise), and the file tracker has moved past those lines, so that partial update persists.
- `GasStatus.Gatherer.CheckForChanges`: passes on the corrected entries, and drops the partial update of a raising parse (see `GasStatus.Gatherer.AbsorbOutput` above).
- `GasStatus.Gatherer.SweepOutputs`: folds the corrected `GasStatus.Absorb`, so it passes on the corrected entries and drops the partial update of a raising parse (see `GasStatus.Gatherer.AbsorbOutput` above).
- `OutputParser.ParseOutputContent`: a parse that raises is a bare error. The code updates the given accumulator in place as it goes (`raw_lines_count` first, then each line before the raise), so the caller's accumulator keeps that partial update; the model returns no partial accumulator.
- `GasStatus.Gatherer.CheckForChanges`: the code tags the parser's own event dicts in place (`event['agent_id'] = ...`), so the buffers share objects with the parser's live feed. The model copies each entry into a tagged record, so that aliasing is not captured.
- `http_handler.py`: the uptime in the health response is a clock reading and is given as a parameter. The JSON bodies of `/api/status` and `/api/events` are the gatherer's answers, also parameters.
- The single-file server's `get_gas_status` (resources/gas-dashboard-server.py:176-257) is modelled by its parts: `Dashboard.WaveStatus`, `Dashboard.KnowledgeSummary`, `Dashboard.Successions`, `Dashboard.Aggregates` and `Dashboard.FormatElapsed`. These parts compose in `Standalone.GasStatus`, which adds the per-status counts of the standalone server.
- `Standalone.GasStatus`: the fields copied straight from the state document or the clock are not modelled. These are the project name and its aliases, objective, mode, start time, current wave and `last_updated`.
- `StandaloneEvents.ExtractFilesCreated`: the code returns `list(set)[:max_files]`, whose order is the set's iteration order, which is unspecified. The model keeps the paths in first-seen order. Its contract (distinct paths, at most `max_files`, each from an event) holds for any order, but which paths survive the cut is fixed by that choice.
- `Standalone.Window`: states only that at most ten lines are searched; which lines are searched is stated through `Standalone.Activity` and `Standalone.NewestMeaningful`.
- `Standalone.Estimate`: states only the bound 0..95; the formula `min(95, 5 * tool uses)` is stated by `Standalone.ProgressRule`.
- `Dashboard.GenRecords`: states only the length bound; which records are kept is stated by `Dashboard.GenRecordsMembers`.
- `Dashboard.AnyRunning`: states one direction only; `Dashboard.AnyRunningDecides` states both.
- `Dashboard.CountWithStatus`: states only the bound by the number of agents; that the counts of different statuses do not overlap is `Dashboard.CompletedRunningDisjoint` and `Standalone.TallyDisjoint`.
- `Text.Lower`, `Text.Upper`, `Text.IsWordChar`: case mapping covers ASCII letters only, and `\w` is ASCII letters, digits and `_`. Python's `str.lower` and `\w` also cover non-ASCII letters and digits. So every member that lower-cases or matches `\w` agrees with the code on ASCII text only: `Knowledge.FirstSimilar`, `Knowledge.KnowledgeStore.FindSimilarPattern`, `Knowledge.Matches`, `Knowledge.QueryPatternsSound`, `Orchestrator.Slugify`, `Orchestrator.SlugifyByChar`, `PromptRenderer.WordRun`, the renderer's truthiness of `"true"` strings, `OutputParser.CheckCompletionMarkers`, `OutputParser.MarkerIgnoresCase`, `GasStatus.AgentIdOf`, `Config.StatusColor`, `Config.StatusColorIgnoresCase`, `Http.ContentTypeIgnoresCase`, `Http.HeaderLine` and `Http.HeaderLineRoundTrip`.
- `Knowledge.FirstSimilar`: compares patterns lower-cased in ASCII only (see `Text.Lower` above).
- `Knowledge.KnowledgeStore.FindSimilarPattern`: compares patterns lower-cased in ASCII only (see `Text.Lower` above).
- `Orchestrator.SlugifyByChar`: lower-cases ASCII letters only (see `Text.Lower` above).
- `PromptRenderer.WordRun`: `\w` is ASCII only (see `Text.IsWordChar` above).
- `OutputParser.ParseNdjsonLine`, `OutputParser.LinesCount`, `OutputParser.LinesMarked`, `OutputParser.LiveAccumulate`, `OutputParser.ParseCounts`, `OutputParser.ParseLive` and `OutputParser.ParseOutputContent` model the corrected loop, which skips a line that decodes to a value other than a dict (see "## Findings"). The code as written raises on such a line; that is `OutputParser.NonObjectLineRaises`. The `GasStatus` change-check members build on the corrected parse.
- `OutputParser.LinesCount`: states the count of the corrected loop (see the line above).
- `OutputParser.LinesMarked`: states the marker of the corrected loop (see above).
- `OutputParser.LiveAccumulate`: states the live feed of the corrected loop (see above).
- `OutputParser.ParseCounts`: states the counts of the corrected parse (see above).
- `OutputParser.ParseLive`: states the live feed of the corrected parse (see above).
- `Dashboard.SortedGenerations`: a generation key that is a list is treated as unorderable. Python compares two lists element by element, so a folder whose every key is a list can sort there.
- `Dashboard.AgentStatus`: only the generation folder's status files distinguish a file that is not UTF-8 (the entry is dropped) from one that cannot be opened. The agent's own status file, the state document and the knowledge store are `None` when unreadable; a file of these that is not UTF-8 makes the code raise out of the request, which the model does not follow.
- `Http.Joined`: joins with `/` without normalising the path the way `pathlib` does (a trailing `/` or a `.` component is kept). Containment is decided on the resolved paths, which are a parameter.
- `Text.ParseNat`: the model reads plain decimal digits. Python's `int()` also accepts underscores between digits and non-ASCII digits; those are not modelled.

## Findings

| source | as written | input that shows it | evidently intended | confidence | as-written member | corrected member |
|---|---|---|---|---|---|---|
| scripts/gas-orchestrator.py:532-545 | a generation that completes without `task_complete` has its learnings consolidated in the run loop, and then again inside `handle_succession` (line 462) | a completed generation 1 with one `success_pattern` learning and `task_complete` false: the store gains two identical entries and `generations_completed` rises by 2 | each completed generation is consolidated once | not executed | `Orchestrator.Workspace.PollOnceAsWritten`, `Orchestrator.DoubleConsolidationDuplicates` | `Orchestrator.Workspace.PollOnce` |
| resources/dashboard/server/gas_status.py:163-168 | after each incremental parse, the change check passes on the last ten entries of the agent's whole accumulated live feed | an agent with earlier live events whose file grows by one blank line: the old events are appended again to both buffers | only the entries the new text yields are passed on | not executed | `GasStatus.ReemitsOnEventlessChange`, `GasStatus.AsWrittenMixesOldEntries` | `GasStatus.Emitted`, `GasStatus.Absorb` |
| resources/dashboard/server/output_parser.py:224-232 | a line that decodes to a truthy value that is not a dict reaches `event.get(...)` and raises AttributeError, which ends the whole parse | the line `5` | such a line is skipped like undecodable JSON | not executed | `OutputParser.NonObjectLineRaises` | `OutputParser.LineStepSkipsNonObjects` |
