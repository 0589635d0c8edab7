# lite-interpreter, verified model

lite-interpreter runs analysis tasks: a task engine drives language-model nodes in rounds, a sandbox
executes the code they write, and blackboards, journals and compilers keep and prepare what they need.
This project models the parts of it whose correctness is not plain from reading one function, and proves
what they promise. `dafny verify dfyconfig.toml` checks everything.

## What is modelled

- **Task engine** (`Checkpoints`, `CheckpointLaws`, `CheckpointNames`, `RoundEngine`, `TaskEngine`,
  `TaskHistory`, `RestartTransparency`, `RestartVisibility`, `CallLaws`, `Agenda`, `AgendaLaws`,
  `FlowWords`, `RunVerdict`). Every node call goes through a durable memo table and a lease
  check. `RoundEngine` gives the meaning of a run as a function from an environment, a state and the tables
  to a log; `TaskEngine.Engine` is the imperative form, proved equal to it method by method, and
  `Agenda` a list of things to do, one step at a time, of which every run is proved to be the outcome. Nodes, lease
  answers, failing saves and the points where the process dies are functions of the call's position in the
  log, so a statement about all environments is one about all runs. A run's log is summarised by a small
  monitor, from which order, bounds and cut-off are read.
- **Exploration loop** (`Exploration`, `ExplorationProtocol`, `ExplorationRuns`): a bounded tool-calling loop against any model
  and any tools, with the protocol that its transcript keeps.
- **Lexicon matcher** (`Lexicon`, `LexiconLaws`, `Normalization`, `Sorting`): greedy acceptance refines a leftmost-longest scan.
- **Patch merge** (`DomainMerge`, `ListLaws`): idempotence, identity, and exactly when merging is associative.
- **Sandbox slots** (`SandboxSlots`, `SandboxExecution`): interleaved check, increment and guaranteed
  decrement, as a state machine and as the methods that make its moves.
- **Task states, events, outputs** (`GlobalBlackboard`, `BoardHistory`, `BoardListing`, `BoardUpdates`, `EventCursor`,
  `EventJournal`, `OutputIds`, `DecimalText`).
- **Compilers and budgets** (`Evidence`, `EvidenceLaws`, `EvidenceRows`, `Graph`, `GraphLaws`, `GraphLinks`,
  `TokenBudget`, `Capabilities`, `Governance`, `GovernanceLaws`, `Redaction`, `RedactionLaws`), and `Values`, the JSON-like values of the task state.

## Where the code does less than one might expect

Each of these is proved, with the exact condition where there is one.

- A tool that fails with an empty message counts as a failed step but resets the failure counter
  (`CounterIsFailedSuffix`).
- A replayed call returns the stored form of a patch, and the typed checkpoint record
  (`src/blackboard/schema.py:417-459`) completes every patch with the defaults of all its fields. A restart is
  invisible if each stored form has the effect of the patch (`RestartIsInvisible`), which for such a record means
  that every field a patch lacks already holds its default (`DefaultsServeIff`, `DefaultsServeRunIff`). Otherwise it
  can show: a restarted task loses its generated code (`RestartIsVisible`; for the family of that run the exact
  condition is `RestartShowsIff`).
- A patch with a field that the record does not know raises when its checkpoint is assigned, after the node has run:
  the checkpoint stays `running` and the run leaves no result (`RefusedPatchEscapes`). The executor's `round_output`
  and the evidence compiler's `material_refresh_actions` are such fields.
- Without serialised reservations a tenant can exceed its limit (`SandboxSlots.BoundIsReached`).
- A failure between launching a container and returning from the start leaves the container running
  (`ContainerOutlivesIff`), and any failure between writing the code file and returning from the start leaves the
  file in place (`FileOutlivesIff`), although slot and registration are given back.
- Evidence rows can exceed `max_rows` by one for each source after the first (`RowsAreSound`,
  `EvidenceLaws.BoundIsReached`).
- Two rejection codes of the graph validator cannot occur there (`ValidateMeans`); the last branch of
  `_get_task_state_locked` (`src/blackboard/global_blackboard.py:89-91`) cannot be reached, since any row is
  newer than no cached state.
- A listing may show a newer state than the next read, exactly when a listed row is beyond both the cache and the
  load (`ReadAfterListingIff`, `ListingRunsAhead`); an idempotency fingerprint with outer blanks does not match itself
  (`RepeatIsReusedIff`).
- Normalising capability names twice is normalising them once exactly if the ids within reach are all names of their
  own, or all no names at all (`NormalizingIsIdempotentIff`, `MixedRegistryIsNotIdempotent`).
- Fitting items into a budget keeps the longest fitting prefix exactly if the counter never falls along the items
  (`LongestThatFitsIff`, `FirstMisfitStops`).
- An append after a restart hides and overwrites the events of the previous process, although the journal's
  description promises that streams survive restarts (`HistorySurvivesRestartIff`).
- A candidate whose own source is given but blank is refused, although its source could stand in for it (`RowIff`).
- A blank tool request is granted tools that would be refused if named (`BlankRequestIsUnexamined`), and
  `allow_unknown_tools` in standard mode also admits known tools outside the profile.

## Model

| member | source | states |
|---|---|---|
| `Checkpoints.World.Log` | src/dag_engine/dag_graph.py:64-116 | an event that the memo table allows keeps the log faithful: the tables are always what the log makes of them |
| `Checkpoints.RunNode` | src/dag_engine/dag_graph.py:53-116 | one checkpointed call adds exactly one log entry, leaves the state alone and keeps the log faithful, whether it replays, runs, raises, loses its lease, returns a patch that cannot be recorded, is denied or crashes |
| `CheckpointLaws.CallMeans` | src/dag_engine/dag_graph.py:60-116 | what one call does, read off its entry: it is answered by the stored patch or by the node, or it says why it stopped |
| `CallLaws.DeniedIff` | src/common/task_lease_runtime.py:28-42 | in every world a call is denied if and only if its task and lease owner are named and the lease is marked lost or not reported as owned; it then leaves the tables alone, and the mark, the reason or its default text, or the lookup error say why |
| `CallLaws.CallAnswers` | src/dag_engine/dag_graph.py:60-116 | any other call is answered by a completed checkpoint with a patch, or by what the node does; or it stops for the node's error, its lost lease, the refused patch or a crash |
| `CallLaws.CallLeaves` | src/dag_engine/dag_graph.py:71-116 | and it leaves every other checkpoint as it was, its own with one more attempt and the status, patch and error of how it ended, saved as far as the saves succeed |
| `CheckpointLaws.CompletedIsAbsorbing` | src/dag_engine/dag_graph.py:64-81 | no sequence of calls takes a replayable checkpoint away or changes its patch, in memory or in the store |
| `CheckpointLaws.CompletedIsNeverRun` | src/dag_engine/dag_graph.py:64-69 | a name that is completed is never run again by any later call |
| `CheckpointLaws.DurableIsNeverRerun` | src/dag_engine/dag_graph.py:101-116 | work whose completion was saved is done at most once in a run |
| `CheckpointLaws.DurableReachesTheEnd` | src/dag_engine/dag_graph.py:101-116 | a saved completion is still in memory and in the store, with its patch, when the run ends |
| `CheckpointLaws.AttemptsCountStarts` | src/dag_engine/dag_graph.py:71-81 | `attempt_count` rises by exactly the number of starts of that name |
| `CheckpointLaws.DeniedIsLast` | src/dag_engine/dag_graph.py:47-60 | in an orderly log nothing follows a refused lease check |
| `CheckpointLaws.StopIsLast` | src/dag_engine/dag_graph.py:82-113 | nothing follows a call without an answer: denied, broken off inside the node, or not recorded |
| `CheckpointLaws.StoppedMeans` | src/dag_engine/dag_graph.py:82-113 | a run stopped if and only if its last call was left without an answer, and then for that call's reason |
| `CheckpointLaws.BlockedThenSummarizerOnly` | src/dag_engine/dag_graph.py:286-299 | after a fired block check at most one entry follows, and it is the summarizer's |
| `CheckpointLaws.AuditedMeans` | src/dag_engine/dag_graph.py:405-420 | the summary of a log says "audited" only if an auditor's answer stands, with no coder or debugger after it |
| `CheckpointLaws.AuditBeforeExecute` | src/dag_engine/dag_graph.py:405-446 | no executor call without an auditor's answer after the latest coder or debugger answer |
| `CheckpointLaws.JudgesAreBounded` | src/dag_engine/dag_graph.py:405-446 | at every point: at most three rounds, and in the current one at most three auditor, two debugger and two executor calls |
| `CheckpointLaws.ExecutorNeedsCode` | src/dag_engine/dag_graph.py:422-446 | the executor is called only in a round whose coder answered and whose current action list does not ask for `dynamic` |
| `CheckpointLaws.SlackMeans` | src/dag_engine/dag_graph.py:279-457 | the length of a log counted against the action lists it took |
| `CheckpointNames.NamesDiffer` | src/dag_engine/dag_graph.py:137-457 | two calls share a checkpoint text only if they are the same call, so keeping checkpoints by structured name loses nothing |
| `CheckpointNames.NamesOfTheTask` | src/dag_engine/dag_graph.py:137-495 | the texts under which the calls of a task are checkpointed |
| `CheckpointNames.NamesOfARound` | src/dag_engine/dag_graph.py:332-454 | and those of a round: the node, the round, and what the call is for |
| `RoundEngine.TaskFlowIsBounded` | src/dag_engine/dag_graph.py:461-539 | a whole run is faithful, orderly, ends in an outcome that matches its last phase, and is linear in its action lists |
| `TaskEngine.Engine.RunCheckpointedNode` | src/dag_engine/dag_graph.py:53-116 | the imperative call, with its in-place rewrites of the checkpoint maps and its saves, is the specified call |
| `TaskEngine.Engine.RecordStart` | src/dag_engine/dag_graph.py:71-81 | marking a start and saving it is the table update that the laws speak about |
| `TaskEngine.Engine.RecordFailure` | src/dag_engine/dag_graph.py:85-99 | likewise for a failure |
| `TaskEngine.Engine.RecordCompletion` | src/dag_engine/dag_graph.py:101-115 | likewise for a completion, unless the typed record refuses the patch: then the assignment raises and neither table changes |
| `TaskEngine.Engine.Call` | src/dag_engine/dag_graph.py:281-286 | a call whose patch is folded into the state in place |
| `TaskEngine.Engine.CheckBlock` | src/dag_engine/dag_graph.py:286-297 | a block check that fires calls the summarizer and ends in the waiting verdict |
| `TaskEngine.Engine.RunEvidenceCompilerIfNeeded` | src/dag_engine/dag_graph.py:119-145 | evidence of a source is compiled once; afterwards the source is listed and the refresh is due |
| `TaskEngine.Engine.RunMaterialRefreshActions` | src/dag_engine/dag_graph.py:148-234 | the refresh loop over the deduplicated actions, with its block checks |
| `TaskEngine.Engine.PrepareRound` | src/dag_engine/dag_graph.py:259-317 | phases 0 and 1: resume overlay and data preparation |
| `TaskEngine.Engine.RouteRound` | src/dag_engine/dag_graph.py:319-339 | phase 2: the analyst runs, or the overlay's steps are taken |
| `TaskEngine.Engine.ActRound` | src/dag_engine/dag_graph.py:341-403 | phase 3: the action loop with its `has_coder` and `has_dynamic` flags |
| `TaskEngine.Engine.AuditRound` | src/dag_engine/dag_graph.py:405-420 | phase 4: audit, and debug and audit again if the auditor asks |
| `TaskEngine.Engine.ExecuteRoundCode` | src/dag_engine/dag_graph.py:422-446 | phase 5: execute, and repair and retry after a failed verification |
| `TaskEngine.Engine.ExecuteRound` | src/dag_engine/dag_graph.py:240-458 | a whole round is the specified round |
| `TaskEngine.Engine.ExecuteTaskFlow` | src/dag_engine/dag_graph.py:461-539 | the round loop, the closing summary, the verdict and the lease handler are the specified run |
| `AgendaLaws.RunFollowsAgenda` | src/dag_engine/dag_graph.py:119-539 | every run is the run of an agenda machine, which states item by item what each call, check and phase puts on the list of things to do |
| `AgendaLaws.AgendaEndsOnce` | src/dag_engine/dag_graph.py:461-539 | an agenda is done in one way only |
| `FlowWords.ActionsAreWords` | src/dag_engine/dag_graph.py:281-393 | the words of action lists are read so that each word stands for itself alone |
| `FlowWords.PlanRoundTrip` | src/dag_engine/dag_graph.py:334-339 | a plan written to `next_actions` is read back as the same plan |
| `FlowWords.OverlayMeans` | src/common/control_plane.py:44-65 | an overlay resumes if and only if its continuation says so, and then names the `analyst` and `coder` steps of its two lists, blanks aside |
| `FlowWords.WithoutMeans` | src/dag_engine/dag_graph.py:337-338 | dropping the analyst from the overlay's steps drops it everywhere and nothing else |
| `FlowWords.CompiledIsListed` | src/dag_engine/dag_graph.py:126-145 | a compiled source is found in the list that its compilation wrote |
| `TaskHistory.RunIsOrderly` | src/dag_engine/dag_graph.py:461-539 | every run's log respects the memo table and the ordering rules and is linear in the action lists read |
| `TaskHistory.RunAuditsBeforeExecuting` | src/dag_engine/dag_graph.py:405-446 | in every run, audit comes before execution, and execution only follows code of the same round |
| `TaskHistory.RunIsBounded` | src/dag_engine/dag_graph.py:405-493 | in every run and at every point of it, the bounds on rounds and on judging calls hold |
| `TaskHistory.LostLeaseCutsOff` | src/dag_engine/dag_graph.py:533-539 | in every run a call without an answer is the last entry; if the lease was lost, before the node or inside it, the run fails with `lease_lost`, and for any other reason it leaves no result |
| `TaskHistory.EscapesIff` | src/dag_engine/dag_graph.py:533-539 | a run leaves no result if and only if its last call had no answer for another reason than a lost lease |
| `TaskHistory.NodeLosesLease` | src/dag_engine/dag_graph.py:83-99 | a lease lost inside a node is followed by exactly one table write, the failed checkpoint, and the run fails with `lease_lost` |
| `TaskHistory.RefusedPatchEscapes` | src/dag_engine/dag_graph.py:101-113 | a patch that the typed record refuses: the node has run once more, its checkpoint still says that it is running, and the run escapes with the record's error |
| `TaskHistory.BlockEndsTheRun` | src/dag_engine/dag_graph.py:177-216 | in every run, once a block check fires only the summarizer is called, and unless that call stops the run the task waits for a human |
| `RunVerdict.RunIsJudged` | src/dag_engine/dag_graph.py:472-528 | a run that no block check and no lost call ended returns the state with the terminal status a node set, or is judged by the state its summarizer left: `success`, `waiting_for_human` or `failed`, with failure type and message, each if and only if `dynamic_status`, the execution record and the reported input gaps say so |
| `RunVerdict.RunEndings` | src/dag_engine/dag_graph.py:177-539 | every run ends in one of three ways: its last call has no answer; a block check fired in a blocked state, with its failure type and the state's reason; or it is closed |
| `RunVerdict.LostLeaseIsJudged` | src/dag_engine/dag_graph.py:533-539 | a lost lease gives the state with `failed`, `lease_lost` and the reason |
| `RunVerdict.AsksMeans` | src/dag_engine/dag_graph.py:30-44 | a final response asks for human follow-up if and only if its strategy family or one of its outputs, by artifact key or name, reports missing inputs |
| `TaskHistory.RunCountsAttempts` | src/dag_engine/dag_graph.py:71-81 | over a run the attempt counter of every name rises by its starts |
| `TaskHistory.RunLeavesCompletedAlone` | src/dag_engine/dag_graph.py:64-69 | a run started from the store neither runs nor changes what it finds completed there |
| `TaskHistory.CompletedForLife` | src/dag_engine/dag_graph.py:64-81 | over any sequence of runs, rounds and crashes a completed name keeps its patch and its node is never invoked again |
| `TaskHistory.SavedWorkSurvives` | src/dag_engine/dag_graph.py:101-116 | a completion that was saved is in the store with its patch at the end of the task's life |
| `TaskHistory.WorkIsDoneOnce` | src/dag_engine/dag_graph.py:484-489 | after a saved completion no later run invokes that node, so `dynamic` and each evidence compilation complete at most once per task |
| `RestartTransparency.AttemptFollows` | src/dag_engine/dag_graph.py:461-539 | one attempt from what earlier attempts saved keeps the store between its start and what the uncut run ends with, and if not stopped ends as the uncut run does |
| `RestartTransparency.StoreStaysBetween` | src/dag_engine/dag_graph.py:461-539 | the same over any number of attempts |
| `RestartTransparency.RestartIsInvisible` | src/dag_engine/dag_graph.py:461-539 | if every patch the uncut run completed has, in its stored form, the effect of the patch itself, then after any number of attempts, cut between any two steps, an attempt that gets through has the same outcome and state as the uncut run |
| `RestartTransparency.ReplayIsTheStoredPatch` | src/dag_engine/dag_graph.py:22-27 | a call that completed and is asked for again is answered with the stored form of its patch |
| `RestartTransparency.DefaultsServeIff` | src/blackboard/schema.py:417-459 | folding a patch completed with defaults is folding the patch if and only if each field the patch lacks already holds its default |
| `RestartTransparency.ReplayWithDefaultsIff` | src/blackboard/schema.py:417-459 | a replay from such a record leads to the same state if and only if that holds of the state |
| `RestartTransparency.DefaultsServeRunIff` | src/blackboard/schema.py:417-459 | such a record meets the hypothesis of `RestartIsInvisible` if and only if that holds at every completion of the uncut run, with the same decisions |
| `RestartVisibility.RestartShowsIff` | src/dag_engine/dag_graph.py:64-69 | a task blocked at data inspection, cut before its summarizer and run again, ends in the state of the uncut run if and only if the patch and its stored form lead to the same end |
| `RestartVisibility.RestartIsVisible` | src/blackboard/schema.py:417-459 | with the record's empty default for `generated_code`, whatever its other defaults, such a task that holds code ends in another state when it is restarted |
| `Exploration.RunExplorationLoop` | src/dynamic_engine/exploration_loop.py:334-548 | the loop, appending to messages, steps and events, computes the specified exploration |
| `Exploration.RunToolCalls` | src/dynamic_engine/exploration_loop.py:439-505 | the inner loop over the tool calls of one message |
| `ExplorationRuns.RunFollowsReplies` | src/dynamic_engine/exploration_loop.py:384-548 | for every model and every tools: the steps are, one for one, the calls that the assistant messages ask for, and record what each tool gave; those messages are the model's replies with tool calls; and the run ends as its last reply says, or because three failures with a message came in a row |
| `ExplorationRuns.ExposedMeans` | src/dynamic_engine/exploration_loop.py:172-193 | a tool is exposed if and only if it is available, not excluded, and allowed if anything is said about that |
| `ExplorationProtocol.TranscriptProtocol` | src/dynamic_engine/exploration_loop.py:384-548 | for every model and every tool: each request shows only answered tool calls and a counter below three; steps, replies and `tool_result` events correspond; at most max(0, max_steps) + 1 requests |
| `ExplorationProtocol.ExchangeMeans` | src/dynamic_engine/exploration_loop.py:432-480 | in such a transcript each assistant message is followed at once by one reply per call, in order and with its id, and there are no other replies |
| `ExplorationProtocol.KnowledgeWasShown` | src/dynamic_engine/exploration_loop.py:278-280 | the external knowledge a run hands on is what its tool replies showed the model, in that order |
| `ExplorationProtocol.CounterIsFailedSuffix` | src/dynamic_engine/exploration_loop.py:481-507 | the failure counter is the length of the all-failing suffix of steps if and only if no failing step in it has an empty error text |
| `ExplorationProtocol.EmptyErrorResetsTheCounter` | src/dynamic_engine/exploration_loop.py:481-507 | a tool failing with an empty text is a failed step that resets the counter |
| `Lexicon.RunMatchText` | src/compiler/kag/lexicon.py:145-191 | collecting, sorting and accepting in loops computes the specified matches |
| `Lexicon.CollectMatches` | src/compiler/kag/lexicon.py:157-172 | the automaton's iteration yields the occurrences by end position |
| `Normalization.NormalizeMeans` | src/compiler/kag/lexicon.py:24-25 | normalising gives the words of a text in lower case with single spaces between them |
| `Normalization.SameNormalIff` | src/compiler/kag/lexicon.py:24-25 | normalising twice is normalising once, and two texts are the same to the matcher if and only if their words are the same but for case |
| `LexiconLaws.RawIsAllOccurrences` | src/compiler/kag/lexicon.py:157-180 | the sorted raw matches are exactly the occurrences of all entries, in the order of the key |
| `LexiconLaws.OccurrenceMeans` | src/compiler/kag/lexicon.py:145-191 | an occurrence splits the text into what comes before the surface, the surface, and what comes after it |
| `LexiconLaws.GreedyIsAgainstLast` | src/compiler/kag/lexicon.py:182-191 | comparing with the last accepted span alone accepts the same matches as comparing with all |
| `LexiconLaws.AgainstLastScans` | src/compiler/kag/lexicon.py:182-191 | that form is a left-to-right scan which takes the first span that starts no earlier than the last one ended, with all its entries |
| `LexiconLaws.MatcherScans` | src/compiler/kag/lexicon.py:145-191 | the matcher is the leftmost-longest scan of all occurrences |
| `LexiconLaws.RejectedClashes` | src/compiler/kag/lexicon.py:182-191 | every occurrence is accepted or clashes with an accepted one that sorts before it |
| `LexiconLaws.MatchesAreLeftmostLongest` | src/compiler/kag/lexicon.py:158-191 | only occurrences are returned; returned spans are identical or disjoint; a rejected occurrence overlaps a returned span that starts no later; all entries of a returned span are returned |
| `LexiconLaws.MatchesAreInOrder` | src/compiler/kag/lexicon.py:145-191 | matches come by their starts, and those of one span by category in the preferred order |
| `Sorting.SortSorts` | src/compiler/kag/lexicon.py:173-180 | the sort orders by the key and keeps the items |
| `Sorting.SortIsStable` | src/common/control_plane.py:608 | items with equal keys keep their order |
| `Sorting.SortedIsFixed` | src/common/control_plane.py:608 | sorting a sorted list changes nothing |
| `DomainMerge.RunMergeListUnique` | src/common/control_plane.py:632-638 | the list merge loop appends each new item once |
| `DomainMerge.RunMergeDomainPatch` | src/common/control_plane.py:654-658 | the patch loop, in any key order, is the specified merge |
| `DomainMerge.NullIsIdentity` | src/common/control_plane.py:641-643 | null is a two-sided identity |
| `DomainMerge.ListMergeIsAssociative` | src/common/control_plane.py:632-638 | list merging is associative |
| `DomainMerge.MergeIsIdempotent` | src/common/control_plane.py:641-651 | merging the same value twice is merging it once, for all values |
| `DomainMerge.PatchMergeIsIdempotent` | src/common/control_plane.py:654-658 | and so for whole patches; the empty patch changes nothing |
| `DomainMerge.PatchKeepsFields` | src/common/control_plane.py:654-658 | a field that a patch lacks or gives as null keeps its value, and a new field is added as it is |
| `DomainMerge.PatchReplacesIff` | src/common/control_plane.py:641-658 | merging a patch gives the patch alone if and only if it absorbs what was there |
| `DomainMerge.AbsorbedMeans` | src/common/control_plane.py:641-651 | what it takes for nothing of a value to outlive a merge, said of its shape |
| `DomainMerge.MergeAssociatesIffCoherent` | src/common/control_plane.py:641-651 | merging is associative if and only if no middle value of another kind separates two containers that do not absorb each other, at any shared path |
| `DomainMerge.PatchesAssociateIffCoherent` | src/common/control_plane.py:641-658 | patches merge in either grouping if and only if they are coherent |
| `DomainMerge.MergedAlong` | src/common/control_plane.py:625-651 | at any path: null changes nothing, lists are joined without repeats with the old items first, and what is no pair of maps or lists is replaced |
| `DomainMerge.SameShapeAssociates` | src/common/control_plane.py:641-651 | in particular whenever the three values agree in kind at each path |
| `DomainMerge.ScalarBetweenMaps` | src/common/control_plane.py:641-651 | an input for which it is not associative |
| `SandboxExecution.RuntimeState.IncrementTenantConcurrency` | src/sandbox/runtime_state.py:99-101 | the counter rises by one from zero if absent |
| `SandboxExecution.RuntimeState.DecrementTenantConcurrency` | src/sandbox/runtime_state.py:104-112 | an absent counter stays absent and one that would reach zero is dropped |
| `SandboxExecution.RuntimeState.ReserveTenantSlot` | src/sandbox/execution_flow.py:97-112 | a slot is reserved exactly if the counter is below the limit |
| `SandboxExecution.RuntimeState.StartSandboxContainer` | src/sandbox/execution_flow.py:115-172 | what exists and is registered after each way a start can fail |
| `SandboxExecution.RuntimeState.ExecuteCodeInDocker` | src/sandbox/execution_orchestration.py:63-213 | on every path through try, handlers and finally, a lone execution plays exactly its script of protocol moves |
| `SandboxExecution.ScriptPlays` | src/sandbox/execution_orchestration.py:63-213 | the script is legal and ends, and what it leaves behind |
| `SandboxExecution.LeftBehind` | src/sandbox/execution_orchestration.py:63-213 | a lone execution gives back its slot and registration; its file and its container are left exactly if they came to be and the start did not return or they could not be removed |
| `SandboxExecution.ReplyMeans` | src/sandbox/execution_orchestration.py:66-199 | the reply is a success if and only if the start returned and the run did not fail, a denial if and only if governance denied, and a raised error only where the handler raises |
| `SandboxSlots.CounterCountsHolders` | src/sandbox/runtime_state.py:94-112 | under every interleaving a tenant's counter is the number of its executions between increment and decrement, and absent exactly if there is none |
| `SandboxSlots.CounterIsBounded` | src/sandbox/execution_flow.py:97-112 | the counter never exceeds limit - 1 + w if at most w executions sit between check and increment |
| `SandboxSlots.SerialReservationsKeepTheLimit` | src/sandbox/execution_flow.py:97-112 | one at a time, reservations never exceed the limit |
| `SandboxSlots.BoundIsReached` | src/sandbox/execution_flow.py:97-112 | for every limit and window some interleaving reaches limit - 1 + w: the bound is exact and the plain limit is not kept |
| `SandboxSlots.NothingIsLeft` | src/sandbox/execution_orchestration.py:200-213 | once all executions ended, no counter and no registered container is left |
| `SandboxSlots.ContainerOutlivesIff` | src/sandbox/execution_orchestration.py:86-92 | a container outlives its execution exactly if it was launched and the start did not return or the removal failed |
| `SandboxSlots.FileOutlivesIff` | src/sandbox/execution_orchestration.py:86-92 | a code file outlives its execution exactly if it was written and the start did not return or the file could not be removed |
| `GlobalBlackboard.Board.GetTaskState` | src/blackboard/global_blackboard.py:78-92 | the persisted row wins if newer; the cache is otherwise kept |
| `GlobalBlackboard.Board.IterKnownGlobalStates` | src/blackboard/global_blackboard.py:94-112 | the listing loop is the specified listing |
| `GlobalBlackboard.Board.Create` | src/blackboard/global_blackboard.py:135-185 | creation reuses, refuses or creates as specified, and caches what it creates |
| `GlobalBlackboard.Board.FindTaskByIdempotency` | src/blackboard/global_blackboard.py:187-203 | the first known task with the stripped key |
| `GlobalBlackboard.Board.UpdateGlobalStatus` | src/blackboard/global_blackboard.py:220-238 | a status update stamps the newest known state and caches it |
| `BoardUpdates.UpdateIsRead` | src/blackboard/global_blackboard.py:220-238 | after an update, written or not, the same process reads the newest state it knew with the new status and the time of the update, and nothing else changed |
| `BoardUpdates.CreationMeans` | src/blackboard/global_blackboard.py:135-185 | a task is created if and only if no known one of the tenant and workspace has the stripped key; it is then pending with stripped key and fingerprint; otherwise the first such task conflicts or is the answer |
| `GlobalBlackboard.ListingIsNewest` | src/blackboard/global_blackboard.py:94-112 | the listing holds for each task the newest of its cached state and its rows, the cached or earlier one on a tie, and nothing else |
| `BoardHistory.ReadsNeverGoBack` | src/blackboard/global_blackboard.py:53-92 | with any number of processes, write orders, failing loads and lost writes, the states one process reads of one task never go back in time |
| `BoardListing.ReadFallsBehindIff` | src/blackboard/global_blackboard.py:94-112 | a read after a listing is missing or older than what was listed if and only if some listed row of the task is newer than the cached state and the load fails or gives something older than that row |
| `BoardListing.ReadAfterListingIff` | src/blackboard/global_blackboard.py:94-112 | the same in every run of any processes, with any moves between the listing and the read |
| `BoardListing.ListingRunsAhead` | src/blackboard/global_blackboard.py:94-112 | a run from the beginning in which it happens |
| `BoardHistory.CreationIsIdempotent` | src/blackboard/global_blackboard.py:149-185 | in a run of one process a second request with the same key never creates a task, and both name the same one unless refused |
| `BoardHistory.RepeatIsReusedIff` | src/blackboard/global_blackboard.py:156-172 | repeating a request gets its task back if and only if its fingerprint is blank or has no outer blanks |
| `BoardHistory.SoleThroughout` | src/blackboard/global_blackboard.py:149-185 | the hypothesis of both holds from the beginning of any such run |
| `EventCursor.BuildAnalysisEvents` | src/api/app_presenters.py:345-403 | one poll with its `seen` flag: the visible events after the cursor, and the next cursor |
| `EventCursor.ReadRows` | src/common/event_journal.py:55-57 | filtering by workspace |
| `EventCursor.NothingAfterLast` | src/api/app_presenters.py:402 | the last visible event is followed by invisible ones only |
| `EventCursor.PollCatchesUp` | src/api/app_presenters.py:345-403 | after a poll everything visible so far has been delivered |
| `EventCursor.EachEventOnce` | src/api/app_presenters.py:345-403 | for any interleaving of appends and polls, all polls and one more give exactly the visible events of the workspace, in order, each once |
| `EventCursor.PollsShowAll` | src/api/app_presenters.py:345-403 | the items a client gets show, at increasing positions, exactly the appended events of its workspace that are not internal, each with its id, topic, time and status |
| `EventJournal.EventJournal.Append` | src/common/event_journal.py:26-31 | an append extends the memory list and mirrors it, and touches no other task |
| `EventJournal.EventJournal.Read` | src/common/event_journal.py:33-57 | a read restores a task that memory lacks, and filters by workspace |
| `EventJournal.ReadsReturnTheLog` | src/common/event_journal.py:26-57 | within one process a read returns everything appended, in order |
| `EventJournal.MirrorIsLastSaved` | src/common/event_journal.py:63-79 | the stored mirror is what memory was right after the last append that was mirrored |
| `EventJournal.RestartReadsTheMirrored` | src/common/event_journal.py:33-57 | a restarted process that reads first gets what its predecessor had appended up to that append |
| `EventJournal.HistorySurvivesRestartIff` | src/common/event_journal.py:26-57 | across a restart the old events survive if and only if no append comes before the first successful load |
| `OutputIds.BuildAnalysisOutputs` | src/api/app_presenters.py:246-276 | sorted outputs are listed under ids counting from one |
| `OutputIds.ResolveOutput` | src/api/app_presenters.py:279-304 | an id resolves to the entry at its position, and any other text to nothing |
| `OutputIds.EntriesAreOrdered` | src/common/control_plane.py:599-606 | the sort key is a total preorder on entries |
| `OutputIds.SortTwiceIsSortOnce` | src/common/control_plane.py:591-608 | sorting outputs again changes nothing |
| `OutputIds.OutputsAreInOrder` | src/common/control_plane.py:591-608 | outputs are listed by category, then by name, title or path, then by path, as texts compare without regard to case |
| `OutputIds.PositionInId` | src/api/app_presenters.py:299 | the number behind the last underscore is the position, whatever the task is called |
| `OutputIds.ListThenResolve` | src/api/app_presenters.py:279-304 | the id of the i-th listed item finds that item again and picks the entry it was made from |
| `DecimalText.ParseOfDigits` | src/api/app_presenters.py:299 | reading back a printed number |
| `Evidence.Compiler.Handle` | src/compiler/kag/evidence.py:261-322 | handling a source updates references, rows and hits as specified, with both breaks |
| `Evidence.Compiler.Take` | src/compiler/kag/evidence.py:287-302 | the inner candidate loop, which stops right after the row that reaches the cap |
| `Evidence.CompileExternalEvidence` | src/compiler/kag/evidence.py:239-375 | the whole compilation is the specified one |
| `EvidenceRows.RowIff` | src/compiler/kag/evidence.py:176-206 | a candidate becomes a row if and only if entity, metric, period and a unit or currency are not blank, its value is a number, and the first source given is not blank |
| `EvidenceRows.RowKeeps` | src/compiler/kag/evidence.py:176-206 | the row keeps the stripped texts and the number, and takes from the source what the candidate does not give |
| `EvidenceRows.RowsAreAll` | src/compiler/kag/evidence.py:239-375 | below the cap the rows are all different rows of all candidates, in order, and the candidates without a row are counted |
| `EvidenceRows.TakesFirst` | src/compiler/kag/evidence.py:287-302 | at the cap a payload still only adds the first of its rows that are not there yet |
| `EvidenceRows.HitsAreOfSources` | src/compiler/kag/evidence.py:306-322 | every hit says what a source with text says |
| `EvidenceLaws.TruncateFits` | src/compiler/kag/evidence.py:63-67 | a truncated text has at most max(limit, 3) characters |
| `EvidenceLaws.TruncateMeans` | src/compiler/kag/evidence.py:63-67 | a text that is too long is cut to the length of the limit with its three dots, and only such a text |
| `EvidenceLaws.BuiltRowsAreWellFormed` | src/compiler/kag/evidence.py:176-206 | what is built is a well-formed row |
| `EvidenceLaws.RowsAreSound` | src/compiler/kag/evidence.py:285-302 | rows are distinct and well formed, at most max(1, max_rows) plus one for each source after the first, and flagged truncated exactly if the cap was reached |
| `EvidenceLaws.BoundIsReached` | src/compiler/kag/evidence.py:285-302 | the bound is exact |
| `EvidenceLaws.SourceGivesRowsOrHit` | src/compiler/kag/evidence.py:285-322 | each source with text gives new rows or exactly one hit, never both |
| `EvidenceLaws.TextIsConserved` | src/compiler/kag/evidence.py:285-322 | hits and row-bringing sources together are the sources with text |
| `EvidenceLaws.RefreshMeans` | src/compiler/kag/evidence.py:361-365 | what the patch asks to be refreshed, in terms of rows and texts |
| `EvidenceLaws.RefsAreUniqueAndOrdered` | src/compiler/kag/evidence.py:269-271 | references are duplicate-free, in order of first mention, although cleaned again at every source |
| `ListLaws.UniqueStringsMeans` | src/compiler/kag/evidence.py:51-60 | the unique strings are the cleaned texts, each once |
| `Graph.GraphCompiler.CompileEntityGraph` | src/compiler/kag/graph.py:258-283 | the nested loops of the entity pass |
| `Graph.GraphCompiler.CompileSemanticGraph` | src/compiler/kag/graph.py:286-310 | each topic with the next three |
| `Graph.GraphCompiler.CompileTemporalGraph` | src/compiler/kag/graph.py:313-336 | each time with the first four topics |
| `Graph.GraphCompiler.CompileCausalGraph` | src/compiler/kag/graph.py:339-374 | first and last topic, if there is a marker |
| `Graph.RunCompileRelations` | src/compiler/kag/graph.py:82-103 | grouping by chunk and compiling chunk by chunk is the specified compilation |
| `GraphLinks.CompiledIff` | src/compiler/kag/graph.py:82-374 | a relation is compiled if and only if one of four rules names it, over the entities of a chunk, and a match supports it |
| `GraphLinks.MarkerIsReportedIff` | src/compiler/kag/graph.py:339-374 | a missing marker is reported once for a chunk with text and two topics but no causal entity, and for no other |
| `GraphLinks.MembersSelect` | src/compiler/kag/graph.py:82-103 | the entities of a chunk are those with its id, in order |
| `GraphLinks.PickSelects` | src/compiler/kag/graph.py:258-374 | the entities of a kind are chosen in order, and all of them |
| `GraphLaws.ValidateMeans` | src/compiler/kag/graph.py:44-54 | a candidate is accepted if and only if it has chunk, evidence and an allowed combination; two of the four codes are never given here |
| `GraphLaws.AllowedIff` | src/compiler/kag/graph.py:29-41 | the legal combinations of graph, relation and types are these eleven and no others |
| `GraphLaws.CandidatesAreProposed` | src/compiler/kag/graph.py:258-374 | the passes only propose allowed combinations |
| `GraphLaws.ChunkIsAccountedFor` | src/compiler/kag/graph.py:134-139 | rejected are exactly the candidates without evidence, and the missing marker |
| `GraphLaws.NothingIsLost` | src/compiler/kag/graph.py:82-103 | over all chunks, accepted and rejected are together all candidates and one more per chunk refused for want of a marker |
| `GraphLaws.ExactCandidateCount` | src/compiler/kag/graph.py:258-374 | the exact number of candidates of a chunk with distinct ids |
| `GraphLaws.SemanticPassIsExact` | src/compiler/kag/graph.py:286-310 | the semantic pass yields exactly 3n - 6 relations for n >= 3 supported topics, all accepted |
| `TokenBudget.FitItemsToBudget` | src/common/utils.py:138-160 | the loop keeps a prefix all of whose nonempty prefixes fit and that one more item would break; a nonempty result fits; no budget keeps nothing |
| `TokenBudget.RecountMeans` | src/common/utils.py:124-131 | the heuristic counts two tokens, and four on top of the text of each message |
| `TokenBudget.StopsOnce` | src/common/utils.py:138-160 | for any counter that prefix is determined |
| `TokenBudget.LargerBudgetExtends` | src/common/utils.py:138-160 | a larger budget only extends it |
| `TokenBudget.FitWithRunningSum` | src/common/utils.py:124-131 | with the heuristic counter a running sum keeps the same prefix as the full recount |
| `TokenBudget.LongestThatFits` | src/common/utils.py:138-160 | with a counter that never falls along the items, a nonempty prefix fits if and only if it is no longer than what is kept |
| `TokenBudget.LongestThatFitsIff` | src/common/utils.py:138-160 | for every budget the longest fitting prefix is kept if and only if the counter never falls along the items, from one above one |
| `TokenBudget.HeuristicNeverFalls` | src/common/utils.py:124-131 | the heuristic counter never falls |
| `TokenBudget.FirstMisfitStops` | src/common/utils.py:138-160 | with a counter that reads messages as one text, a word completed by a second item is lost although it fits |
| `Capabilities.CapabilityRegistry.Register` | src/common/capability_registry.py:37-38 | registering replaces the capability of that id in place and keeps ids apart |
| `Capabilities.CapabilityRegistry.Get` | src/common/capability_registry.py:40-49 | an id is found before any alias, without regard to case or outer blanks |
| `Capabilities.LookupMeans` | src/common/capability_registry.py:40-49 | a stripped lower-case name refers to the capability with that id, only without one to the first with that alias, and a blank one to nothing |
| `Capabilities.CapabilityRegistry.ResolveNames` | src/common/capability_registry.py:51-66 | remembering ids resolves each capability once, in order, and lists unknown names |
| `Capabilities.ResolvedMeans` | src/common/capability_registry.py:51-66 | what a list of names resolves to depends only on which names occur |
| `Capabilities.CanonicalIdsNameThemselves` | src/common/capability_registry.py:40-49 | ids in lower case and without outer blanks name their own capability |
| `Capabilities.NormalizingIsIdempotent` | src/common/capability_registry.py:68-72 | normalising names twice is normalising them once, if the ids within reach all name their own capabilities, or all name nothing |
| `Capabilities.NormalizingIsIdempotentIff` | src/common/capability_registry.py:68-72 | and for distinct ids only then: the condition is exact for the lists of all names |
| `Capabilities.ReachedIff` | src/common/capability_registry.py:40-49 | some name reaches a capability if and only if its id or one of its aliases does, so the condition can be checked on the registry |
| `Capabilities.MixedRegistryIsNotIdempotent` | src/common/capability_registry.py:68-72 | a registry with an id in capitals beside one in lower case, where normalising twice differs |
| `Capabilities.LostIdsMove` | src/common/capability_registry.py:68-72 | an id within reach that names nothing moves behind the known names |
| `Governance.EvaluateDynamicRequest` | src/harness/governor.py:31-119 | risk, level, permission and grants as specified, adjusted step by step |
| `Governance.EvaluateToolRequest` | src/harness/governor.py:176-228 | the plain tool request |
| `GovernanceLaws.DynamicIsAntitone` | src/harness/governor.py:43-107 | if a list of tools is allowed so is every sublist, in standard and in core mode |
| `GovernanceLaws.AuthorizationIsAntitone` | src/harness/governor.py:176-204 | the same for plain tool requests |
| `GovernanceLaws.AuthorizedIff` | src/harness/governor.py:176-204 | a request is authorized if and only if every tool it wants refers to a capability that the profile lists and that needs no network or has it mediated as the profile has |
| `GovernanceLaws.GrantedIff` | src/harness/governor.py:93-107 | a request that names tools is granted the capabilities these refer to, those of the profile only unless unknown tools are let through |
| `GovernanceLaws.RiskAdds` | src/harness/governor.py:48-68 | what each fact about a request adds to its risk |
| `GovernanceLaws.RiskIsLowIff` | src/harness/governor.py:48-98 | which requests are of low risk |
| `GovernanceLaws.UnauthorizedIsHigh` | src/harness/governor.py:69-100 | a dynamic request is of high risk if and only if it is not authorized or its own risk reaches the threshold |
| `GovernanceLaws.GrantsStayInProfile` | src/harness/governor.py:93-107 | with unknown tools off, everything granted is in the profile |
| `GovernanceLaws.NothingIsLost` | src/harness/governor.py:93-107 | an authorized nonempty request is granted all it resolves to |
| `GovernanceLaws.CoreModeAuthorizes` | src/harness/governor.py:77-92 | in core mode allowed means authorized and below the risk threshold, whatever the flag for unknown tools says |
| `GovernanceLaws.StandardModeIff` | src/harness/governor.py:77-92 | in standard mode a request is allowed if and only if that flag is set or every tool it wants is listed and within reach of the profile |
| `GovernanceLaws.StandardModeWithUnknownToolsAllowsAll` | src/harness/governor.py:77-92 | in standard mode that flag also lets known tools outside the profile through |
| `GovernanceLaws.BlankRequestIsUnexamined` | src/harness/governor.py:93-107 | a blank request is granted the profile's tools, while naming these is refused exactly if one needs network access the profile lacks |
| `Redaction.MergeRedactionReports` | src/privacy/data_masker.py:19-34 | merging reports in a loop |
| `Redaction.RunMaskText` | src/privacy/data_masker.py:37-63 | rule by rule, each on what the ones before left |
| `Redaction.RunMaskPayload` | src/privacy/data_masker.py:66-94 | the structural recursion with its accumulators |
| `RedactionLaws.TextIsMaskedInStages` | src/privacy/data_masker.py:37-63 | from text to result each rule passes on the text in which it finds nothing and its substitution of any other, and the findings are the matches of the rules in these texts, in order |
| `RedactionLaws.NothingIsLeft` | src/privacy/data_masker.py:37-63 | if no substitution leaves a match of its own rule or brings back one of an earlier rule, no rule finds anything in the result |
| `RedactionLaws.NoMatchIffClean` | src/privacy/data_masker.py:37-63 | a report is empty if and only if no rule finds anything in the text, which is then left alone |
| `RedactionLaws.PayloadIsClean` | src/privacy/data_masker.py:66-94 | with such rules nothing is found in any text of a masked payload that was not empty |
| `Redaction.MergeIsAssociative` | src/privacy/data_masker.py:19-34 | merging reports is associative |
| `Redaction.EmptyIsIdentity` | src/privacy/data_masker.py:11-16 | with the empty report as identity |
| `Redaction.MergeAllOfSum` | src/privacy/data_masker.py:19-34 | so lists of reports merge in any grouping |
| `Redaction.ReportIsThatOfLeaves` | src/privacy/data_masker.py:66-94 | a payload's report is that of its texts, each masked by itself, merged in order |
| `Redaction.PayloadReportIsBalanced` | src/privacy/data_masker.py:54-63 | match count, findings and rule hits agree, and every hit has its finding |
| `Redaction.OnlyTextsChange` | src/privacy/data_masker.py:66-94 | masking keeps shape, keys and whatever is not text |
| `Redaction.NoMatchNoChange` | src/privacy/data_masker.py:37-94 | no match means no change |

## Left out

- Node bodies, language models, Docker, databases, regular expressions and ANTLR: they are parameters of the
  model, unconstrained unless a lemma says so.
- `StateRepo`: an atomic store whose loads and saves may fail. No mutual exclusion between instances is claimed,
  because the lease check and the node call are separate steps.
- Pydantic coercion: a patch is a sparse map, `Env.stored` says what the typed record makes of it and `Env.refusal`
  why it does not take it; which patches these are is a parameter.
- Values of unexpected JSON types under the engine's own keys, which raise in the original, as an unknown
  continuation of an overlay does: such a value reads as absent.
- A node missing from the node map (a `KeyError` in the original) other than the two that the code looks up with a
  default.
- Timestamps inside checkpoints, log messages, metrics, HTTP routing, authentication and the event bus threads.
- `Lexicon.RunMatchText`: does not model normalisation beyond ASCII letters and four blanks.
- `Exploration.RunExplorationLoop`: does not model the fields parsed from the final answer, the `on_event` callbacks,
  nor tool arguments whose decoding raises.
- Text normalisation beyond ASCII letters and the four common blanks; regular-expression normalisation of blanks in
  the lexicon is modelled on those blanks.
- The prompt and schema texts and the structuring of web results of the exploration loop.
- `classify_query`: six filters of the matches.
- `ExecutionBlackboard` and the lease loss marks: the store under the checkpoints appears as the engine's memory and
  store tables, and the marks as an answer of the environment.
- Equality of booleans and integers in list merging: `True` and `1` are the same item to the original.
- The order of keys in nested dictionaries; ordered dictionaries that matter (the task cache, the registry, the chunks
  of a graph, the entries of a masked payload) are sequences.
- `GlobalBlackboard.Board.UpdateGlobalStatus`: does not model the extra fields a caller may set, in particular
  `updated_at` itself, which no caller in the repository passes; archiving is such an update.
- Task states as shared mutable objects: a state read earlier changes when the same process updates it. The model
  speaks of the values at the time of reading.
- `GlobalBlackboard.Board.Create`: does not model the query text and the retry limit of a task, and leaves the
  persisting of a created state to the caller, as a move of its own.
- `EventCursor.BuildAnalysisEvents`: does not model the titles, messages and kinds of the items.
- `EventJournal.EventJournal.Read`: does not model the search over all tenants when no tenant is given.
- `OutputIds.BuildAnalysisOutputs`: does not model the type, summary, preview kind and download link of an output.
- `OutputIds.ResolveOutput`: does not model the file-system checks after the entry is found.
- `Evidence.Compiler.Handle`: does not model the business context collected beside the rows.
- `Evidence.CompileExternalEvidence`: does not model the extraction of business context, hashing, JSON parsing and the
  dataset file; a source comes with its candidates.
- `Graph.RunCompileRelations`: does not model the relations compiled from rule, metric and filter specifications.
- `Governance.EvaluateDynamicRequest`: does not model the texts of the reasons and the metadata; keywords are two flags
  of the query, and risk is an exact real.
- `Governance.EvaluateToolRequest`: does not model the risk score and level, which for such a request decide nothing.
- `evaluate_sandbox_execution` and the AST auditor's rules: only easy members.
- `TokenBudget.FitWithRunningSum`: does not model the floating-point product inside the estimate, which is a parameter.
- `SandboxExecution.RuntimeState.ExecuteCodeInDocker`: does not model exceptions raised before its `try`, the texts of
  replies, or a code file half written by a failing preparation; trace ids are taken to be distinct.
- The compilation of the lexicon from its configuration, and the Aho-Corasick automaton, which is taken to report all
  occurrences.
