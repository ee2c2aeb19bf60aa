# farmcode workflow orchestrator: a Dafny model

The farmcode orchestrator drives a feature from a GitHub issue to a merged
change. It moves the feature through a fixed sequence of phases. Each work
phase is handled by agents that announce completion in issue comments. Each
gate waits for a human to approve. The repository contains two versions of the
orchestrator, and this project models the core of both, with GitHub, git,
processes and the filesystem replaced by inputs and by recorded calls.

**The farmcode backend** (`apps/backend/farmcode`):

- `Phases` (phase.py). This is the closed `WorkflowPhase` enumeration. Its tables give:
  - the successor sequence of thirteen phases;
  - which phases are gates and which are terminal;
  - the `status:` label and the assigned agents of each phase.
- `FeatureStates` (state.py) has two parts:
  - the `Feature` value, which is a feature's recorded state with its append-only phase history and the per-agent completion entries of each phase;
  - the `FeatureState` class, whose methods update that state in place.
- `StateMachines` (state_machine.py). This is the state machine wrapped around a feature state. Its guards and errors differ from those of the feature state.
- `StateStores` (state_store.py). This is the store of feature states, one slot per issue, with a listing sorted by issue number. Unreadable entries are skipped in the listing.
- `AgentDispatchers` (agent_dispatcher.py). This is the session table. It holds at most one session per `{handle}_{issue}` key. The module also builds the default prompt.
- `GitHubPollers` (github_poller.py). This covers:
  - detecting completions and approvals in a list of issue comments, filtered by time;
  - mapping a comment's author to an agent handle;
  - extracting a summary from a completion comment.
- `Orchestrators` (orchestrator.py). This covers:
  - creating a feature;
  - advancing a feature and executing its current phase;
  - one pass of polling over every stored feature;
  - manual gate approval.
- `PhaseManagers` (phase_manager.py). This covers the bodies of the comments that open the specification phase and request the Gate 1 approval. The request for approval itself contains the word "approve".
- `Slugs` and `Worktrees` (worktree_manager.py). These cover the slug, the branch name, and the existence checks for worktrees and branches.
- `GitHubAdapters` (github_adapter.py). This covers:
  - the adapter's truncated slug and its worktree lookup;
  - parsing of the URLs that `gh` prints;
  - the argument lists for `gh`;
  - the comment filter;
  - the choice of the status label.
- `Clock` gives the times used by the poller and the adapter. A time is either a naive or an offset-aware instant, because comparing the two is one of the findings below.

**The orchestrator package** (`src/orchestrator`):

- `OrchestratorModels` (models.py). These are the enumerations and records, with the constraints and defaults that their validating constructors apply.
- `OrchestratorErrors` (errors.py). This is the error-class hierarchy, with each class's default code, the per-instance override, and the rendered form.
- `SignalPolling` (polling.py). This covers:
  - signal matching;
  - the first-match scan of the comments;
  - the polling loop over a clock given as one reading per round.
- `LabelSyncs` (label_sync.py). This covers the state-to-label map, the synchronisation of the `status:` labels, and label creation. Each call to GitHub is an input that either succeeds or fails.
- `PhaseExecutors` (phase_executor.py). Phase 1 runs four steps: issue, branch, worktree and plans. This module covers:
  - running those steps;
  - recording each step in the workflow state;
  - resuming an interrupted run.

  The services are inputs, and every call to them is recorded in order.

`Wrappers`, `Text` and `Collections` are helper modules. They hold Option/Result and the string and sequence functions.

Where the source is imperative, the model is imperative too:

- Each such operation is a class method that updates fields.
- Each method is proved against a pure function of the old state.
- The lemmas about that function state what the source promises.

The model keeps these differences between components as they are in the code:

- At a work phase (neither a gate nor terminal), `FeatureState.can_advance` answers true on an empty history; `StateMachine.can_advance` answers false.
- The poller skips comments at or before the last check. The adapter keeps comments at or after `since`.
- The adapter cuts its slug to 50 characters, and the cut slug can end in a hyphen. The worktree manager does not cut its slug.
- When Phase 1 resumes with fewer than four steps recorded, each remaining step checks that its predecessor is recorded. It does not check that the issue is recorded.

  A state that records only the branch therefore resumes from the worktree step.

  The list of completed steps is the state's own list. The aliasing has no effect, because each step tests only its own name and only that step appends it.

## Model

| member | source | states |
|---|---|---|
| OrchestratorModels.WorkflowStatesEnumerated | src/orchestrator/models.py:23-43 | there are exactly five workflow states, each at its rank in the documented order; their string values and their ranks both tell them apart; IDLE comes first and DONE last |
| OrchestratorModels.ForwardIsStrictOrder | src/orchestrator/models.py:23-43 | the documented order is strict: nothing lies beyond DONE or before IDLE, no state moves forward to itself, and forward steps are antisymmetric and transitive |
| OrchestratorModels.EnumValuesDistinct | src/orchestrator/models.py:46-81 | the string values of the provider, mode, signal-type and operation-status enumerations are pairwise distinct |
| OrchestratorModels.NewState | src/orchestrator/models.py:111-150 | the state is built exactly when the issue number is positive, and is refused naming `issue_number` otherwise; the state built holds the given number, feature, creation and update times, with every other field at its default (IDLE, no branch, no worktree, no steps, empty history, both flags false) |
| OrchestratorModels.NewAgentConfig | src/orchestrator/models.py:159-196 | the configuration is built exactly when the timeout, defaulting to 3600, is positive, and is refused naming `timeout_seconds` otherwise; the mode defaults to CLI; there is no prompt, no skill, plugin or server and no working directory |
| OrchestratorModels.NewPhase1Request | src/orchestrator/models.py:232-247 | the request is built exactly when the description holds at least one character, and is refused naming `feature_description` otherwise; the labels default to none |
| OrchestratorModels.NewPhase2Config | src/orchestrator/models.py:250-266 | built exactly when both the interval (default 30) and the timeout (default 3600) are positive; a refusal names each offending field, and only those |
| OrchestratorModels.NewPollResult | src/orchestrator/models.py:301-326 | a poll result built from detection and signal type alone carries no comment id, body or author and a poll count of 0 |
| OrchestratorErrors.DefaultCodesDistinct | src/orchestrator/errors.py:19-224 | two error classes have the same default code exactly when they are the same class |
| OrchestratorErrors.Hierarchy | src/orchestrator/errors.py:8-224 | every class is an `OrchestratorError`; the Phase 1 errors are exactly `Phase1Error` and its four step errors; the agent errors are exactly `AgentError` and its four subclasses; only the base class is an ancestor of the base class |
| OrchestratorErrors.NewError | src/orchestrator/errors.py:21-31 | an instance carries its class and its message, and the code given to it, or else its class default |
| OrchestratorErrors.RenderRoundTrip | src/orchestrator/errors.py:33-35 | the rendering `[code] message` gives back the code and the message, whenever the code contains no `]` |
| SignalPolling.ApprovalMatching | src/orchestrator/polling.py:169-183 | approval matching ignores letter case, "lgtm" is not an approval for this poller, and a body without the check mark is not a completion |
| SignalPolling.FirstSignalFrom | src/orchestrator/polling.py:145-156 | the index found is the first one at or after the start whose comment carries the signal; when none is found, no comment from the start on carries it |
| SignalPolling.Detection | src/orchestrator/polling.py:128-167 | a signal is detected exactly when the fetch succeeded and some comment carries it; the comment reported is the first such comment, with its id, body or "", and author or "unknown"; a failed fetch or no match gives the empty result; no poll is counted |
| SignalPolling.CheckForSignal | src/orchestrator/polling.py:128-167 | the loop over the comments returns exactly `Detection` |
| SignalPolling.Outcome | src/orchestrator/polling.py:89-120 | at or past the timeout: the timeout error when raising is asked for, otherwise an undetected result with the poll count; before it: the check's result with the poll count |
| SignalPolling.PollForSignal | src/orchestrator/polling.py:47-126 | the result is the outcome of the first round that stops the polling, counted from 1; a successful result carries the signal type and at least one poll; a detection happened before the timeout; an error is a `PollTimeoutError`, raised only when asked for |
| Phases.IsGateExactly | apps/backend/farmcode/models/phase.py:49-51 | `is_gate` holds for the four gate phases and no other phase |
| Phases.NoSuccessorExactlyWhenTerminal | apps/backend/farmcode/models/phase.py:53-82 | a phase has no next phase exactly when it is DONE or CANCELLED |
| Phases.SequenceShape | apps/backend/farmcode/models/phase.py:59-73 | the phase sequence has 13 distinct phases, from PHASE_1_SETUP to DONE, and leaves out CANCELLED |
| Phases.NextFollowsSequence | apps/backend/farmcode/models/phase.py:57-82 | the next phase is the successor in the 13-element sequence, and exactly the phases in the sequence other than the last one have a successor |
| Phases.SuccessorAlongSequence | apps/backend/farmcode/models/phase.py:57-82 | `n` successive next phases from position `i` of the sequence reach position `i + n` |
| Phases.WalkFromSetup | apps/backend/farmcode/models/phase.py:57-82 | walking forward from setup visits the sequence in order, 13 distinct phases ending at DONE, and no phase follows DONE |
| Phases.SuccessorLast | apps/backend/farmcode/models/phase.py:57-82 | once a walk reaches DONE, one more step yields no phase |
| Phases.LabelsHaveStatusPrefix | apps/backend/farmcode/models/phase.py:84-102 | every phase's GitHub label begins with "status:" |
| Phases.AgentlessPhases | apps/backend/farmcode/models/phase.py:104-120 | a phase has no agents exactly when it is a gate, a terminal phase, setup, PR creation or cleanup; the specification phase runs "duc" alone |
| Phases.AgentsDistinct | apps/backend/farmcode/models/phase.py:104-120 | no phase lists an agent twice |
| Phases.NameInjective | apps/backend/farmcode/models/phase.py:6-47 | distinct phases have distinct names |
| FeatureStates.FindAgent | apps/backend/farmcode/models/state.py:96 | the position found holds the entry for the handle, and nothing is found exactly when the table has no such handle |
| FeatureStates.PutAgent | apps/backend/farmcode/models/state.py:72-73 | `table[handle] = entry`: when the handle is present, the entry at that key's position is replaced by the new one and the keys and their order are unchanged; otherwise the entry is appended |
| FeatureStates.BuildPendingTable | apps/backend/farmcode/models/state.py:71-73 | the loop inserting a pending entry per active agent builds the table `PendingTable` describes |
| FeatureStates.Feature.CurrentPhaseState | apps/backend/farmcode/models/state.py:79-83 | there is no current phase state exactly when the history is empty; otherwise it is the last entry |
| FeatureStates.Feature.StartPhase | apps/backend/farmcode/models/state.py:59-77 | starting a phase adds one history entry and makes the phase current; the previous last entry is closed at `now`, the new entry is started at `now` and holds a pending entry per assigned agent; no other field changes except the update time |
| FeatureStates.HandlesWhere | apps/backend/farmcode/models/state.py:144-166 | every handle listed is that of an entry whose completion flag is the one asked for |
| FeatureStates.PendingTableOfDistinct | apps/backend/farmcode/models/state.py:71-73 | for distinct handles the table holds exactly one pending entry per handle, in the handles' order |
| FeatureStates.NewPhaseTable | apps/backend/farmcode/models/state.py:66-75 | a new phase's table holds exactly the phase's agents, none of them completed |
| FeatureStates.StartPhaseEntry | apps/backend/farmcode/models/state.py:62-63 | starting a phase keeps each old entry's phase, and every old entry except the closed last one unchanged |
| FeatureStates.StartPhaseExtendsHistory | apps/backend/farmcode/models/state.py:59-77 | the phase list of the history grows by exactly the started phase, and all earlier entries but the last are unchanged |
| FeatureStates.StartPhaseWellFormed | apps/backend/farmcode/models/state.py:59-77 | starting a phase keeps the state well formed: the last entry is the current phase, and every entry's table has exactly its phase's agents |
| FeatureStates.MarkAgentCompleteEffect | apps/backend/farmcode/models/state.py:85-101 | marking is a no-op without history or without an entry for the handle; otherwise only that entry of the current phase changes, to completed at `now` with the given artifact and comment, and only the update time changes besides |
| FeatureStates.MarkAgentCompleteEarlier | apps/backend/farmcode/models/state.py:85-101 | marking leaves every history entry before the current one unchanged |
| FeatureStates.MarkAgentCompleteLast | apps/backend/farmcode/models/state.py:96-100 | marking keeps the current entry's phase and its table's handles |
| FeatureStates.MarkAgentCompleteWellFormed | apps/backend/farmcode/models/state.py:85-101 | marking keeps the state well formed, the history's phases and the current phase |
| FeatureStates.HandlesWhereSplit | apps/backend/farmcode/models/state.py:144-166 | the pending and the completed handles together are the table's handles, each once |
| FeatureStates.NonePendingWhenAllCompleted | apps/backend/farmcode/models/state.py:103-154 | no handle is pending exactly when every entry is completed |
| FeatureStates.PendingCompletedPartition | apps/backend/farmcode/models/state.py:103-166 | `get_pending_agents` and `get_completed_agents` split the current phase's agents between them, and nothing is pending exactly when `all_agents_complete` holds |
| FeatureStates.PendingCompletedDisjoint | apps/backend/farmcode/models/state.py:144-166 | with distinct handles no agent is both pending and completed |
| FeatureStates.ApproveGateEffect | apps/backend/farmcode/models/state.py:111-127 | approval marks the last entry approved at `now` whenever there is one, gate or not, and changes nothing else but the update time; afterwards a gate can be left |
| FeatureStates.ApproveGateWellFormed | apps/backend/farmcode/models/state.py:111-117 | approval keeps the state well formed and the history's phases |
| FeatureStates.AdvanceEffect | apps/backend/farmcode/models/state.py:132-142 | `advance` reports false and changes nothing when the guard fails; whenever the guard holds there is a next phase, which it starts, reporting true |
| FeatureStates.AdvanceKeepsChain | apps/backend/farmcode/models/state.py:132-142 | advancing keeps the state well formed and the history a chain of successive phases |
| FeatureStates.WorkPhaseGate | apps/backend/farmcode/models/state.py:119-130 | a phase that is neither a gate nor terminal can be left exactly when no agent is pending |
| FeatureStates.FeatureState.FromValue | apps/backend/farmcode/models/state.py:35-57 | the object built holds the given state |
| FeatureStates.FeatureState.StartPhase | apps/backend/farmcode/models/state.py:59-77 | updating in place leaves the object holding `Feature.StartPhase` of its old state |
| FeatureStates.FeatureState.MarkAgentComplete | apps/backend/farmcode/models/state.py:85-101 | updating in place leaves the object holding `Feature.MarkAgentComplete` of its old state |
| FeatureStates.FeatureState.ApproveGate | apps/backend/farmcode/models/state.py:111-117 | updating in place leaves the object holding `Feature.ApproveGate` of its old state |
| FeatureStates.FeatureState.Advance | apps/backend/farmcode/models/state.py:132-142 | the answer and the new state are those of `Feature.Advance` on the old state |
| StateMachines.AgentStatuses | apps/backend/farmcode/orchestrator/state_machine.py:119-129 | one status per assigned handle, in order, complete exactly when the table records that handle as completed, an absent entry counting as not |
| StateMachines.GuardsDiverge | apps/backend/farmcode/orchestrator/state_machine.py:20-39 | the machine's guard and the feature's own (state.py:119-130) disagree exactly on an empty history at a work phase and on a terminal phase with history and nothing pending |
| StateMachines.GuardsDivergeOnFreshSetup | apps/backend/farmcode/orchestrator/state_machine.py:29-32 | a fresh feature at setup with no history may advance by the feature's guard but not by the machine's |
| StateMachines.GateNeedsApproval | apps/backend/farmcode/orchestrator/state_machine.py:81-101 | at a gate with history the guard is the approval flag; approving succeeds, reports true and makes the guard hold |
| StateMachines.MachineAdvanceOutcome | apps/backend/farmcode/orchestrator/state_machine.py:41-60 | `advance` raises exactly when its guard holds at a terminal phase with history and nothing pending; otherwise a holding guard starts the next phase and reports true, and a failing guard reports false and changes nothing |
| StateMachines.AdvanceFromDoneFails | apps/backend/farmcode/orchestrator/state_machine.py:53-57 | advancing at DONE with history raises "cannot advance from final phase" |
| StateMachines.MachineAgentCompleteOutcome | apps/backend/farmcode/orchestrator/state_machine.py:62-79 | an agent not assigned to the current phase is refused and nothing changes; an assigned one is accepted, nothing changes without history, and with history its entry becomes completed |
| StateMachines.SpecsThenGate | apps/backend/farmcode/orchestrator/state_machine.py:41-79 | from the specification phase just started, completing "duc" and advancing reaches GATE_1_SPECS |
| StateMachines.MachineApprovalOutcome | apps/backend/farmcode/orchestrator/state_machine.py:81-101 | approval raises exactly outside gates; without history it reports false and changes nothing; otherwise it reports true and the last entry is approved |
| StateMachines.SummaryShape | apps/backend/farmcode/orchestrator/state_machine.py:103-137 | the summary lists no agents at a gate and one per assigned agent elsewhere, has an approval flag exactly at gates, reports the machine's guard, and without history neither agents nor advance |
| StateMachines.StateMachine.constructor | apps/backend/farmcode/orchestrator/state_machine.py:12-18 | the machine wraps the given state object |
| StateMachines.StateMachine.Advance | apps/backend/farmcode/orchestrator/state_machine.py:41-60 | the answer and the new state are those of `MachineAdvance` on the old state; a raise leaves the state unchanged |
| StateMachines.StateMachine.HandleAgentComplete | apps/backend/farmcode/orchestrator/state_machine.py:62-79 | the answer and the new state are those of `MachineAgentComplete` on the old state |
| StateMachines.StateMachine.HandleHumanApproval | apps/backend/farmcode/orchestrator/state_machine.py:81-101 | the answer and the new state are those of `MachineApproval` on the old state; a raise leaves the state unchanged |
| StateMachines.StateMachine.GetStatusSummary | apps/backend/farmcode/orchestrator/state_machine.py:103-137 | the loop builds exactly the summary `Summarize` describes |
| StateStores.InsertSorted | apps/backend/farmcode/storage/state_store.py:94-95 | inserting a state whose issue is not yet listed keeps the list ordered by issue number, and adds exactly that state |
| StateStores.LoadAfterSave | apps/backend/farmcode/storage/state_store.py:36-59 | loading the issue just saved gives the saved state back, history included, and saving keeps every file named after its issue |
| StateStores.SaveOverwrites | apps/backend/farmcode/storage/state_store.py:36-43 | a second save of the same issue replaces the first, and other issues' slots are untouched |
| StateStores.LoadAfterDelete | apps/backend/farmcode/storage/state_store.py:61-76 | after a delete the issue's slot is empty, and the other slots are unchanged |
| StateStores.StateStore.constructor | apps/backend/farmcode/storage/state_store.py:13-23 | the store starts with an empty states directory |
| StateStores.StateStore.Save | apps/backend/farmcode/storage/state_store.py:36-43 | the state is written into its issue's slot, replacing what was there, and nothing else changes |
| StateStores.StateStore.Load | apps/backend/farmcode/storage/state_store.py:45-59 | nothing for a missing file, the stored state for a parseable one, the validation error for one that does not parse |
| StateStores.StateStore.Delete | apps/backend/farmcode/storage/state_store.py:61-76 | reports true exactly when the issue had a file, and that file alone is gone afterwards |
| StateStores.StateStore.Exists | apps/backend/farmcode/storage/state_store.py:97-106 | true exactly when the issue has a file |
| StateStores.StateStore.ListAll | apps/backend/farmcode/storage/state_store.py:78-95 | the list is ordered by issue number and holds exactly the states of the files that parse |
| StateStores.SaveLoadDelete | apps/backend/tests/test_state_store.py:24-58 | save, load, exists, delete, exists, load on one issue: the save is read back, the issue then exists, the delete reports true, and afterwards the issue neither exists nor loads; the store ends without that issue's file |
| AgentDispatchers.SessionKeyInjective | apps/backend/farmcode/orchestrator/agent_dispatcher.py:103 | two handle and issue pairs share a session key only when they are the same pair |
| AgentDispatchers.Lookup | apps/backend/farmcode/orchestrator/agent_dispatcher.py:163 | a session found is filed under the key, and nothing is found exactly when the key is not tracked |
| AgentDispatchers.WithoutMembers | apps/backend/farmcode/orchestrator/agent_dispatcher.py:173 | the entries kept by `pop` are exactly those under other keys |
| AgentDispatchers.Values | apps/backend/farmcode/orchestrator/agent_dispatcher.py:175-181 | the list holds every session of the table, in the table's order |
| AgentDispatchers.PromptFor | apps/backend/farmcode/orchestrator/agent_dispatcher.py:37-79 | the specification phase gets the architecture brief and only it; every other phase gets "Work on issue #{n} for {phase}" |
| AgentDispatchers.DefaultPromptInjective | apps/backend/farmcode/orchestrator/agent_dispatcher.py:76-79 | the generic prompt determines its issue and its phase |
| AgentDispatchers.PromptShape | apps/backend/farmcode/orchestrator/agent_dispatcher.py:78 | the generic prompt is the fixed 15-character prefix, then the issue's digits, a space and "for" with the phase |
| AgentDispatchers.LookupAppend | apps/backend/farmcode/orchestrator/agent_dispatcher.py:142-148 | a session filed under a new key is found under it, and every other lookup is unchanged |
| AgentDispatchers.LookupWithoutKey | apps/backend/farmcode/orchestrator/agent_dispatcher.py:165-173 | after removal the key is no longer tracked |
| AgentDispatchers.LookupWithoutOther | apps/backend/farmcode/orchestrator/agent_dispatcher.py:165-173 | removal leaves every other key's lookup unchanged |
| AgentDispatchers.WithoutIdempotent | apps/backend/farmcode/orchestrator/agent_dispatcher.py:173 | removing a session twice is removing it once |
| AgentDispatchers.TailKeepsInvariant | apps/backend/farmcode/orchestrator/agent_dispatcher.py:35 | the rest of a well-keyed table is well keyed and lacks the first entry's key |
| AgentDispatchers.ConsKeepsInvariant | apps/backend/farmcode/orchestrator/agent_dispatcher.py:35 | an entry filed under its own key and new to a well-keyed table can be put in front of it |
| AgentDispatchers.WithoutKeepsInvariant | apps/backend/farmcode/orchestrator/agent_dispatcher.py:165-173 | removal keeps the keys distinct and each session under its own key |
| AgentDispatchers.AtMostOneSessionPerAgentAndIssue | apps/backend/farmcode/orchestrator/agent_dispatcher.py:102-106 | a well-keyed table holds at most one session per agent and issue |
| AgentDispatchers.WithoutAppended | apps/backend/farmcode/orchestrator/agent_dispatcher.py:142-148 | removing the session just filed under a fresh key gives back the table before |
| AgentDispatchers.AgentDispatcher.constructor | apps/backend/farmcode/orchestrator/agent_dispatcher.py:27-35 | the dispatcher starts with no active sessions |
| AgentDispatchers.AgentDispatcher.Dispatch | apps/backend/farmcode/orchestrator/agent_dispatcher.py:81-150 | a tracked key is refused with "already dispatched"; otherwise an agent whose lower-cased handle is not configured is refused as not configured (config.py:136-146), and a failed process launch is refused with its message; in these three cases nothing changes; otherwise the launched process's session is appended under the key and the process id returned |
| AgentDispatchers.AgentDispatcher.GetSession | apps/backend/farmcode/orchestrator/agent_dispatcher.py:152-163 | the session filed under the key, if any |
| AgentDispatchers.AgentDispatcher.RemoveSession | apps/backend/farmcode/orchestrator/agent_dispatcher.py:165-173 | the key's entry is dropped if present, the table stays well keyed, and nothing else changes |
| AgentDispatchers.AgentDispatcher.GetAllSessions | apps/backend/farmcode/orchestrator/agent_dispatcher.py:175-181 | every active session, in insertion order |
| AgentDispatchers.DispatchRemoveRedispatch | apps/backend/farmcode/orchestrator/agent_dispatcher.py:81-173 | dispatch, get, remove, dispatch again on the same agent and issue: each dispatch succeeds exactly when the agent is configured and its launch worked; after the removal the second one is not refused as already dispatched; the table ends with only the second session added, or as it began when the second dispatch failed |
| AgentDispatchers.WithoutUntracked | apps/backend/farmcode/orchestrator/agent_dispatcher.py:171-173 | removing a key that is not tracked leaves the table as it is |
| Clock.AtOrBefore | apps/backend/farmcode/orchestrator/github_poller.py:72 | comparing a datetime with an offset and one without raises; otherwise `<=` is the order of the timeline |
| GitHubPollers.IsNewAsWritten | apps/backend/farmcode/orchestrator/github_poller.py:72 | the skip test as written: without a last check every comment counts; with one, the test raises exactly when one side has a UTC offset and the other has none |
| GitHubPollers.NaiveLastCheckRaises | apps/backend/farmcode/orchestrator/github_poller.py:72 | an offset-aware comment time compared with a naive last check raises TypeError |
| GitHubPollers.AwareFilterIsStrict | apps/backend/farmcode/orchestrator/github_poller.py:72 | with both sides offset-aware the skip test keeps exactly the comments created after the last check |
| GitHubPollers.FirstMatchFrom | apps/backend/farmcode/orchestrator/github_poller.py:144-146 | the index found is the first from the start whose handle occurs in the author or contains it; when none is found, no handle from the start on matches |
| GitHubPollers.ExtractAgentHandle | apps/backend/farmcode/orchestrator/github_poller.py:128-148 | the loop returns the first configured handle that matches the lower-cased author with "[bot]" removed and stripped, or nothing |
| GitHubPollers.AgentOfFirstMatch | apps/backend/farmcode/orchestrator/github_poller.py:144-148 | the handle reported is the one at the first matching index |
| GitHubPollers.BotSuffixRemoved | apps/backend/farmcode/orchestrator/github_poller.py:141-142 | a "[bot]" suffix after a name without brackets disappears, and the rest is lower-cased and stripped |
| GitHubPollers.EmptyAuthorTakesFirstHandle | apps/backend/farmcode/orchestrator/github_poller.py:142-146 | an author that normalises to "" is contained in every handle and so maps to the first configured handle |
| GitHubPollers.BotAuthor | apps/backend/farmcode/orchestrator/github_poller.py:141-142 | a lower-case, trimmed bot name with "[bot]" appended normalises back to the name |
| GitHubPollers.BotNamedAfterHandle | apps/backend/farmcode/orchestrator/github_poller.py:141-146 | a bot whose name ends in the first configured handle, such as "viollet-le-duc[bot]" for "duc", is that agent |
| GitHubPollers.MarkerText | apps/backend/farmcode/orchestrator/github_poller.py:167-173 | a marker line contributes only non-empty text |
| GitHubPollers.PlainText | apps/backend/farmcode/orchestrator/github_poller.py:179-181 | another line contributes only non-empty text |
| GitHubPollers.Captured | apps/backend/farmcode/orchestrator/github_poller.py:160-181 | every line kept for the summary is non-empty |
| GitHubPollers.FirstPlainFrom | apps/backend/farmcode/orchestrator/github_poller.py:187-190 | the index found is the first from the start whose stripped line is neither blank nor starts with "#"; when none is found, no such line follows the start |
| GitHubPollers.CapturedStep | apps/backend/farmcode/orchestrator/github_poller.py:165-181 | one step of the capturing scan: a marker line switches capture on and adds its text after the marker; while capturing, a "**" line ends the scan; any other line adds its stripped text if capturing |
| GitHubPollers.CaptureLines | apps/backend/farmcode/orchestrator/github_poller.py:160-181 | the capturing loop, with its `continue` and `break`, keeps exactly the lines `Captured` describes |
| GitHubPollers.FirstPlainLine | apps/backend/farmcode/orchestrator/github_poller.py:187-190 | the fallback loop finds exactly the first plain line |
| GitHubPollers.ExtractSummary | apps/backend/farmcode/orchestrator/github_poller.py:150-192 | the summary is the captured lines joined with spaces, else the first plain line, else "Task completed" |
| GitHubPollers.SummaryNonEmpty | apps/backend/farmcode/orchestrator/github_poller.py:183-192 | the summary is never empty |
| GitHubPollers.NothingCapturedWithoutMarker | apps/backend/farmcode/orchestrator/github_poller.py:165-181 | without a marker line nothing is captured |
| GitHubPollers.SummaryFallback | apps/backend/farmcode/orchestrator/github_poller.py:183-192 | without a marker line the summary is the first plain line, stripped, or else "Task completed" |
| GitHubPollers.MarkerLineSummary | apps/backend/farmcode/orchestrator/github_poller.py:167-184 | a one-line completion comment is summarised by its stripped text after the marker |
| GitHubPollers.PollForCompletions | apps/backend/farmcode/orchestrator/github_poller.py:51-93 | the loop reports, in comment order, one completion per new comment that carries the marker and comes from a known agent whose handle is not empty (`if agent_handle:` drops a matched empty handle), with that agent, the issue, the comment's time and its summary |
| GitHubPollers.CompletionsTakeStep | apps/backend/farmcode/orchestrator/github_poller.py:70-91 | one more comment adds its completion when it is reported, and nothing otherwise |
| GitHubPollers.CompletionsAppend | apps/backend/farmcode/orchestrator/github_poller.py:70-93 | the completions of two comment lists joined are those of the first, then those of the second |
| GitHubPollers.SetIndices | apps/backend/farmcode/orchestrator/github_poller.py:70-91 | every index listed lies within the flags |
| GitHubPollers.SetIndicesIncrease | apps/backend/farmcode/orchestrator/github_poller.py:70-91 | the set flags' indices are listed in strictly increasing order |
| GitHubPollers.SetIndicesExactly | apps/backend/farmcode/orchestrator/github_poller.py:70-91 | an index is listed exactly when its flag is set |
| GitHubPollers.ReportedFlags | apps/backend/farmcode/orchestrator/github_poller.py:72-80 | one flag per comment, set exactly when the comment is reported |
| GitHubPollers.ReportedIndices | apps/backend/farmcode/orchestrator/github_poller.py:70-91 | every reported index is a comment's index |
| GitHubPollers.ReportedIndicesIncrease | apps/backend/farmcode/orchestrator/github_poller.py:70-91 | the reported comments are reported in the order of the comment list |
| GitHubPollers.ReportedIndicesExactly | apps/backend/farmcode/orchestrator/github_poller.py:72-80 | a comment's index is reported exactly when it is new, carries the marker and comes from a known agent whose handle is not empty |
| GitHubPollers.EmptyFirstHandleReportsNothing | apps/backend/farmcode/orchestrator/github_poller.py:78-80 | an empty handle listed first matches every author (`"" in author` holds), but being falsy it is dropped, so no comment yields a completion |
| GitHubPollers.ReportedFlagsPrefix | apps/backend/farmcode/orchestrator/github_poller.py:70-91 | the flags of a prefix of the comments are the prefix of the flags |
| GitHubPollers.FollowsIndicesStep | apps/backend/farmcode/orchestrator/github_poller.py:70-91 | one more comment keeps each completion matched with the comment at its reported index |
| GitHubPollers.CompletionsFollowIndices | apps/backend/farmcode/orchestrator/github_poller.py:51-93 | there is one completion per reported comment, and the k-th completion is that of the k-th reported comment |
| GitHubPollers.AtLastCheckSkipped | apps/backend/farmcode/orchestrator/github_poller.py:72-73 | a comment created exactly at the last check yields no completion |
| GitHubPollers.ApprovalKeywordsReduce | apps/backend/farmcode/orchestrator/github_poller.py:34 | "approved" adds nothing to "approve": a body approves exactly when it contains "lgtm" or "approve" in any case, and so "disapprove" approves |
| GitHubPollers.NoApprovalWithoutKeyLetters | apps/backend/farmcode/orchestrator/github_poller.py:34 | a body without the letters a and g, in either case, holds no approval keyword |
| GitHubPollers.NeedsMoreWorkIsNoApproval | apps/backend/farmcode/orchestrator/github_poller.py:118-119 | "Needs more work" is not an approval |
| GitHubPollers.LatestSetBelow | apps/backend/farmcode/orchestrator/github_poller.py:112 | the index found is the last set flag below the bound; when there is none, no flag below the bound is set |
| GitHubPollers.ApprovalFlags | apps/backend/farmcode/orchestrator/github_poller.py:114-119 | one flag per comment, set exactly when the comment is new and approves |
| GitHubPollers.LatestApprovalBelow | apps/backend/farmcode/orchestrator/github_poller.py:112-119 | the index found lies below the bound |
| GitHubPollers.ApprovalStep | apps/backend/farmcode/orchestrator/github_poller.py:112-125 | one step of the newest-first scan: a comment at or before the last check is skipped; otherwise an approving comment is the answer, and any other is passed over |
| GitHubPollers.PollForApproval | apps/backend/farmcode/orchestrator/github_poller.py:95-126 | the newest-first loop returns exactly `LatestApproval` |
| GitHubPollers.LatestApprovalBelowSpec | apps/backend/farmcode/orchestrator/github_poller.py:112-126 | the scan below a bound finds a new approving comment with no new approving comment after it below the bound, and finds none exactly when none below the bound is one |
| GitHubPollers.LatestApprovalIsNewest | apps/backend/farmcode/orchestrator/github_poller.py:95-126 | there is no approval exactly when no new comment approves; otherwise the approval is that of the newest new approving comment, with its time and author |
| Slugs.HyphenateFrom | apps/backend/farmcode/git/worktree_manager.py:53-54 | replacing each run of whitespace or underscores by one hyphen never lengthens the text |
| Slugs.KeepSlugChars | apps/backend/farmcode/git/worktree_manager.py:55-56 | dropping every character outside `a-z0-9-` never lengthens the text, leaves only slug characters, and leaves a text of slug characters as it is |
| Slugs.CollapseFrom | apps/backend/farmcode/git/worktree_manager.py:57-58 | collapsing runs of hyphens never lengthens the text, leaves no `--`, keeps the slug alphabet, and after a hyphen does not start with another |
| Slugs.SlugifyIsSlug | apps/backend/farmcode/git/worktree_manager.py:42-60 | every slug keeps the `a-z0-9-` alphabet, holds no `--`, and neither starts nor ends with a hyphen |
| Slugs.SlugifyOfSlug | apps/backend/farmcode/git/worktree_manager.py:42-60 | a text that already has the slug shape is its own slug: each of the five rewrites leaves it unchanged |
| Slugs.SlugifyIdempotent | apps/backend/farmcode/git/worktree_manager.py:42-60 | slugifying a slug gives it back |
| Slugs.SlugOfWords | apps/backend/tests/test_worktree_manager.py:8-12 | words of lower-case letters and digits separated by single spaces slugify to the same words joined by hyphens, as "add user auth" becomes "add-user-auth" |
| Slugs.ShortSlugShape | apps/backend/farmcode/adapters/github_adapter.py:105-120 | the 50-character slug is at most 50 long, keeps the slug alphabet, holds no `--` and does not start with a hyphen; it equals the untruncated slug exactly when that is at most 50 long |
| Slugs.ShortSlugCanEndInHyphen | apps/backend/farmcode/adapters/github_adapter.py:118-120 | the cut to 50 characters comes after the hyphen trim, so it can leave a trailing hyphen: 49 letters, a space and a letter give 49 letters and a hyphen |
| Worktrees.BranchNameShape | apps/backend/farmcode/git/worktree_manager.py:134-136 | for a non-negative issue number the branch name keeps the slug alphabet, holds no `--`, does not start with a hyphen, and after the number and its hyphen is the title's slug |
| Worktrees.BranchNameInjective | apps/backend/farmcode/git/worktree_manager.py:134-136 | two equal branch names come from the same issue number and titles with the same slug |
| Worktrees.WorktreeManager.constructor | apps/backend/farmcode/git/worktree_manager.py:25-40 | the manager starts from the given worktree base, references and paths |
| Worktrees.WorktreeManager.CreateWorktree | apps/backend/farmcode/git/worktree_manager.py:121-172 | fails on an existing branch name first and on an existing worktree path second, changing nothing; otherwise adds exactly the branch to the references and the path to the disk and returns the issue, branch and path |
| Worktrees.WorktreeManager.DeleteWorktree | apps/backend/farmcode/git/worktree_manager.py:174-193 | fails, changing nothing, exactly when the worktree path is absent; otherwise removes exactly that path and that branch |
| Worktrees.WorktreeManager.WorktreeExists | apps/backend/farmcode/git/worktree_manager.py:195-205 | true exactly when the branch's worktree path is present |
| Worktrees.CreateTwice | apps/backend/tests/test_worktree_manager.py:47-56 | a created worktree exists, and creating it again fails on the branch and leaves the one created |
| Worktrees.DeleteAndRecreate | apps/backend/tests/test_worktree_manager.py:59-71 | after deleting a worktree it no longer exists, and creating it again restores references and paths exactly |
| GitHubAdapters.WorktreeLookupAsWritten | apps/backend/farmcode/adapters/github_adapter.py:82-103 | the adapter returns a worktree path only when that path is present on disk |
| GitHubAdapters.AdapterBranchNameAgreement | apps/backend/farmcode/adapters/github_adapter.py:92-94 | the adapter's branch name equals the worktree manager's exactly when the title's slug is at most 50 characters long |
| GitHubAdapters.LongTitle | apps/backend/farmcode/adapters/github_adapter.py:119-120 | a title of sixty letters has a slug longer than the 50-character cut |
| GitHubAdapters.LookupAsWrittenMissesLongTitles | apps/backend/farmcode/adapters/github_adapter.py:92-98 | once the worktree manager has created the worktree of an issue whose slug is longer than 50 characters, the adapter as written still finds no worktree for it |
| GitHubAdapters.WorktreeLookup | apps/backend/farmcode/adapters/github_adapter.py:82-103 | the corrected lookup, using the worktree manager's branch name, returns a path only when it is present on disk |
| GitHubAdapters.LookupFindsCreatedWorktree | apps/backend/farmcode/adapters/github_adapter.py:92-98 | the corrected lookup always finds the worktree the manager created, and agrees with the lookup as written for every title whose slug fits in 50 characters |
| GitHubAdapters.CreateThenLookup | apps/backend/farmcode/adapters/github_adapter.py:82-103 | after the worktree manager's `create_worktree` the corrected lookup finds a worktree exactly when the manager's path is on disk, and returns that path |
| GitHubAdapters.Suffix | apps/backend/farmcode/adapters/github_adapter.py:222-228 | a command output without the marker gives `"unknown"` |
| GitHubAdapters.CommentIdOfUrl | apps/backend/farmcode/adapters/github_adapter.py:215-228 | `post_comment` reads back the digits of a printed comment URL `…#issuecomment-<n>` whose address part holds no `#` |
| GitHubAdapters.IssueNumberOfUrl | apps/backend/farmcode/adapters/github_adapter.py:279-299 | `create_issue` reads back the digits of a printed issue URL `…/issues/<n>` when that is the first `/issues/` in it |
| GitHubAdapters.CreateIssueLabels | apps/backend/farmcode/adapters/github_adapter.py:286-289 | the arguments of `create_issue` start with the fixed title and body part; a `--label` argument follows exactly when there are labels, and splitting its value at commas gives back labels that hold no comma |
| GitHubAdapters.UpdateIssueFlags | apps/backend/farmcode/adapters/github_adapter.py:308-316 | the arguments of `update_issue` start with the fixed part; `--title` follows exactly when a non-empty title is given, `--body` is next to last exactly when a non-empty body is given, and each is followed by its value |
| GitHubAdapters.FilterComments | apps/backend/farmcode/adapters/github_adapter.py:270-277 | filtering never adds comments |
| GitHubAdapters.FilterCommentsMembers | apps/backend/farmcode/adapters/github_adapter.py:270-277 | a comment is returned exactly when it is in the list, is created at or after `since` when that is given, and is by `from_author` when that is given |
| GitHubAdapters.FilterCommentsAppend | apps/backend/farmcode/adapters/github_adapter.py:270-277 | filtering a concatenation filters each part: the order of the comments is kept |
| GitHubAdapters.NoFilterKeepsAll | apps/backend/farmcode/adapters/github_adapter.py:270-277 | with neither filter given every comment comes back, in order |
| GitHubAdapters.CutOffDivergence | apps/backend/farmcode/adapters/github_adapter.py:271-272 | the adapter keeps a comment created exactly at `since`, which the feature poller's strict filter skips |
| GitHubAdapters.PhaseFromLabels | apps/backend/farmcode/adapters/github_adapter.py:195-201 | there is no phase exactly when no label starts with `status:`; otherwise the phase is the first such label in order |
| LabelSyncs.ColorIn | src/orchestrator/label_sync.py:21-28 | a colour table gives a label a colour exactly when the label is listed in it |
| LabelSyncs.StateLabelMap | src/orchestrator/label_sync.py:12-31 | every state's label carries the `status:` prefix and has a colour; distinct states have distinct labels; the colour table lists exactly the five state labels, in state order |
| LabelSyncs.RemoveLabel | src/orchestrator/label_sync.py:95-96 | removing a label from an issue keeps every other label and drops that one |
| LabelSyncs.RemovalErrors | src/orchestrator/label_sync.py:92-111 | no removal error is recorded exactly when no listed stale status label failed to be removed |
| LabelSyncs.Issue.constructor | src/orchestrator/label_sync.py:51-57 | the issue starts with the given labels |
| LabelSyncs.SyncLabels | src/orchestrator/label_sync.py:59-154 | after the sync the issue carries exactly the labels it had minus the listed stale status labels whose removal worked, plus the target once adding it worked; a listing that fails removes nothing; the result records each failed removal in order, and the failed add last |
| LabelSyncs.SyncStatus | src/orchestrator/label_sync.py:119-154 | the result is FAILURE exactly when adding failed, PARTIAL exactly when adding worked and some stale label's removal failed, and SUCCESS, naming the target label, otherwise |
| LabelSyncs.SyncKeepsOtherLabels | src/orchestrator/label_sync.py:92-96 | a label that is not a status label, or is the target, is still there after the sync |
| LabelSyncs.SuccessLeavesOneStatusLabel | src/orchestrator/label_sync.py:34-40 | after a successful sync whose listing worked, the target is the issue's only status label |
| LabelSyncs.ListingFailureStillSucceeds | src/orchestrator/label_sync.py:112-117 | when listing the labels fails, the failure is not recorded: adding the target alone makes the sync a SUCCESS, and every label the issue had stays |
| LabelSyncs.LabelNames | src/orchestrator/label_sync.py:186 | the label names of the colour table, one per entry and in order |
| LabelSyncs.CreatedLabels | src/orchestrator/label_sync.py:167-170 | the created labels are exactly the table's labels whose creation worked |
| LabelSyncs.CreationErrors | src/orchestrator/label_sync.py:171-174 | no creation error is recorded exactly when every failed creation failed because the label already exists |
| LabelSyncs.EnsureStep | src/orchestrator/label_sync.py:167-174 | one more table entry adds its name to the created labels when its creation worked, and its error when it failed for another reason than existing |
| LabelSyncs.EnsureLabelsExist | src/orchestrator/label_sync.py:156-187 | the result is the one the creation outcomes of the five labels determine, the labels tried in table order |
| LabelSyncs.EnsureStatus | src/orchestrator/label_sync.py:171-187 | the result is PARTIAL exactly when some state's label failed to be created for another reason than already existing, in any letter case, and SUCCESS otherwise |
| LabelSyncs.EnsureDetails | src/orchestrator/label_sync.py:176-187 | a partial result lists as created exactly the labels whose creation worked; a successful one lists every label of the colour table in order |
| Orchestrators.OnCompletionsStopsAtError | apps/backend/farmcode/orchestrator/orchestrator.py:139-169 | an exception while handling a completion ends the feature's completions: the later ones are not handled |
| Orchestrators.PollAllStopsAtError | apps/backend/farmcode/orchestrator/orchestrator.py:129-207 | an exception in one feature's turn ends the poll: the later features are not polled |
| Orchestrators.ExecuteOutcome | apps/backend/farmcode/orchestrator/orchestrator.py:96-116 | entering the specification phase posts the kickoff with the feature's branch and worktree, then dispatches `duc` with the feature's worktree; the dispatch fails when `duc` is already dispatched for the issue, when it is not configured, or when its launch fails, and leaves the sessions unchanged in those cases; a successful dispatch files the launched process's session and leaves every other session as it was; entering the first gate only posts the approval request; every other phase does nothing; stored states and poll times never change |
| Orchestrators.DucIsLower | apps/backend/farmcode/config.py:141 | proof helper, not a promise of the program: the configuration lookup of `duc` asks for `duc` itself, since lower-casing leaves it unchanged |
| Orchestrators.AdvanceOutcome | apps/backend/farmcode/orchestrator/orchestrator.py:68-94 | when the machine cannot advance nothing is saved or executed and the result is false; at the last phase the machine's error escapes; otherwise the next phase is started, saved and executed, and the result is true exactly when executing it worked |
| Orchestrators.AdvanceFalseChangesNothing | apps/backend/farmcode/orchestrator/orchestrator.py:80-86 | whenever advancing reports false, the state and the stored features are unchanged |
| Orchestrators.CreateFeatureAdvancesToSpecs | apps/backend/farmcode/orchestrator/orchestrator.py:47-66 | creating a feature from the state setup produced stores it in the specification phase, posts the kickoff, leaves poll times alone, and dispatches `duc` for the issue; the creation fails when `duc` is already dispatched for it, is not configured, or fails to launch, and in the last two cases no session is added; otherwise `duc`'s session is filed with the launched process |
| Orchestrators.CompletionOutcome | apps/backend/farmcode/orchestrator/orchestrator.py:139-169 | a completion by an agent the current phase does not assign changes nothing and reports nothing; an accepted one records the completion and is reported either alone or right after the advance to the next phase it caused |
| Orchestrators.ApprovalOnlyAtGates | apps/backend/farmcode/orchestrator/orchestrator.py:171-202 | outside a gate phase no approval is looked for, and without an approving comment nothing happens either |
| Orchestrators.AdvancesExplainedAppend | apps/backend/farmcode/orchestrator/orchestrator.py:124-207 | joining two update lists in which every advance is followed by its cause keeps that property |
| Orchestrators.CompletionsExplained | apps/backend/farmcode/orchestrator/orchestrator.py:139-169 | in the updates of a feature's completions every `phase_advanced` is followed by the `agent_complete` of the same issue that caused it |
| Orchestrators.FeatureExplained | apps/backend/farmcode/orchestrator/orchestrator.py:129-205 | in one feature's updates every `phase_advanced` is immediately followed by the event of the same issue that caused it |
| Orchestrators.PollUpdatesExplained | apps/backend/farmcode/orchestrator/orchestrator.py:118-207 | in all updates of a poll every `phase_advanced` is immediately followed by the `agent_complete` or `human_approval` of the same issue that caused it |
| Orchestrators.CompletionsKeepLastPoll | apps/backend/farmcode/orchestrator/orchestrator.py:139-169 | handling completions leaves the poll times alone |
| Orchestrators.ApprovalKeepsLastPoll | apps/backend/farmcode/orchestrator/orchestrator.py:171-202 | handling an approval leaves the poll times alone |
| Orchestrators.PollFeatureSetsLastPoll | apps/backend/farmcode/orchestrator/orchestrator.py:204-205 | a feature's turn that completes sets its own issue's poll time to the clock and no other |
| Orchestrators.PollSetsLastPoll | apps/backend/farmcode/orchestrator/orchestrator.py:118-207 | after a poll that completes, every polled issue's poll time is the clock, and issues that were not polled keep theirs |
| Orchestrators.QuietTurn | apps/backend/farmcode/orchestrator/orchestrator.py:129-205 | a feature without comments reports nothing and changes nothing but its poll time |
| Orchestrators.NoCommentsNoUpdates | apps/backend/farmcode/orchestrator/orchestrator.py:118-207 | when no issue has comments a poll reports nothing and leaves the stored states, sessions and posts unchanged |
| Orchestrators.ApproveGateRefusals | apps/backend/farmcode/orchestrator/orchestrator.py:225-242 | approving reports false for a missing feature and for one outside a gate, and raises the error of a state file that does not parse |
| Orchestrators.ApproveSpecsGate | apps/backend/farmcode/orchestrator/orchestrator.py:225-252 | approving a feature at the specification gate records the approval on the gate's history entry, moves it to the planning phase and reports true, without posting or dispatching |
| PhaseManagers.KickoffBody | apps/backend/farmcode/orchestrator/phase_manager.py:111-128 | the comment that opens the specification phase names the feature's branch and its worktree |
| PhaseManagers.ApprovalRequestSaysApprove | apps/backend/farmcode/orchestrator/phase_manager.py:148-165 | the Gate 1 request, lower-cased, contains "approve", because it tells the reader how to approve |
| PhaseManagers.HowSaysApprove | apps/backend/farmcode/orchestrator/phase_manager.py:157 | proof helper, not a promise of the program: the line "**To approve and proceed to Phase 3:**", lower-cased, contains "approve" |
| PhaseManagers.HowLowered | apps/backend/farmcode/orchestrator/phase_manager.py:157 | proof helper, not a promise of the program: lower-casing that line keeps "approve" at characters 5 to 11 |
| PhaseManagers.HowSpelled | apps/backend/farmcode/orchestrator/phase_manager.py:157 | proof helper, not a promise of the program: that line spells "approve" at characters 5 to 11 |
| Orchestrators.PostedOn | apps/backend/farmcode/orchestrator/github_poller.py:110 | the comments a second fetch adds for an issue are at most one per post made, each by the orchestrator's account at the clock reading |
| Orchestrators.PostedOnLast | apps/backend/farmcode/orchestrator/github_poller.py:110-112 | when the last post is on the issue, it is the newest comment of the second fetch |
| Orchestrators.ExecuteExtendsEffects | apps/backend/farmcode/orchestrator/orchestrator.py:96-116 | executing a phase only adds posts after those already made |
| Orchestrators.AdvanceExtendsEffects | apps/backend/farmcode/orchestrator/orchestrator.py:68-94 | advancing only adds posts after those already made |
| Orchestrators.CompletionsExtendEffects | apps/backend/farmcode/orchestrator/orchestrator.py:139-169 | handling a feature's completions only adds posts after those already made |
| Orchestrators.CompletionsKeepIssue | apps/backend/farmcode/orchestrator/orchestrator.py:139-169 | handling completions never changes the feature's issue number |
| Orchestrators.RequestApproves | apps/backend/farmcode/orchestrator/github_poller.py:117-119 | the poller's keyword test takes the Gate 1 request (phase_manager.py:157-158) for an approval |
| Orchestrators.GateOneLeadsToPlans | apps/backend/farmcode/orchestrator/state_machine.py:81-101 | approving a feature at Gate 1 that has history lets it advance, and advancing starts the planning phase of the same issue |
| Orchestrators.RefetchFindsRequest | apps/backend/farmcode/orchestrator/github_poller.py:109-124 | when the last post of the turn is the Gate 1 request and it approves, the newest-first scan of the second fetch reports it as the approval, by the orchestrator's account at the clock reading |
| Orchestrators.ApprovalOpensGateOne | apps/backend/farmcode/orchestrator/orchestrator.py:171-202 | an approval found at Gate 1 moves the feature to the planning phase, stores it, and reports the advance and then the approval by its approver |
| Orchestrators.AdvanceIntoPlans | apps/backend/farmcode/orchestrator/orchestrator.py:68-116 | advancing into the planning phase saves the feature, reports true, and posts and dispatches nothing |
| Orchestrators.AsWrittenParts | apps/backend/farmcode/orchestrator/orchestrator.py:129-205 | a turn as written is its completions, then the approval scan on the second fetch, then the poll time set |
| Orchestrators.GateEntrySelfApprovesAsWritten | apps/backend/farmcode/orchestrator/orchestrator.py:139-205 | as written, a turn whose completions bring the feature onto Gate 1 and post the request approves the gate at once: the feature is stored in the planning phase and the orchestrator's account is reported as the approver |
| Orchestrators.GateEntryWaitsForApproval | apps/backend/farmcode/orchestrator/orchestrator.py:171-205 | with one fetch of the comments, a turn that brings the feature onto Gate 1 without an approving new comment ends where its completions left it, with only the poll time set |
| Orchestrators.SpecsCompletionRequestsApproval | apps/backend/farmcode/orchestrator/orchestrator.py:139-169 | `duc`'s completion in a just-started specification phase moves the feature onto Gate 1, stores it, reports the advance and the completion, and posts the approval request |
| Orchestrators.SpecsFeatureSelfApprovesAsWritten | apps/backend/farmcode/orchestrator/orchestrator.py:129-205 | as written, the first poll that sees `duc`'s completion of a feature in the specification phase leaves the feature in the planning phase, with a human approval by the orchestrator's account reported |
| Orchestrators.SpecsFeatureWaitsAtGate | apps/backend/farmcode/orchestrator/orchestrator.py:129-205 | with one fetch, when no new comment approves, the same poll leaves the feature stored at Gate 1 and reports no approval by the orchestrator's account |
| Orchestrators.Orchestrator.constructor | apps/backend/farmcode/orchestrator/orchestrator.py:21-45 | the orchestrator starts with the given store and dispatcher, no poll times and no posts |
| Orchestrators.Orchestrator.ExecuteCurrentPhase | apps/backend/farmcode/orchestrator/orchestrator.py:96-116 | the new state of the store, dispatcher, posts and poll times, and the result, are those of `Execute`, a dispatch that is refused, not configured or not launched included |
| Orchestrators.Orchestrator.AdvanceToNextPhase | apps/backend/farmcode/orchestrator/orchestrator.py:68-94 | the new state and the result are those of `AdvanceToNext`, and the feature passed in is the advanced one |
| Orchestrators.Orchestrator.CreateFeature | apps/backend/farmcode/orchestrator/orchestrator.py:47-66 | the new state and the result are those of `Creation`, with its already-dispatched, not-configured and failed-launch outcomes |
| Orchestrators.Orchestrator.HandleCompletion | apps/backend/farmcode/orchestrator/orchestrator.py:139-169 | the new state, the feature and the updates are those of `OnCompletion` |
| Orchestrators.Orchestrator.HandleApproval | apps/backend/farmcode/orchestrator/orchestrator.py:171-202 | the new state, the feature and the updates are those of `OnApproval` |
| Orchestrators.Orchestrator.PollFeature | apps/backend/farmcode/orchestrator/orchestrator.py:129-205 | the new state and the updates are those of `FeatureTurn` |
| Orchestrators.Orchestrator.PollForUpdates | apps/backend/farmcode/orchestrator/orchestrator.py:118-207 | the features polled are exactly the stored ones, in issue order, and the new state and updates are those of `PollAll` over them |
| Orchestrators.Orchestrator.ApproveGate | apps/backend/farmcode/orchestrator/orchestrator.py:225-252 | the new state and the result are those of `GateApproval` |
| Orchestrators.Orchestrator.GetFeatureState | apps/backend/farmcode/orchestrator/orchestrator.py:254-263 | the result is what loading the issue's state file gives |
| Orchestrators.Orchestrator.ListAllFeatures | apps/backend/farmcode/orchestrator/orchestrator.py:265-271 | the features are exactly the stored ones, in issue order |
| PhaseExecutors.FeatureNameRule | src/orchestrator/phase_executor.py:26-46 | a non-empty requested feature name is used as given; otherwise the name is the description's slug cut to 50 characters: at most 50 long, in `a-z0-9-`, without `--` and not starting with a hyphen |
| PhaseExecutors.IssueTitleShape | src/orchestrator/phase_executor.py:249-252 | the issue title has at most 80 characters and no newline, begins the stripped description, and is its whole first line whenever it is shorter than 80 |
| PhaseExecutors.BranchNameForInjective | src/orchestrator/phase_executor.py:280-281 | two equal branch names `{issue}-{feature}` come from the same issue number and the same feature name, negative numbers included |
| PhaseExecutors.DerivedBranchIsAdapterName | src/orchestrator/phase_executor.py:112 | with a derived feature name the executor's branch is the name the GitHub adapter derives for the issue's worktree from the same text |
| PhaseExecutors.StepErrorsDistinct | src/orchestrator/phase_executor.py:260-261 | each step re-raises a failure as its own `Phase1Error` subclass with that class's default code, and the four codes differ |
| PhaseExecutors.Artifacts | src/orchestrator/phase_executor.py:125-193 | one artifact per completed step, in order, naming the issue, the branch, the worktree or the `.plans` directory |
| PhaseExecutors.StepsCompleteOrder | src/orchestrator/phase_executor.py:152-203 | on a state that records a prefix of issue, branch, worktree, plans that includes the issue, both the full run and the resume record every step exactly once, in order |
| PhaseExecutors.LaterStepsFillGaps | src/orchestrator/phase_executor.py:152-203 | whatever a state records, the run adds each step it lacks, once, and none it has, so afterwards all four are recorded |
| PhaseExecutors.ResumeNeedsPredecessor | src/orchestrator/phase_executor.py:376-402 | the resume runs a step exactly when it is not recorded and its predecessor is recorded or has just run; it never creates the issue, and does nothing when none of issue, branch and worktree is recorded |
| PhaseExecutors.ResumeWithoutIssue | src/orchestrator/phase_executor.py:377-402 | a state recording only the branch is resumed from the worktree on: each step checks its predecessor, not the issue |
| PhaseExecutors.StartedState | src/orchestrator/phase_executor.py:128-140 | a new issue's stored state holds its number and feature name, records only the issue step, has no branch or worktree, and is IDLE with no history |
| PhaseExecutors.StepNamesDistinct | src/orchestrator/phase_executor.py:119-196 | the four step names differ |
| PhaseExecutors.LaterStepsMembers | src/orchestrator/phase_executor.py:153-191 | the run tries the branch, worktree and plans steps exactly when the state lacks them |
| PhaseExecutors.DoStepsExtend | src/orchestrator/phase_executor.py:153-202 | each of the branch, worktree and plans steps keeps the issue and feature, and records its own step exactly when it succeeds |
| PhaseExecutors.PartsShape | src/orchestrator/phase_executor.py:153-203 | each later step of `execute_phase_1` completes its step exactly when the state lacks it, unless it fails, and fails only then |
| PhaseExecutors.ResumePartsShape | src/orchestrator/phase_executor.py:377-402 | each step of the resume completes exactly when the steps recorded on entry lack it and its predecessor is recorded, unless it fails, and fails only then |
| PhaseExecutors.ChainShape | src/orchestrator/phase_executor.py:152-203 | three steps run in turn complete every due step in order, or stop at the first failure with the due steps before it completed |
| PhaseExecutors.RunLaterSteps | src/orchestrator/phase_executor.py:150-203 | the branch, worktree and plans part keeps the issue and feature, records exactly the steps it completes, and completes every step the state lacks, in order, unless one fails, having then completed those before it |
| PhaseExecutors.RunLaterFailure | src/orchestrator/phase_executor.py:217-224 | the later steps stop only with a branch, worktree or plans error, each a `Phase1Error` |
| PhaseExecutors.RunLaterNames | src/orchestrator/phase_executor.py:153-181 | a completed branch step asked for the branch `{issue}-{feature}` and stores the name the service returned; a completed worktree step stores the path it returned |
| PhaseExecutors.PartsRecord | src/orchestrator/phase_executor.py:153-203 | the branch step sets only the branch name, the worktree step only the path, the plans step neither |
| PhaseExecutors.RunLaterOnNewIssue | src/orchestrator/phase_executor.py:150-203 | on a new issue the branch, worktree and plans steps complete exactly when all three services succeed, after which the four steps are recorded in order; the worktree is asked for the branch just created |
| PhaseExecutors.RunLaterNothingToDo | src/orchestrator/phase_executor.py:153-203 | a state recording the branch, worktree and plans steps is left as it is, without a call |
| PhaseExecutors.Phase1OnNewRequest | src/orchestrator/phase_executor.py:89-215 | a new request whose services all succeed creates the issue, its state, the branch, the worktree and the plans in that order, moves to Phase 1 and then on, reports the four steps with their four artifacts, and leaves the state recording the branch, the path and the four steps |
| PhaseExecutors.StartOnNewRequest | src/orchestrator/phase_executor.py:117-150 | on a new request the issue is created, its fresh state stored and moved to Phase 1, in that order |
| PhaseExecutors.RunLaterAllSucceed | src/orchestrator/phase_executor.py:150-203 | on a new issue whose services succeed the three later steps make their three calls in order and record the branch, the path and all four steps |
| PhaseExecutors.Phase1Failures | src/orchestrator/phase_executor.py:101-230 | `execute_phase_1` stops only with one of the four step errors, with the refusal of a non-positive new issue number, or when the placeholder's issue has no stored state; the two assertions of the resume never fail here |
| PhaseExecutors.ResumeRunSteps | src/orchestrator/phase_executor.py:345-409 | the resume keeps the issue and feature, records exactly the steps it completes, does nothing on four or more recorded steps, and otherwise completes the due steps in order unless one fails, having then completed those before it |
| PhaseExecutors.ResumeRunFailure | src/orchestrator/phase_executor.py:376-402 | a step error stopping the resume is a branch, worktree or plans error, each a `Phase1Error` |
| PhaseExecutors.ResumeAssertionCanFail | src/orchestrator/phase_executor.py:384-386 | a state recording the branch step without a branch name stops the resume at the assertion of the worktree step, with no call made |
| PhaseExecutors.ResumeCountsSteps | src/orchestrator/phase_executor.py:361-371 | four recorded steps end the resume even when they are four copies of the issue step, although three steps would otherwise be due |
| PhaseExecutors.SavedThen | src/orchestrator/phase_executor.py:162-202 | saving after one step and then after the next leaves what saving after both leaves |
| PhaseExecutors.PhaseExecutor.constructor | src/orchestrator/phase_executor.py:69-87 | the executor starts with the given stored states and no calls |
| PhaseExecutors.PhaseExecutor.Save | src/orchestrator/phase_executor.py:140 | saving files the state under its own issue number and changes nothing else |
| PhaseExecutors.PhaseExecutor.CreateIssue | src/orchestrator/phase_executor.py:232-261 | one call to create the issue titled by the description's first line, cut to 80, with the whole description as body; the service's number, or its failure as an issue-creation error |
| PhaseExecutors.PhaseExecutor.CreateBranch | src/orchestrator/phase_executor.py:263-285 | one call to create the branch `{issue}-{feature}`; the returned name, or its failure as a branch-creation error |
| PhaseExecutors.PhaseExecutor.CreateWorktree | src/orchestrator/phase_executor.py:287-311 | one call to create the worktree of the branch; the returned path, or its failure as a worktree-creation error |
| PhaseExecutors.PhaseExecutor.InitializePlans | src/orchestrator/phase_executor.py:313-343 | one call; a path never set fails with the error of `None / ".plans"`, a failed write with its own text, both as plans errors |
| PhaseExecutors.PhaseExecutor.IssueStage | src/orchestrator/phase_executor.py:118-145 | a failed issue creation stops with its error; a non-positive number is refused on creating the state; otherwise the fresh state is stored recording the issue step and moved to Phase 1, with the calls in that order |
| PhaseExecutors.PhaseExecutor.BranchStage | src/orchestrator/phase_executor.py:153-162 | the calls and the saved state are those of the branch step, and a failure stores nothing |
| PhaseExecutors.PhaseExecutor.WorktreeStage | src/orchestrator/phase_executor.py:172-181 | the calls and the saved state are those of the worktree step, and a failure stores nothing |
| PhaseExecutors.PhaseExecutor.PlansStage | src/orchestrator/phase_executor.py:191-198 | the calls and the saved state are those of the plans step, and a failure stores nothing |
| PhaseExecutors.PhaseExecutor.BranchPartStage | src/orchestrator/phase_executor.py:153-169 | the branch step as `BranchPart` describes it, skipped when recorded |
| PhaseExecutors.PhaseExecutor.WorktreePartStage | src/orchestrator/phase_executor.py:172-188 | the worktree step as `WorktreePart` describes it, skipped when recorded |
| PhaseExecutors.PhaseExecutor.PlansPartStage | src/orchestrator/phase_executor.py:191-203 | the plans step as `PlansPart` describes it, skipped when recorded |
| PhaseExecutors.PhaseExecutor.LaterStages | src/orchestrator/phase_executor.py:150-203 | the later steps on the issue's stored state, as `RunLater` describes them: calls, last saved state, steps and failure |
| PhaseExecutors.PhaseExecutor.StartPhase1 | src/orchestrator/phase_executor.py:114-150 | the start as `StartSpec` describes it, and a started issue has a stored state |
| PhaseExecutors.PhaseExecutor.ExecutePhase1 | src/orchestrator/phase_executor.py:89-230 | the result, the stored states and the calls are those of `Phase1Spec` |
| PhaseExecutors.PhaseExecutor.ResumeBranchStage | src/orchestrator/phase_executor.py:377-382 | the resume's branch step as `ResumeBranch` describes it |
| PhaseExecutors.PhaseExecutor.ResumeWorktreeStage | src/orchestrator/phase_executor.py:384-394 | the resume's worktree step as `ResumeWorktree` describes it |
| PhaseExecutors.PhaseExecutor.ResumePlansStage | src/orchestrator/phase_executor.py:396-402 | the resume's plans step as `ResumePlans` describes it |
| PhaseExecutors.PhaseExecutor.ResumePhase1 | src/orchestrator/phase_executor.py:345-409 | the changed state, the calls and the stored states are those of `ResumeRun`; it succeeds exactly when no step failed, reporting the steps completed and no artifact |

## Left out

- GitHub CLI, git and filesystem work:
  - `_run_gh`, with its JSON and ISO-date decoding;
  - `_read_plans_folder` and `get_issue_context`'s parsing;
  - `add_label`, `remove_label` and `close_issue`;
  - branch and worktree creation, commit, push and README writing in the worktree manager;
  - the file writes of `_initialize_plans`.

  These are external effects. In the GitHub adapter and the package's phase executor their results are inputs, and a call either succeeds or fails with a message. In the worktree manager the git commands are assumed to succeed: once its existence checks pass, `CreateWorktree` and `DeleteWorktree` always succeed.
- The JSON serialisation of the state store. The store is a map from issue number to the stored file, and a file is either a readable state or corrupt.
- Agent process launch in the dispatcher: `subprocess.Popen`, the environment, and the Phase 2 prompt text. These are process effects. The outcome of the launch, a process id or an error message, is an input.
- The GitHub adapter's constructor, with its key-file and repository checks, and the loading of `agents.yaml` by the configuration module. These read settings from disk. For the dispatcher, an input `Launch` gives the set of configured handles and the launch outcome. Each operation of the orchestrator uses one `Launch` for all its dispatches. The agent models of the configuration are not modelled. The poller's list of agent handles is a parameter.
- `run_polling_loop` and the `asyncio` sleeps. The loop runs forever. Single passes of `poll_for_updates` are modelled instead.
- `PhaseManager.execute_phase_1`, its initialisation comment, and the phase checks of `execute_phase_2` and `execute_gate_1` that raise `ValueError`. The orchestrator calls these two only in the phase they check, so the checks never fail. `Orchestrator.CreateFeature` takes the state that `execute_phase_1` returns as its `setup` input, and `FreshSetup` states what that state is. Posting is recorded as an `Effect`. Its body is given by `EffectBody`.
- FeatureStates.Feature: the `metadata` dictionary of `FeatureState` (state.py:57) is not modelled. No modelled code reads or writes it.
- Durations and float timing: `time.time()`, the sleep computation, and `duration_seconds`. Time is whole seconds of an abstract clock. `PollForSignal` takes its clock readings as inputs.
- Unicode. Lower-casing, whitespace and slug characters are ASCII only, and every other character is dropped from a slug.
- The state machine, service, agent runner and logger that the package's phase executor uses. Their code is not part of this model. `create_state`, `transition` and `_save_state` are recorded as calls. Their effect on a stored state is modelled only as the executor's own updates.
- PhaseExecutors.PhaseExecutor.ResumePhase1: the source changes the state object passed in. Here the changed state is returned as `after`, and the saves are recorded in the executor's state table. Aliasing of that object by the caller is not modelled.
- The text of the architecture prompt and the log messages. These are presentation only.
- MCP server and command-line front ends. These are wrappers with no logic of their own.
- GitHubPollers.PollForCompletions: this models the corrected, offset-aware skip test, the corrected member of the first finding (`GitHubPollers.AwareFilterIsStrict`). In the source the second poll of a feature compares aware comment times with the naive `last_poll` and raises `TypeError`. `GitHubPollers.NaiveLastCheckRaises` shows that.
- GitHubPollers.PollForApproval: this models the corrected, offset-aware skip test, the corrected member of the first finding. The source raises `TypeError` on a feature's second poll, as for completions.
- Orchestrators.Orchestrator.PollFeature: this models the corrected, offset-aware skip test of the first finding, so a second poll does not raise. It also fetches the comments once, the corrected member of the finding on the second fetch (`Orchestrators.SpecsFeatureWaitsAtGate`). The refetch as written, which sees the orchestrator's own posts, is `FeatureTurnAsWritten`. In it a posted comment has an empty id, the clock reading as its time and `Inputs.account` as its author.
- Orchestrators.Orchestrator.PollForUpdates: this models the corrected, offset-aware skip test of the first finding, so a second poll does not raise. Each feature's turn fetches its comments once, as in the corrected member of the finding on the second fetch.

## Findings

| source | as written | input that shows it | evidently intended | confidence | as-written member | corrected member |
|---|---|---|---|---|---|---|
| apps/backend/farmcode/orchestrator/github_poller.py:72 | `last_poll[issue]` is stored as a naive `datetime.now()` (orchestrator.py:205). The next poll compares it with comment times that carry a timezone, and Python raises `TypeError` | any feature polled twice that has at least one comment | record the last poll as an aware UTC time, so that the strict skip test compares like with like | not executed | GitHubPollers.NaiveLastCheckRaises | GitHubPollers.AwareFilterIsStrict |
| apps/backend/farmcode/orchestrator/github_poller.py:110 | `poll_for_approval` fetches the issue's comments again (orchestrator.py:172-176). By then the completions handled earlier in the turn can have moved the feature onto Gate 1, which posted its approval request (phase_manager.py:151-164). That request says "approve" and "approved", so the scan takes it for a human approval | a first poll of a feature just started in PHASE_2_SPECS whose comments hold one ✅ completion by `duc` and no approval | stay at Gate 1 until a human approves | not executed | Orchestrators.SpecsFeatureSelfApprovesAsWritten | Orchestrators.SpecsFeatureWaitsAtGate |
| apps/backend/farmcode/adapters/github_adapter.py:92-98 | the adapter looks for the worktree `{issue}-{slug}` using its slug cut to 50 characters (lines 118-120). The worktree manager names the worktree with the uncut slug (worktree_manager.py:135-136) | an issue whose title is sixty letters long (`GitHubAdapters.LongTitle`) | look the worktree up under the name the worktree manager gives it | not executed | GitHubAdapters.LookupAsWrittenMissesLongTitles | GitHubAdapters.LookupFindsCreatedWorktree |
