# A verified model of the workflow coordination layer

Parallix coordinates missions with several long-running actors: integrators that land mission branches on
a shared base, a fleet supervisor that recovers stuck missions, commands that write one versioned mission
store, a repair loop that relaunches implementers, and a bounded operator judgment. This project models
those protocols in Dafny and proves what they keep under every interleaving.

The code between two `await`s is one atomic step. Everything the code awaits (git, agents, gates, locks,
clocks, the board, the model provider, the database) answers nondeterministically, may fail, and lets every
other actor move first. Each protocol comes in two forms that are proved to agree:

* a state machine on values (`Step` / `Execute`, an impossible move changes nothing) with theorems about
  all runs, stated over the log or history the run leaves behind;
* methods in the shape of the source (loops, early returns, `try`/`finally` order) that branch on and update
  fields of their own, and whose postcondition says that whatever they did was a run of that machine. Where a
  method awaits, it lets any number of foreign moves happen. What its own calls then answer is an input, and
  the run it made takes exactly those answers, for all inputs: no failure is made up and none is passed over.

| file | models |
|---|---|
| `MergeQueue.dfy`, `LandingAttempts.dfy`, `Integrate.dfy` | the landing protocol, the per-mission integration claim, when a run gives up, and the command that runs it |
| `Supervisor.dfy`, `ServedSteps.dfy`, `MissionRuns.dfy` | one mission under supervision: pressed actions, budgets, claims, outcomes |
| `Fleet.dfy`, `FleetCoverage.dfy`, `FleetLoop.dfy` | the polling loop over the whole fleet |
| `FailureFingerprint.dfy` | the identity of a failure that recovery budgets are counted by |
| `MissionWorkflow.dfy` | the lifecycle decisions of the Mission domain |
| `MissionWriters.dfy`, `MissionHistory.dfy`, `MissionServices.dfy` | the versioned store with its lane history, what that history says, and every command that writes to it |
| `ActivationSaga.dfy`, `Rollback.dfy`, `ExecutionService.dfy` | activation, launch and compensation of one execution |
| `MissionCancel.dfy` | what cancelling a mission does to a versioned write |
| `MissionCreation.dfy` | exactly-once mission creation behind a bounded request memory |
| `Rebound.dfy`, `ReboundKernel.dfy` | the repair kernel |
| `OperatorJudgment.dfy`, `JudgmentService.dfy`, `OperatorDecision.dfy` | bounded operator judgment and its token reservation |
| `DirectorySwap.dfy` | publishing a build one rename at a time |
| `Cohort.dfy` | the bug report's cohort: parse, sort, deduplicate, cut |
| `ControlAliases.dfy` | the alias fixpoint and the brace stack of the workflow-ownership scan |
| `Prelude.dfy` | `Option` and map lookup with a default |

Some promises fail in a stated case; each has a concrete run that breaks it and a lemma saying exactly when
it holds.

* What lands is what was gated, unless somebody commits to the mission between its gates and its landing
  (`UngatedCommitLands`; the integration claim stops only other integrations) or a Git hook's repair changes
  the payload of the squash commit (`RepairedPayloadLands`). It is exactly what was gated if and only if
  neither happened (`MergeQueueSafety`, `SoundExactlyUntouched`).
* What lands untouched lands on the base it was gated on, in every run, if and only if base moves are made
  under base exclusion (`UnlockedRace`, `OnTipExactlyUnderExclusion`).
* An exit code of 0 does not mean that anything landed: a run that stops for a human also exits 0
  (`HumanStopExitsZero`, `ExitMeans`).
* The repair audit trail is a chain in every run if and only if inspection of failed repairs is off or no
  attempt is allowed, and in one run if and only if none was inspected (`InspectionBreaksChain`,
  `ChainInEveryRunExactly`, `ChainExactlyUninspected`).
* A rollback that was issued restores the mission if and only if no call of it threw, nobody wrote the mission
  since the activation, and its event key was new or recorded this very rollback
  (`RollbackGoesThroughExactly`). A key that another mission was created under stops it although nobody
  touched the mission (`TakenKeyStopsRollback`).
* A versioned write replaces exactly what its writer read if and only if nobody may cancel the mission in
  between (`RecreatedMissionIsSwapped`, `NoLostUpdateExactlyWithoutCancel`).
* A bounded supervisor run that ends idle saw no working mission in its last pass if and only if no unreadable
  liveness read followed one that was working (`UnreadableReadForgetsWork`, `IdleEndSawNoWork`).
* The published `sea` entry is untouched if and only if the build stages none, or stages the very regular
  file that is published (`SeaUntouchedExactly`). A staged `sea` directory leaves none after the first rename
  (`SwapOverSea`).

The cohort's comparator is no such case, but it needs the parser: it is transitive if and only if every two
additions of one commit with another commit's addition between them collate in log order
(`TransitiveExactly`), which holds because the log names each commit once and the parse loop keeps its
additions together (`ParsedIsPreordered`); `InterleavedCommitsBreakOrder` shows what grouping prevents.

Two places where the code is followed rather than its prose: the lane event key is made from the trigger
that the lane pair implies while the event carries the command (`src/application/mission-lifecycle-service.ts:174-187`),
and the two differ for exactly three moves; and a replayed transition is saved without an event of its own,
so one event may witness several changes of lane.

## Model

| member | source | states |
|---|---|---|
| MergeQueue.MergeQueueSafety | src/application/integrate-workflow.ts:340-404 | Over any number of integrators, base moves and commits to any branch: a publication lands exactly what its run gated last if and only if nobody committed to the mission since that tree was taken and no hook repair changed the payload; under base exclusion it contains the tip it lands on if and only if the branch was not left off the tip since the check; a run gates at most five times and publishes at most once; a dry run neither rebases nor publishes |
| MergeQueue.SoundExactlyUntouched | src/application/integrate-workflow.ts:351-393 | Under base exclusion, a publication was gated on exactly the base it landed on if and only if nothing was committed and no payload repaired in between |
| MergeQueue.DirtyMeans | src/application/integrate/gates.ts:207-211 | The flag those results speak of says exactly that some commit to the mission came after its gates' tree was last taken |
| MergeQueue.UngatedCommitLands | src/application/integrate/squash.ts:168-182 | A run in which a commit made between the last gates and the landing lands ungated, although no other integration ran |
| MergeQueue.RepairedPayloadLands | src/application/integrate/squash.ts:185-253 | A run in which a hook failure's repair lands another payload than the gated one |
| MergeQueue.UnlockedRace | src/application/integrate/base-mutation.ts:4-9 | When base moves are not exclusive there is a run in which the base moves between the check and the publication, so an untouched candidate lands on a base it was not gated on |
| MergeQueue.OnTipExactlyUnderExclusion | src/application/integrate/base-mutation.ts:4-9 | Untouched candidates land on the tip in every run if and only if base moves are made under exclusion |
| MergeQueue.ExitMeans | src/application/integrate-entry.ts:35-55 | A run that is no dry run exits 0 if and only if it stopped for a human or on a mission that had already landed, or it closed a landing and could restore the stashed checkout; a stopped run landed nothing, a closed one published or resumed an earlier landing |
| MergeQueue.HumanStopExitsZero | src/application/integrate/review-before-integration.ts:15-39 | A run that exits 0 with nothing published |
| MergeQueue.OneLiveRunPerMission | src/application/integrate-entry.ts:84-108 | Two unfinished runs never integrate the same mission, and a finished run holds neither the mission claim nor the base |
| LandingAttempts.GivesUpExactlyAfterThreeMoves | src/application/integrate-workflow.ts:385-404 | In every run of the world, an integration that is no dry run, for which no effect failed, no rebase missed the tip, the claim was free and nobody stopped it, ends without landing if and only if it held the base and found it moved exactly three times; it never looks a fourth time |
| LandingAttempts.ThirdAttemptLands | src/application/integrate-workflow.ts:385-403 | A run in which others move the base before its first two claims: its third attempt publishes on the tip and it exits 0 |
| LandingAttempts.StopsExactly | src/application/integrate/review-before-integration.ts:15-39 | A run is stopped exactly for a human or for an earlier landing, before its preparation is over or instead of red gates, a dry run never for a human; a landing found at the publication is resumed; nothing else stops a run |
| LandingAttempts.DeedsMean | src/application/integrate-workflow.ts:386-403 | The account those results are read from says exactly which of these events the run left in the log |
| Integrate.IntegrateCommand.Rebase | src/application/integrate-workflow.ts:190-222 | The rebase moves only this mission's branch and goes on to the gates only when it ended on the tip as it then is |
| Integrate.IntegrateCommand.RunGates | src/application/integrate/gates.ts:252-296 | Passing gates certify the tree they started on, a repair certifies its own commit, and a human stop leaves with exit code 0 |
| Integrate.IntegrateCommand.PrepareCandidate | src/application/integrate-workflow.ts:340-379 | Rebase, gates, the second round when the base moved, and the lane restoration leave the run or reach the landing loop |
| Integrate.IntegrateCommand.WithBaseMutation | src/application/integrate-workflow.ts:386-394 | One landing attempt: the base is claimed, checked, published to only when it has not moved, and released however that ended |
| Integrate.IntegrateCommand.PublishMission | src/application/integrate/landing.ts:162-198 | The squash commit of the branch as it then is, or the resumption of an earlier one, and its closeout reach the release of the base |
| Integrate.IntegrateCommand.LandingLoop | src/application/integrate-workflow.ts:385-403 | The attempts, each revalidated outside the exclusion, are those of the machine and always reach an exit code |
| Integrate.IntegrateCommand.RunIntegration | src/application/integrate-workflow.ts:306-404 | The run's own branches and counters are those of the machine, and its exit code is the machine's |
| Integrate.IntegrateCommand.RunIntegrateEntry | src/application/integrate-entry.ts:84-110 | For everything its calls can answer and everybody else moving at every await, the command is the run of the machine that takes those answers, ends with the mission claim released, the larger of its run's exit code and the stash restoration's, and exit 1 when the claim was taken |
| Supervision.ResumeKeepsInv | src/application/recovery-supervisor.ts:103-241 | Every segment of a supervision step keeps a mission's books: at most one unfinished step, the claim held exactly while recovering, spent attempts equal launches, each key's dispatches equal its successes, failures and running action, escalated exactly when a failure is stored, every logged effect allowed when it was made |
| Supervision.SuperviseKeepsInv | src/application/recovery-supervisor.ts:419-443 | Meeting a queue item (reopening, skipping a settled or busy mission, starting a step) keeps the same books |
| Supervision.GoAllKeepsInv | src/application/recovery-supervisor.ts:103-241 | Any sequence of passes and answers keeps them |
| Supervision.EscalateKeepsInv | src/application/recovery-supervisor.ts:230-238 | Escalating during judgment stores the failure and releases the claim in one segment |
| Supervision.EffectsBounded | src/application/recovery-supervisor.ts:137-147 | A mission's dispatched commands number at most two per distinct action state it was seen in, its recovery launches at most the budget per distinct failure |
| Supervision.NoEffectWhileEscalated | src/application/recovery-supervisor.ts:424-435 | Between an escalation and any later dispatch or launch lies a reopening for a different failure |
| ServedSteps.CommandIsPressed | src/application/recovery-supervisor.ts:186-203 | A command that was not pressed in this state is, when its calls are served, dispatched once right after an idle read and not pressed in that state again |
| ServedSteps.SecondFailureHandsOver | src/application/recovery-supervisor.ts:203-213 | A command that throws stays unpressed after its first failure and counts as pressed after its second, so that recovery may diagnose it |
| ServedSteps.StuckMissionGetsAgent | src/application/recovery-supervisor.ts:141-183 | A mission whose command was pressed, or that has none to press, gets an agent under a claim while this failure has budget left: claim, idle read, admitted continuation, idle read, launch, release, in this order, and one attempt is counted |
| ServedSteps.SettledAtSight | src/application/recovery-supervisor.ts:111-153 | Which items settle a mission at once: a merge or an unowned idle item without action is the human's, and a spent budget escalates, storing the failure; nothing else does |
| ServedSteps.ReopensExactly | src/application/recovery-supervisor.ts:419-442 | A settled mission on the queue is reopened, with a step, if and only if it had cleared, or its human stop is now owned, worked on or offers another action than merging, or it escalated for another failure; otherwise only the sighting is kept |
| MissionRuns.MissionRun.SuperviseItem | src/application/recovery-supervisor.ts:103-184 | The step as written, for everything its calls can answer and with passes of the loop during every await, is the machine's step on those answers and reports what that finishes with |
| MissionRuns.MissionRun.PressAdvertisedAction | src/application/recovery-supervisor.ts:186-214 | Pressing the advertised command after a fresh liveness read is a run of the machine, whichever way it fails |
| MissionRuns.MissionRun.JudgeRecoveryStep | src/application/recovery-supervisor.ts:222-241 | Judgment either stops the step at the release of its claim or admits it to the launch |
| MissionRuns.MissionRun.RecoverUnderClaim | src/application/recovery-supervisor.ts:160-178 | However the code inside the claim ends, its next logged event is the release |
| MissionRuns.MissionRun.Reconcile | src/application/recovery-supervisor.ts:424-436 | The in-place reopening rule is the machine's for every number of unfinished steps |
| Fleet.FleetSafety | src/application/recovery-supervisor.ts:285-348 | After any interleaving, per mission: at most one unfinished step; at most `budget` launches per failure; at most two dispatches and one success per action state; every effect follows an idle read directly while nothing settled the mission, launches under the held claim; escalated exactly when a failure is stored; everything it was met with was on the board in active, review or integration, and the mission was asked for |
| Fleet.ActsOnlyOnLeadLanes | src/application/recovery-supervisor.ts:317-337 | Every command dispatched and every agent launched in a run is for an item the board showed of that very mission, in active, review or integration, and only for missions asked for |
| Fleet.FleetEffectsBounded | src/application/recovery-supervisor.ts:317-343 | All dispatches and recovery launches of a run together are at most (2 + budget) times the distinct items the board ever showed, however many passes it makes |
| Fleet.ReturnedRunIsFinished | src/application/recovery-supervisor.ts:345-349 | When the run returns every step is over and every claim obtained has been released |
| FleetCoverage.NothingIsOverlooked | src/application/recovery-supervisor.ts:317-337 | When a pass ends uninterrupted, every item of its board in active, review or integration, of a mission asked for, was met, and its mission is settled or has a step in flight |
| FleetCoverage.PassEndsRunExactly | src/application/recovery-supervisor.ts:334-343 | A pass ends the run if and only if the run was to be one pass, or it does not keep watching, nothing is in flight and the pass remembers no work |
| FleetCoverage.ClearedMissionLeftTheBoard | src/application/recovery-supervisor.ts:384-411 | A mission becomes cleared only while the board of the pass shows nothing of it in active, review or integration, with no step in flight, on an idle read |
| FleetCoverage.BoardIsGivenUpExactly | src/application/recovery-supervisor.ts:356-377 | The run gives up on the board exactly at the second failed read in a row, or at the first of a run of one pass; until then it pauses and reads again |
| Fleet.ClearedOnlyWhenAbsentAndIdle | src/application/recovery-supervisor.ts:384-411 | Despite the await between check and write, a mission becomes cleared only while absent from the current queue, open, with no step in flight, on an idle read |
| Fleet.IdleEndSawNoWork | src/application/recovery-supervisor.ts:384-411 | When a bounded run ends because a pass left nothing to watch, no mission was read as working in that pass if and only if no unreadable read followed one that was |
| Fleet.UnreadableReadForgetsWork | src/application/recovery-supervisor.ts:399-404 | A bounded run that ends right after a pass in which a mission was read as working |
| Fleet.RunKeepsInv | src/application/recovery-supervisor.ts:285-350 | Every reachable fleet keeps every mission's books, an order without duplicates, and fewer than two consecutive board failures while it still reads |
| FleetLoop.FleetRun.ProcessAttentionQueue | src/application/recovery-supervisor.ts:419-444 | The loop over the queue reconciles and starts missions in queue order and counts the open ones |
| FleetLoop.FleetRun.ClearIdleMissions | src/application/recovery-supervisor.ts:384-411 | The loop over all runs, with steps answered during each liveness read, is a run of the machine up to the processing of the queue |
| FleetLoop.FleetRun.SuperviseFleet | src/application/recovery-supervisor.ts:285-350 | The polling loop is the run of the fleet machine that reads the given boards and livenesses, one board a pass, until it ends or was patient enough; when it finishes nothing is in flight |
| FailureFingerprint.NumbersDoNotMatter | src/application/recovery-contract.ts:157-170 | Two failure details that differ only in one run of digits, whatever its length, have the same fingerprint |
| FailureFingerprint.FingerprintIsClean | src/application/recovery-contract.ts:163-170 | A fingerprint has no capitals, digits, leading or doubled spaces and at most 200 characters |
| FailureFingerprint.FingerprintIsStableExactly | src/application/recovery-contract.ts:163-170 | Fingerprinting a fingerprint changes nothing if and only if the cut did not leave a space at its end |
| FailureFingerprint.CleanDetailIsItsOwn | src/application/recovery-contract.ts:157-170 | A detail without capitals, digits, odd or doubled spaces, of at most 200 characters, is its own fingerprint, so failures that differ in a word stay apart |
| FailureFingerprint.NumbersLeaveAMark | src/application/recovery-contract.ts:163-170 | A run of digits leaves exactly one `#` between what stands around it |
| FailureFingerprint.SpacingDoesNotMatter | src/application/recovery-contract.ts:163-170 | Details that differ only in one run of blanks have the same fingerprint |
| FailureFingerprint.CaseDoesNotMatter | src/application/recovery-contract.ts:163-170 | A capital counts as its small letter |
| MissionWorkflow.ClosedIsFinal | src/domain/mission-workflow.ts:129-142 | No command and no second closing changes a closed mission |
| MissionWorkflow.AcceptedExactly | src/domain/mission-workflow.ts:318-426 | Which commands are accepted: exactly those on an open mission, in their lanes, with accepted evidence where the command needs it |
| MissionWorkflow.DecisionChanges | src/domain/mission-workflow.ts:318-426 | Which lane each command leads to, and what else it may change: assignee, evidence, closing time and pending preparation change only by the commands that speak of them, identity and repository never |
| MissionWorkflow.LanesAreJoinedExactly | src/domain/mission-workflow.ts:318-426 | From one lane some command leads to another along exactly the listed roads |
| MissionWorkflow.ClosingExactly | src/domain/mission.ts:248-266 | Closing is accepted exactly on a done mission without a closing time, and records a readable time |
| MissionWorkflow.DoneOnlyByIntegration | src/domain/mission-workflow.ts:413-415 | Only `integrate` makes a mission done, only from the integration lane, and no command leaves done |
| MissionWorkflow.EveryLaneChangeHasTrigger | src/domain/board-event.ts:77-94 | The trigger table is defined on every lane change a command can make |
| MissionWorkflow.KnownMoves | src/domain/board-event.ts:77-94 | The trigger table, move by move, and nothing else is a move the board knows |
| MissionWorkflow.DerivedTriggerNamesCommand | src/application/mission-lifecycle-service.ts:166-189 | The derived trigger is the command's own except for exactly three moves |
| MissionWorkflow.AbortUndoesActivation | src/domain/mission-workflow.ts:372-379 | Aborting an activation with the previous assignee gives back the refined mission exactly |
| MissionWriters.VersionedHistory | src/adapters/sqlite/mission-store.ts:217-262 | Under any interleaving and any failing call: the store is the serial history of its writes; each write is its decision applied to the mission it replaced, one version on; event keys are unique per repository; every change of lane has a recorded event with the same mission, from, to and trigger; every event was committed by a write it describes |
| MissionHistory.LaneMovesAreEarned | src/domain/mission-workflow.ts:318-426 | In every run of all writers, each commit that puts a mission into another lane, or records it in its first, was made by the one kind of command that may, with its evidence accepted and recorded: integration only by an accepted approval from review or active, done only by integrating or a proven landing, out of done only by recovery |
| MissionHistory.CommandsWereAdmitted | src/domain/mission-workflow.ts:318-426 | No commit carries a refused command: the mission it met was there and open, and its evidence was accepted |
| MissionHistory.EventsNameTheirCommand | src/domain/mission-workflow.ts:368-417 | The trigger of a recorded event is the name of its command |
| MissionHistory.ServedCommandCommits | src/application/mission-lifecycle-service.ts:86-158 | From every reachable store, an accepted command on the expected version that is served stores the decided mission one version on, and records a change of lane under its key |
| MissionHistory.AcceptedApprovalIntegrates | src/domain/mission-workflow.ts:318-331 | An accepted approval of an open mission in review or active, when served, puts it in integration on its evidence and records the approval |
| MissionHistory.RefusedCommandChangesNothing | src/application/mission-lifecycle-service.ts:86-110 | A command the domain refuses leaves the store alone and reports invalid, or the version conflict that came first |
| MissionHistory.StaleRequestConflicts | src/application/mission-command-support.ts:61-85 | A command, closing or assignment that expects another version than the mission has reports a conflict and writes nothing |
| MissionHistory.ServedEditCommits | src/application/mission-integration-service.ts:82-102 | A closing, edit or assignment on the expected version is, when served, stored one version on without a lane event |
| MissionHistory.LandingIsReadBack | src/application/mission-lifecycle-recovery.ts:44-59 | In every run, recovery reports a landed mission only when the store, read back, shows it closed |
| MissionHistory.ServedRecoveryReopens | src/application/mission-lifecycle-recovery.ts:96-118 | A done mission whose task is active, with no integration of it on record, is made active again when its calls are served |
| MissionCancel.CancelErasesExactly | src/adapters/sqlite/mission-store.ts:191-215 | Cancelling removes a mission that is not done, with all its events and no others; a done mission is untouched |
| MissionCancel.NoLostUpdateExactlyWithoutCancel | src/adapters/sqlite/mission-store.ts:191-215 | Whatever transactions come between a read and its versioned write, the write replaces exactly the mission that was read if and only if none of them may cancel that mission |
| MissionCancel.RecreatedMissionIsSwapped | src/adapters/sqlite/mission-store.ts:191-215 | From every stored mission, a cancel, a new creation and edits under which a write succeeds against a mission its writer never read |
| MissionWriters.RecoveryNeverUndoesIntegration | src/application/mission-lifecycle-recovery.ts:96-118 | A recovery commits done-to-active only if no event recorded before that commit integrates the mission, whoever writes between its load, its history read and its save |
| MissionWriters.DoneMissionsAreOnRecord | src/application/mission-integration-service.ts:58-80 | A stored mission in the done lane has a recorded event that integrated it or closed it as proven landed |
| MissionWriters.NewCommitWitnessed | src/application/lifecycle-lane-event.ts:105-117 | A write that commits its event, or that replays one already recorded, leaves its change of lane witnessed |
| MissionWriters.ReadsPredecessor | src/application/domain-ports.ts:45-49 | A write that succeeds read exactly the mission it replaces |
| MissionWriters.StepGrows | src/adapters/sqlite/mission-store.ts:306-387 | Whatever a step does, versions never go back, an unchanged version is an unchanged mission, and the history only grows |
| MissionServices.MissionStore.SaveMission | src/adapters/sqlite/mission-store.ts:344-387 | Inserts version 1 or swaps exactly the expected version, and leaves the store alone when refused |
| MissionServices.MissionStore.SaveMissionWithTransition | src/adapters/sqlite/mission-store.ts:232-262 | The write and its event commit together; a duplicate key rolls the write back |
| MissionServices.MissionStore.IsReplayed | src/application/lifecycle-lane-event.ts:105-117 | The search through the history finds exactly whether this transition is recorded under this key |
| MissionServices.MissionLifecycleService.Transition | src/application/mission-lifecycle-service.ts:86-158 | Load, decide, save with the lane event, and the replay of a refused duplicate are the run of the writers' machine in which exactly the given calls throw; integration takes the same path |
| MissionServices.MissionIntakeService.Execute | src/application/mission-intake-service.ts:74-131 | Intake is a run of the machine; when it completes, version 1 of exactly the requested backlog mission was inserted with its entry event |
| MissionServices.MissionClosureService.Close | src/application/mission-integration-service.ts:82-102 | Closing saves the closed mission without a lane event, as a run of the machine |
| MissionServices.MissionClosureService.ReopenUnlessIntegrated | src/application/mission-lifecycle-recovery.ts:99-118 | The history read and the versioned reopening, with other writers in between, are a run of the machine |
| MissionServices.MissionClosureService.Recover | src/application/mission-lifecycle-recovery.ts:63-119 | Every branch of lifecycle recovery is a run of the machine |
| MissionServices.MissionClosureService.WriteAndReadBack | src/application/mission-lifecycle-recovery.ts:44-59 | A landed mission is inserted closed and reported only when it reads back as closed |
| ActivationSaga.RollbackIsExact | src/application/execution-start-service.ts:36-47 | In every interleaving a rollback is written only if no provider had started and only directly on top of this execution's own activation, and it brings back the refined mission exactly as it was; if anybody wrote after the activation there is none |
| ActivationSaga.SuccessMeansProviderEndedWell | src/application/execute-mission-service.ts:120-157 | In every interleaving, an execution that reports success had its provider started before, and ended well while it ran |
| Rollback.RollbackGoesThroughExactly | src/application/execution-start-service.ts:36-47 | In every interleaving with writers of any missions, an issued rollback writes the mission back exactly as it was if and only if no call of it threw, nobody wrote the mission between the activation and its write, and at that write its key was new or recorded this rollback; whatever stopped it, it wrote nothing, and if it was overtaken somebody else made the write after the activation |
| Rollback.StepKeepsJudged | src/application/mission-lifecycle-service.ts:112-157 | At every moment, a command that expects a version is over and completed exactly if nothing of those three has stopped it |
| Rollback.TakenKeyStopsRollback | src/application/lifecycle-lane-event.ts:49-55 | A run in which another mission was created under the abort's key: the rollback is refused and the mission stays active, although nobody wrote it and nothing threw |
| ActivationSaga.UndisturbedRollback | src/application/execute-mission-service.ts:195-206 | The instance in which nobody else moves and every call is served: the mission is again exactly as before if and only if the abort's event is new or already records this very rollback; otherwise it stays as it is |
| ActivationSaga.StepKeepsServing | src/application/mission-command-support.ts:61-85 | A command that expects a version writes at most once, on exactly that version of the mission, whatever the other writers do |
| ExecutionService.ExecuteMission.StartExecution | src/application/execution-start-service.ts:15-34 | The load and the versioned start report the mission's status and assignee before it and the version it left, while other writers move |
| ExecutionService.ExecuteMission.FailedExecution | src/application/execute-mission-service.ts:195-212 | The command's own three conditions for rolling back are the saga's |
| ExecutionService.ExecuteMission.Compensate | src/application/execution-start-service.ts:36-47 | The reread and the versioned abort, made only on the version the activation left, end the execution |
| ExecutionService.ExecuteMission.Execute | src/application/execute-mission-service.ts:87-157 | The effect sequence with its failure path, run over the store with its own fields, is the run of the saga that follows its order and takes the answers of its calls, and reports its result |
| MissionCreation.ExactlyOnceCreation | src/application/mission-creation-service.ts:69-143 | Across concurrent calls, evictions, failed attempts, restarts and other writers, all calls that return a mission for one request key return the same one, the only one recorded under that key, stored in this repository |
| MissionCreation.AtMostOnePersisted | src/application/mission-intake-service.ts:108-130 | No two missions are ever recorded under one request key |
| MissionCreation.RetryReturnsCreatedMission | src/application/mission-creation-service.ts:133-143 | Once a request's mission is recorded, a call that is no longer remembered reads it back and writes nothing |
| MissionCreation.ServedCreationReturnsItsMission | src/application/mission-creation-service.ts:95-126 | A new request that is served stores its mission in the backlog at version 1 and returns that mission |
| MissionCreation.RepeatedRequestShares | src/application/mission-creation-service.ts:76-79 | A request whose key is being created or was created writes nothing and shares that attempt |
| MissionCreation.SharedOutcomeIsReturned | src/application/mission-creation-service.ts:76-77 | Who shares an attempt returns exactly what that attempt came to |
| MissionCreation.OnlyFailureForgets | src/application/mission-creation-service.ts:80-84 | A failed attempt frees its key and no other, a completed one keeps the memory as it is |
| MissionCreation.RefusedExactlyBeforeInsertion | src/application/mission-creation-service.ts:95-113 | A request can be refused exactly until its mission is handed to the store |
| MissionCreation.KeysDiffer | src/application/mission-creation-service.ts:177 | Different requests have different keys |
| MissionCreation.MemoryStaysBounded | src/application/mission-creation-service.ts:87-93 | The memory holds at most 256 requests, and a remembered key always names a call of that key |
| MissionCreation.RememberKeepsOk | src/application/mission-creation-service.ts:87-93 | Remembering keeps the bound, always keeps the newest request, and can lose only the oldest one, only when full |
| MissionCreation.RequestMemory.RememberRequest | src/application/mission-creation-service.ts:87-93 | The map update with eviction of its first key keeps the memory well formed |
| Rebound.LaunchRecoveryActionMeans | src/domain/rebound-policy.ts:239-245 | A launch is verified exactly when it reported exit status 0 without a contract blocker, skipped exactly when a repair was attempted otherwise, and retried exactly when nothing ran, the refusal was not final, no attempt was completed and launch retries are left |
| Rebound.RepairCounts | src/application/rebound-kernel.ts:318-366 | After any sequence of answers: completed attempts equal the counter minus one at every loop head and never exceed the maximum, and launches never exceed attempts plus launch retries |
| Rebound.RepairTerminates | src/application/rebound-kernel.ts:322-338 | Although a retried launch steps the counter back, no more iterations are possible than launches are allowed |
| Rebound.RepairFixes | src/application/rebound-kernel.ts:335-363 | The loop reports `fixed` if and only if it reached an iteration whose launch exited 0, whose check passed without workflow block or rejected contract, under the failing gate's own command (or, without a checkpoint, under none), and whose certification completed |
| Rebound.RerunsPass | src/application/rebound-kernel.ts:296-304 | The transient phase passes if and only if an allowed re-run reported success |
| Rebound.FixedIsSound | src/application/rebound-kernel.ts:230-273 | The whole incident is `fixed` exactly in those two cases, in the first with no attempt and no launch |
| Rebound.OnlyItsOwnGateCertifies | src/domain/rebound-policy.ts:255-257 | Over a whole incident in which no check names another failure: `fixed` after a launch means that a check passed under the original gate's command, or named none while no checkpoint was held |
| Rebound.ItsOwnGateRepairs | src/application/rebound-kernel.ts:339-363 | A launch that exits 0 and a passing check of the gate's own command do repair it, with or without a checkpoint |
| Rebound.SentAtMeans | src/domain/rebound-policy.ts:162-212 | Which failures an agent is sent at, kind by kind |
| Rebound.MarksTellApart | src/application/rebound-kernel.ts:167-174 | Two failures leave the same mark if and only if they are of one kind, failed in the same place and say the same |
| Rebound.FreshOutputReplacesOld | src/application/rebound-kernel.ts:146-165 | After a failed check without a reason of its own, the failure is of the same kind and place and says the fresh output alone |
| Rebound.BlockedLaunchStops | src/application/rebound-kernel.ts:328-334 | A launch stopped by a rejected contract, its own or its checkpoint's, ends the repair for a human with that text, and counts as an attempt if it ran |
| Rebound.BudgetsHold | src/application/rebound-kernel.ts:230-273 | Attempts and launches of a whole incident stay within their budgets |
| Rebound.ExhaustionNamesTheEnd | src/domain/rebound-policy.ts:249-252 | When the loop is over without a verdict, the reported cause is the repair budget exactly when the loop ran out, the launcher budget exactly when it was left by a launch, and a human exactly when the last failure is not relaunchable |
| Rebound.AuditTrailIsChain | src/application/rebound-kernel.ts:306-314 | With inspection off each attempt record starts at the failure the previous one left, and the history is the first failure, the re-run refreshes, then what each failed attempt left |
| Rebound.ChainInEveryRunExactly | src/application/rebound-kernel.ts:378-383 | A caller can rely on the chain, whatever the environment answers, if and only if inspection is off or no attempt is allowed |
| Rebound.ChainExactlyUninspected | src/application/rebound-kernel.ts:378-383 | One run's trail is such a chain if and only if that run inspected no failed repair |
| Rebound.InspectionBreaksChain | src/application/rebound-kernel.ts:378-383 | A fixed incident whose trail is not a chain because a spent launch was inspected |
| ReboundKernel.Kernel.RunRepairAttempts | src/application/rebound-kernel.ts:318-366 | The loop with its decremented counter terminates and does with the given launches, in order, what the iterations of the specification do, within both budgets |
| ReboundKernel.Kernel.HandleLaunchResult | src/application/rebound-kernel.ts:404-413 | Which counter a launch result moves, and that a verified launch leaves the diagnostic alone |
| ReboundKernel.Kernel.RefreshReboundState | src/application/rebound-kernel.ts:306-314 | Reason, diagnostic, classification and history move together |
| ReboundKernel.Kernel.FinishVerifiedRepair | src/application/rebound-kernel.ts:435-456 | A verified attempt is recorded, then fixed, stopped for a human, or one more failure in the history |
| ReboundKernel.Kernel.RetryTransientVerification | src/application/rebound-kernel.ts:296-304 | The re-runs stop exactly when one passes or breaks, or no further one is allowed |
| ReboundKernel.Kernel.Run | src/application/rebound-kernel.ts:230-273 | The whole kernel takes the given re-runs and launches one after the other until nothing is left to do, and computes the specified outcome of its incident within its budgets |
| OperatorJudgment.ConsultationIsBounded | src/application/operator-judgment.ts:99-113 | Under any interleaving and any timeouts the model is asked at most three times per mission and never twice about one snapshot |
| OperatorJudgment.VerdictsAreBacked | src/application/operator-judgment.ts:86-128 | A verdict to continue rests on three successive reads of one identical idle snapshot in active or review within the mission's time; the last record behind any non-escalating verdict names its action |
| OperatorJudgment.UnchangedEvidenceGetsItsAction | src/application/operator-judgment.ts:99-124 | After any history: new evidence that three reads in time report unchanged gets the action the model proposed on it, `continue` with its admission if the mission is idle in active or review, every other action always |
| OperatorJudgment.ProposalPassesExactly | src/application/operator-judgment.ts:35-46 | A proposal passes its second and third read if and only if the caller still waits, the snapshot is the one the model saw, the proposal names it, cites only its evidence and continues only idle work in active or review, and both clocks are in time; otherwise the consultation escalates |
| OperatorJudgment.TimedOutNeverReserves | src/application/operator-judgment.ts:56-71 | A consultation that timed out before it reserved never asks the model |
| OperatorJudgment.LaunchIsBacked | src/application/operator-judgment.ts:72-85 | Over all runs, a launch that passes its last check follows a verdict to continue with that very admission: the consultation's three reads and the check's own are one identical idle snapshot in active or review, and verdict and check were in time on the mission's one clock |
| OperatorJudgment.GrantedContinuationLaunches | src/application/operator-judgment.ts:72-85 | A verdict to continue can be launched on, and the launch passes its check when the read still reports the admitted snapshot in time |
| OperatorJudgment.ChecksAreFinal | src/application/operator-judgment.ts:72-85 | A check that passed or refused stays so |
| JudgmentService.OperatorJudgmentService.StartClock | src/application/operator-judgment.ts:56-58 | A mission's clock starts with its first consultation and is never restarted |
| JudgmentService.OperatorJudgmentService.AssertContinuation | src/application/operator-judgment.ts:72-85 | The bounded read at the launch boundary decides with its own checks what the machine decides on that very read, once, while consultations and other launches move |
| JudgmentService.OperatorJudgmentService.ReadAndReserve | src/application/operator-judgment.ts:99-113 | Declining or reserving after the first read updates the bookkeeping before anything else can run |
| JudgmentService.OperatorJudgmentService.Refreshed | src/application/operator-judgment.ts:115-119 | The second read admits the proposal in time and starts its record, or the consultation fails, as in the machine |
| JudgmentService.OperatorJudgmentService.Recorded | src/application/operator-judgment.ts:88-97 | After the record, only an escalation may be reported late, as in the machine |
| JudgmentService.OperatorJudgmentService.Confirmed | src/application/operator-judgment.ts:120-124 | The third read must still admit the proposal, and only a continuation hands out its admission, as in the machine |
| JudgmentService.OperatorJudgmentService.JudgeMission | src/application/operator-judgment.ts:56-128 | The caller always gets a verdict, the one the machine delivers for what the calls answer and where the timeout fires, with other consultations interleaved at every await |
| OperatorDecision.TokensAreBounded | src/application/operator-decision.ts:44-55 | The context tokens of everything one provider instance ever sends total at most 32768, each request within its own limits |
| OperatorDecision.RefusalIsFinal | src/application/operator-decision.ts:41-55 | Tokens are never given back: a request that was refused is refused again after any further calls, and a well-formed one asks for more than is then left |
| OperatorDecision.RefusedExactlyWhenUnaffordable | src/application/operator-decision.ts:48-53 | A request is not sent if and only if a figure of its own is missing, not positive or over 8192 input tokens, or the total would exceed 32768 |
| OperatorDecision.DecisionOperatorJudgment.Reserve | src/application/operator-decision.ts:49-54 | The running total is the sum of what was sent |
| OperatorDecision.DecisionOperatorJudgment.Selected | src/application/operator-decision.ts:56-67 | There is a proposal if and only if an allowed action was selected; it is for that action, names the snapshot, and cites all its evidence and nothing else |
| OperatorDecision.DecisionOperatorJudgment.Propose | src/application/operator-decision.ts:44-67 | With other calls reserving at both awaits, there is a proposal if and only if the provider is available, the request can be afforded at its turn, an allowed action was selected and the controls were assessed; it is for that action and admissible against an unchanged snapshot while fresh |
| DirectorySwap.BuildTree.PublishTree | scripts/build-canonical-bundle.ts:96-126 | Every rename is legal; every published tree on the way is accounted for name by name (as before, then absent for exactly one rename if it had to be parked, then as published); the result is the staged tree plus the old `sea`; an absent destination is created in one rename |
| DirectorySwap.BuildTree.RetireUnstaged | scripts/build-canonical-bundle.ts:109-112 | Exactly the entries the build no longer publishes are parked, never `sea` |
| DirectorySwap.BuildTree.PutEntry | scripts/build-canonical-bundle.ts:113-123 | One staged entry settles by one rename over a file or nothing, by two otherwise |
| DirectorySwap.FilesNeverVanish | scripts/build-canonical-bundle.ts:115-122 | A regular file in both trees is bound at every moment, to its old or its new content |
| DirectorySwap.NothingForeign | scripts/build-canonical-bundle.ts:96-126 | No reader sees a name or content that is in neither tree |
| DirectorySwap.ParkedSeaIsAbsentOnce | scripts/build-canonical-bundle.ts:113-123 | A published `sea` that the staged one cannot overwrite is absent at exactly one moment of the swap |
| DirectorySwap.SwapOverSea | scripts/build-canonical-bundle.ts:113-123 | The swap of a staged `sea` directory over a published one, with the moment at which there is none |
| DirectorySwap.SeaUntouchedExactly | scripts/build-canonical-bundle.ts:107-112 | `sea` is as it was at every moment if and only if the build stages none or stages the very regular file that is published |
| Cohort.ParsedIsGrouped | scripts/bug-frequency-report.ts:163-176 | When the log names each commit once, the parsed additions of a commit share its date and stand together in log order |
| Cohort.TransitiveExactly | scripts/bug-frequency-report.ts:178-183 | The comparator is transitive on numbered additions if and only if every interleaved pair of one commit collates in log order |
| Cohort.ParsedIsPreordered | scripts/bug-frequency-report.ts:162-183 | So the comparator is consistent on everything the parser produces |
| Cohort.InterleavedCommitsBreakOrder | scripts/bug-frequency-report.ts:162-183 | Why the grouping matters: on additions whose commits interleave, which no log produces, the comparator contradicts itself |
| Cohort.ParseLog | scripts/bug-frequency-report.ts:163-176 | The parse loop with its running order number produces the specified additions |
| Cohort.UniqueOfSorted | scripts/bug-frequency-report.ts:185-191 | Deduplicating a sorted list keeps the least addition of each id, in order, and loses no id |
| Cohort.CohortIsEarliest | scripts/bug-frequency-report.ts:193-194 | The cohort names different missions by their least additions, nothing left out precedes anything chosen, and it is full unless all missions were chosen |
| Cohort.CohortFollowsTheRule | scripts/bug-frequency-report.ts:178-194 | The cohort is ordered by date, then place in the log, then id within a commit; it represents each mission by an addition none of its others precedes, and no addition of a mission left out precedes a chosen one |
| Cohort.CohortGrowsAtTheEnd | scripts/bug-frequency-report.ts:193-194 | The cohort of one size is a prefix of the cohort of the next |
| Cohort.CohortFromGit | scripts/bug-frequency-report.ts:150-194 | Parsing, sorting, deduplicating and cutting return the ids of that cohort |
| ControlAliases.AliasesOf | scripts/architecture/workflow-ownership.ts:31-45 | The changed-flag loop terminates and returns exactly the names some chain of bindings reaches from the imported one |
| ControlAliases.ExactIsLeastClosed | scripts/architecture/workflow-ownership.ts:25-45 | Being exactly the reachable names is the same as being the least set that holds the imported name and is closed under the bindings |
| ControlAliases.OrderDoesNotMatter | scripts/architecture/workflow-ownership.ts:36-42 | The same bindings in any order and number give the same aliases |
| ControlAliases.EnclosingIsUnclosed | scripts/architecture/workflow-ownership.ts:72-77 | For any braces, balanced or not, the stack is exactly the blocks still open at the call, outermost first, each at its depth |
| ControlAliases.EnclosingBlocks | scripts/architecture/workflow-ownership.ts:72-77 | The push and pop loop computes that stack |

## Left out

- MergeQueue.MergeQueueSafety: does not model a gate run skipped by a recorded validation marker or for want of configured gates, which counts as a gate run that passed; the rebase that an already landed squash skips; or GitHub pull-request landing.
- MergeQueue.LandsCertified: a squash commit also carries the completed task file and the removal of stale task copies; that bookkeeping is not part of a candidate, so what lands is the gated tree up to it.
- MergeQueue.ExitMeans: a landing found on the base counts as a stop or as a resumed landing; the recovery of a landed closeout by its own option is not modelled.
- FleetLoop.FleetRun.SuperviseFleet: watches for a given number of passes, because a watching supervisor need not end; how long a pause lasts and which step wakes it are free.
- MissionRuns.MissionRun.SuperviseItem: shares its mission with the fleet as a value of the state machine rather than as one aliased object.
- MissionWriters.VersionedHistory: has no cancel among its commands (`MissionCancel.dfy` says what one does to a versioned write) and does not model the rewriting of legacy ids, nor the capability and fact guards that refuse a command before it loads anything.
- MissionWriters.DoneMissionsAreOnRecord: does not model missions imported as done by migrations.
- ExecutionService.ExecuteMission.Execute: workspace checks, launch records and review preparation are one awaited effect after the start.
- ActivationSaga.RollbackIsExact: covers the path that owns its own activation; an execution authorized elsewhere never compensates here.
- MissionCreation.RetryReturnsCreatedMission: supposes a store that can look up a mission by key and a call whose reads are served; a failed read refuses the call.
- Rebound.AuditTrailIsChain: keeps a fingerprint as its parts instead of one joined string, so equal fingerprints are equal failures.
- Rebound.FixedIsSound: takes the two diagnostic-text tables of the failure classifier as given functions, and abbreviates the diagnostic texts of thrown errors and failed launches.
- OperatorJudgment.LaunchIsBacked: an authority reports on the mission it was asked about; that is a promise of the port's implementation, not of the service.
- OperatorJudgment.ConsultationIsBounded: treats the structural parsing of a proposal as an answer that is either a proposal or malformed.
- OperatorDecision.DecisionOperatorJudgment.Propose: a returned proposal may still be refused by the parser, which bounds the number and length of evidence references and of the identifying texts.
- OperatorDecision.TokensAreBounded: one budget per request arrives in the order in which the calls pass their check; the wording of the request is not modelled.
- DirectorySwap.BuildTree.PublishTree: takes the build lock as given, and names regular files and directories only.
- Cohort.CohortFromGit: starts from log lines already split into headers and task files, readable commit dates and an abstract collation rank per id.
- FailureFingerprint.FingerprintIsClean: lower-cases ASCII letters and knows the ASCII spaces and the no-break space; the rest of Unicode is left alone.
- MissionCreation.ExactlyOnceCreation: the call itself is modelled on values; only its memory is updated in place.
- ControlAliases.AliasesOf: starts from bindings already matched and stripped of whitespace.
- Review rounds, approval coverage, contract completeness and checkpoint evidence are one opaque value with an accepted-or-not flag in each command.
- Prompts, dossiers, telemetry, progress output, work publication and retained recovery evidence: observability only.
- Conflict resolution inside the rebase and the rest of the rebase workflow: one awaited effect.
- Benchmark, study, migration, audit and release scripts: they would add only easy members.
