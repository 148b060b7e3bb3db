# Execution history, deployment and maintenance pace

A Dafny model of the parts of the repository whose promises span whole runs:

- **Execution history** (`takt/history`, `takt/dispatch`, part of `takt/cli`). An append-only list of entries; the fold that
  derives every unit, execution and budget from it; and the operations that read that projection, decide, and append one
  indivisible batch. `Replay` is the fold as a function, `ReplayState` the same fold as maps updated in place. `Protocol` gives each
  operation as a `Command` and its effect, and `Execute` the history a run of commands records; `Decisions` and `Ledger` are the
  operations as the runtime performs them, with its loops, proved to record exactly that effect; `Effects` says when a batch is
  recordable and what it does to the projection. `Verdicts`, `Declarations`, `Recoveries`, `Executions` and `Activities` say when each
  operation goes through and what it leaves in terms of the recorded state alone, without the functions that decide it. `Licensing` and `Runs` show that every run only records entries that were
  licensed where they were appended; the invariants over all runs rest on that.
- **Plans and inferred order** (`PlanGraph`, `Revision`, `Declarations`, `Frontier`, `ExecutionOrder`). The cycle check and whole-plan revision,
  and the structure inferred for work delegated without a plan.
- **Deployment and ownership** (`Paths`, `FileSystem`, `Deployment`, `Deploying`, `Ownership`, `Uninstalling`). The transaction over
  an abstract file system in which any operation may fail as a schedule says, and the backup, restore and removal of what it
  replaces.
- **Maintenance pace** (`Pace`). The counters between maintenance cycles.

`Decimal`, `Ordering` and `Record` hold the text of attempt numbers, byte order, and the recorded entry with its validation.

Map iteration is left open throughout: loops pick any unvisited key, and a choice that must not depend on the order (the recovery scope or
QA round of a unit, the execution of a child session) is proved to have at most one answer in every reachable state.

Where the model departs from a literal reading:

- Text keys become pairs. `Record.AllowanceTextInjective` shows that the textual allowance key tells the pairs apart;
  unit names are taken to hold no NUL.
- Policy values are positive parameters. The catalog role of a switched agent, the VFS gates of a delegation, the validity of declared
  results, clock readings and the start of a maintenance plan are parameters of the operations that ask for them.
- Appending validates every entry and then appends all of them.
- A digest is any function that tells contents apart and has at least eight characters; `Ownership.TextDigestTellsApart` gives one. The
  shortened suffix of a backup name may still collide, and then the copy is refused. Deployment compares observed contents where the source compares their digests.
- Temporaries live apart from managed paths, so a random temporary name never hides a managed file. Backups are a map of
  their own, apart from the managed files.
- Managed and artifact paths are taken in normal form; `NormalizeRelPath` is not part of this model.
- `takt/dispatch/plan.go` says that a revision's result is what stands afterwards. The code tolerates redeclaring, unchanged, a
  unit that settled or was withdrawn, and such a unit is not standing: `Revision.AcceptedRevisionStands` states exactly when the promise
  holds, and `Revision.RedeclaredStaysOut` is a run on which it does not.
- `applyUninstallPlan` says that failures leave manifest and files untouched. The manifest is; the files need not be. A backup that no
  longer holds what was recorded stops the restores after the ones before it were carried out. Without a fault, an error leaves the
  files untouched if and only if a file to remove has become a directory, or every file to restore before the first corrupt backup,
  in path order, already equals its own (`Uninstalling.Harmless`, in the contract of `Uninstalling.Uninstall`); `Uninstalling.TamperedBackup` is
  a removal on which the promise fails. A failed save of the manifest, in `finishUninstall`, comes after the removals are final:
  `Uninstalling.FailedSave`.
- `gc.Coordinator.Close` moves the cursors to what the same process observed. Right after a reload that is the start, so such a close would
  have past windows counted again: `Pace.Coordinator.CloseUnobserved` states by how much, and that it goes unnoticed only when nothing
  was charged yet. The commands of `takt/cli` never do this, since each begins with `observeCoordination`: `Pace.Coordinator.Coordinate`.
- `gc.Coordinator.Advance` says that a failed start counts toward the abort limit. The barrier has cleared the count by then, so
  failures in a row reach the limit only when it is one: `Pace.FailedStartsStayAtOne`.

## Model

| member | source | states |
|---|---|---|
| Decimal.ParsePrint | takt/history/execution.go:185-204 | An attempt number stored as decimal text reads back as the same number. |
| Record.PositionRoundTrip | takt/dispatch/recovery.go:257-262 | A bus position recorded as a journal reference is read back by replay as the same cursor, from -1 (nothing yet) upwards. |
| Record.AllowanceTextInjective | takt/history/projection.go:177-182 | Two exceptions share an allowance only when bound and objective agree. |
| Record.AttemptKeyInjective | takt/history/projection.go:463-466 | The attempt key joins a unit and a numbered attempt without ambiguity, even when unit names hold slashes. |
| ReplayState.ProjectionState.Fold | takt/history/projection.go:407-493 | Updating the maps in place for one entry yields exactly the fold of the projection before it, whatever order the maps are visited in. |
| ReplayState.ProjectionState.SettleAttempt | takt/history/projection.go:412-419 | The termination loop settles exactly the executions of the attempt it names. |
| ReplayState.FindRound | takt/history/projection.go:154-161 | The loop finds a round holding the unit if there is one, and reports none only when there is none. |
| ReplayState.FindScope | takt/history/projection.go:279-286 | The loop finds an unresolved recovery whose scope holds the unit if there is one, and reports none only when there is none. |
| Budgeting.OneMatchPerUnit | takt/history/projection.go:274-286 | In every reachable state scopes of unresolved recoveries and unit sets of QA rounds are disjoint, so the lookups have one answer whatever the map order. |
| Budgeting.ChoiceIsForced | takt/history/projection.go:154-161 | With disjoint scopes and rounds, any match a map walk meets is the one the fold means. |
| Budgeting.BudgetsNeverExceeded | takt/dispatch/dispatch.go:98-134 | Over every run, attempts, failure streaks (strictly while open), started rounds, contests and uncovered units stay within ceiling plus recorded allowance. |
| Budgeting.BudgetedSafe | takt/history/projection.go:526-598 | One licensed entry keeps scopes and rounds disjoint and every counter within its ceiling plus allowance, through closing, forced backtracking, reopening and redeclaring. |
| Attempts.AttemptsEqualScopedAdmissions | takt/history/projection.go:460-467 | The attempts a recovery has spent are exactly the admissions recorded in its scope since it was declared. |
| Attempts.AttemptsAreConsecutive | takt/history/execution.go:185-204 | A unit's admitted attempts are 1, 2, 3, … without a gap; a denial spends none. |
| Slots.AdmissionTakesOneSlot | takt/dispatch/dispatch.go:59-69 | An admission the decision lets through is accepted by replay and takes exactly the one slot it names. |
| Slots.OthersTakeNoSlot | takt/history/projection.go:471-493 | No entry but an admission takes a slot. |
| Slots.CeilingKept | takt/dispatch/dispatch.go:112-118 | A licensed entry keeps the slots within the ceiling plus some session's allowance. |
| Slots.ConcurrencySafety | takt/dispatch/dispatch.go:84-136 | In every reachable state the units in flight across all sessions fit the specialist ceiling plus the concurrency allowance of some session. |
| Runs.RunIsLicensed | takt/dispatch/dispatch.go:62-69 | Every entry any run of commands records was recordable and allowed by the state it was appended to. |
| Runs.RunShape | takt/history/projection.go:471-493 | In every reachable state flight is set exactly in flight, an outcome exactly once settled, and attempts are positive decimals. |
| Lifecycle.LifecycleOverRuns | takt/history/projection.go:623-643 | Withdrawn is absorbing, planned is never re-entered, coverage is fixed at first sight, contract and prerequisites freeze at admission, attempts only advance. |
| Lifecycle.UncoveredWorkConserved | takt/history/projection.go:452-456 | The uncovered count equals the number of uncovered units, never decreases, and stays within its bound plus allowance. |
| Assurances.CompletedIsAssured | takt/dispatch/dispatch.go:150-176 | Work settled completed always has an assurance, and work whose current attempt was asked to cancel has not settled completed. |
| Assurances.UncertainNeverCompletes | takt/dispatch/dispatch.go:150-155 | No entry of any run settles as completed a unit that is uncertain, or was asked to cancel, where the entry is appended. |
| Assurances.CancelledNeverCompletes | takt/dispatch/dispatch.go:150-176 | An attempt once asked to cancel has not settled completed at any later point of any run. |
| Assurances.AssuranceGoverned | takt/history/projection.go:106-111 | The assurance shown is the last result of highest revision of the current attempt, or the last one when none has a revision. |
| Assurances.ResultStands | takt/history/projection.go:106-111 | One more result keeps the assurance the governing one: the last of highest revision, or the last if none has a revision. |
| Linkage.ExecutionsAreCurrent | takt/history/execution.go:87-122 | An unsettled ordinary execution is exactly its unit's attempt and dispatch in flight, and the only one of that unit. |
| Linkage.LicensedLinked | takt/history/execution.go:87-122 | Every licensed history keeps executions current, lanes keyed by attempt and child sessions held once. |
| Linkage.OneExecutionPerChild | takt/history/execution.go:138-148 | No two unsettled executions serve one child session. |
| Interlocutor.TurnsAlternate | takt/dispatch/interlocutor.go:50-117 | Recorded switches and ends of a root alternate, starting with a switch; each end names the session of the switch it ends. |
| Interlocutor.EmptyCallerNeedsValidation | takt/dispatch/interlocutor.go:75-87 | The decision lets a handoff by no one through on an idle root; only entry validation excludes it. |
| PlanGraph.Acyclic | takt/dispatch/plan.go:140-160 | The worklist check ends and answers true exactly when the in-plan prerequisites have no cycle, in any order of visit. |
| PlanGraph.LinkPrerequisites | takt/dispatch/plan.go:121-136 | Links every in-plan prerequisite with its multiplicity, and fails exactly when some prerequisite is neither planned nor known. |
| PlanGraph.ValidPlan | takt/dispatch/plan.go:75-84 | Rejects exactly the plans with a missing or duplicate identity, an unknown prerequisite or a cycle, in that order. |
| PlanGraph.RevisedPlan | takt/dispatch/plan.go:243-270 | A revision as a whole: withdrawn units are gone, declared ones stand as last declared, the rest is as it was. |
| PlanGraph.ReviseUnits | takt/dispatch/plan.go:245-270 | The indexed loop computes that revision, each unit in its place. |
| Revision.AcceptedRevisionStands | takt/dispatch/plan.go:162-215 | After an accepted revision the new version stands and the revised plan is acyclic; it is exactly the standing plan if and only if no declared unit has settled or been withdrawn. |
| Revision.RefusedRevisionChangesNothing | takt/dispatch/plan.go:217-228 | A refused revision changes no unit, no budget and no plan version. |
| Revision.RevisionOnARun | takt/dispatch/plan.go:59-71 | The same for a declaration made on any run: the new version with the same if and only if, or no change at all. |
| Revision.RedeclaredStaysOut | takt/dispatch/plan.go:162-215 | Commit two units, withdraw one, redeclare it unchanged: the revision is accepted, its result holds the unit, and the standing plan does not. |
| Accounting.SettledMeansLeft | takt/dispatch/recovery.go:212-231 | A recovery accounting leaves open and reconciled has actions left, and attempts left or work of its scope in flight. |
| Accounting.StaleBacktrack | takt/dispatch/recovery.go:182-200 | Deciding abandonment on the projection read before the observation gives the same batch as on the one after it. |
| Accounting.AccountSettles | takt/dispatch/recovery.go:175-191 | Observing and then abandoning, one recovery is settled, as its fresh calls, its budgets and its scope determine, and no other is disturbed. |
| Accounting.CountActions | takt/dispatch/recovery.go:199-210 | Counts the distinct tool calls of the session past the cursor by units of the scope. |
| Ledger.History.Account | takt/dispatch/recovery.go:146-168 | Every declared recovery consumes the fresh calls of its scope, or is no longer reconciled when the bus ends before its cursor; it is abandoned exactly when its actions are spent, or its attempts are while its scope is idle, for that bound. Recoveries that need neither are as they were. On a settled history it appends nothing, so a second accounting of one journal is idle. |
| Ledger.History.AppendBatch | takt/history/history.go:505-533 | Appends the whole batch, or nothing when one entry is not recordable. |
| Ledger.History.Project | takt/history/projection.go:393-399 | Replaying the recorded entries in place gives the projection every operation decides on, with its reachable-state invariants. |
| Ledger.History.Admit | takt/dispatch/dispatch.go:59-69 | Admits exactly when the work is named, a slot is free, the unit is new, planned or settled, and uncovered work, its unstarted round and its recovery have room; then the unit is in flight under this dispatch, in the next attempt, and counted by its round and its recovery. Otherwise the first of the reasons is recorded as the cause of a denial, and nothing else changes. |
| Verdicts.DecisionMeans | takt/dispatch/dispatch.go:84-136 | The decision admits exactly what may be admitted, said of the recorded state alone, and denies with the first reason in the order of the checks. |
| Verdicts.AdmissionLeaves | takt/history/projection.go:449-480 | What an admission leaves: the unit in flight in its next attempt, uncovered work counted, its round started, its recovery charged, nothing else changed. |
| Ledger.History.Finish | takt/dispatch/dispatch.go:143-176 | Work in flight ends backtracked exactly with an abandoned recovery that holds it, else interrupted exactly when it was asked to cancel or is uncertain, else completed; its executions settle with it, and completed work without a result is delivered unverified. A unit with nothing in flight keeps its state. |
| Verdicts.TerminationFinishes | takt/dispatch/dispatch.go:143-176 | The batch that ends work in flight is recordable, and leaves the unit settled with the outcome its recovery, its cancellation and its flight determine. |
| Ledger.History.Launch | takt/dispatch/dispatch.go:192-203 | Holds exactly for work in flight that is launched already or neither uncertain nor unmonitored, which then runs; a repeat or a refusal appends nothing, and nothing else moves. |
| Ledger.History.Reconcile | takt/dispatch/dispatch.go:215-233 | Holds exactly for uncertain or unmonitored work, or for ended work reported not running. Found running, the work runs again; found not running, it ends interrupted, or backtracked with its recovery. Without uncertainty nothing is appended. |
| Ledger.History.Note | takt/dispatch/dispatch.go:178-186 | A fact about a named unit is always recorded; it moves only that unit, only in flight, and as its kind says, while a stop or an escalation is counted. |
| Verdicts.NoteLeaves | takt/history/projection.go:471-493 | What a recorded launch, suspension, cancellation request or uncertainty makes of work in flight, and that it leaves everything else as it was. |
| Ledger.History.Withdraw | takt/dispatch/dispatch.go:235-240 | Holds exactly for still-planned work, which is then withdrawn and otherwise as it was, and nothing else moves; otherwise appends nothing. |
| Ledger.History.Except | takt/dispatch/dispatch.go:247-262 | Holds exactly for a positive allowance on a named bound, with an objective where the bound needs one, and on an abandoned recovery only for the bound it was abandoned for. Then the allowance grows by that much, an abandonment is lifted with its failure taken back, consumption is established again by an exception on actions, and no other recovery changes. |
| Recoveries.SpentBoundIsLiftable | takt/dispatch/recovery.go:212-231 | A recovery an accounting abandoned is reopened by an exception on the bound that was spent, and by no other. |
| Recoveries.ExceptionLeaves | takt/history/projection.go:536-566 | What an accepted exception leaves: the allowance grown, an abandonment lifted, unestablished consumption established from the named position. |
| Ledger.History.Declare | takt/dispatch/plan.go:38-71 | Holds exactly for a first commitment of a named, resolved, acyclic plan, or a revision of the standing version whose resulting plan is one, withdrawing only planned work and leaving work past planned as declared, and whose round fits. Then units, version and round are as declared and nothing else moves; otherwise nothing changes, and a refused revision is recorded with its first reason. |
| Declarations.DeclarationMeans | takt/dispatch/plan.go:38-228 | A declaration is accepted exactly when it fits, and then leaves the declared units, version and round; a revision is recorded as strategic exactly when it rewires retained work, and a refusal with the first requirement it misses. |
| Declarations.DeclarationStands | takt/dispatch/plan.go:162-215 | After an accepted declaration, first or not, the standing plan is what stood, less the withdrawn, with every declared unit that was new or planned. |
| Ledger.History.DeclareRecovery | takt/dispatch/recovery.go:64-95 | Holds exactly when the recovery is open already, with nothing appended, or the declaration is complete, within the budgets of the policy, over units no unresolved recovery holds, and of an objective that has not failed too often; it is then open with nothing consumed and its failures kept. Otherwise the first reason is recorded, and no budget changes. |
| Ledger.History.CloseRecovery | takt/dispatch/recovery.go:124-144 | Holds exactly for an open recovery, with evidence where a demonstration is claimed, which is then closed and otherwise as it was, its failures cleared by a demonstration and else one more. Otherwise appends nothing. |
| Ledger.History.ConfirmRestored | takt/dispatch/recovery.go:283-341 | Holds exactly for an abandoned, unrestored recovery with no work of its scope in flight, which is then restored; otherwise appends nothing. |
| Ledger.History.Contest | takt/dispatch/contest.go:34-58 | Holds exactly when the attempt is contested already, with nothing appended, or some recorded termination ended it other than completed and the allowance lasts; then it is among the contests, and nothing else changes. |
| Ledger.History.Switch | takt/dispatch/interlocutor.go:50-69 | Holds exactly for an eligible agent on an idle root, which the child session then holds; otherwise the holder stays. |
| Ledger.History.Handoff | takt/dispatch/interlocutor.go:75-87 | Holds exactly for the session that holds the interface, which is then free; otherwise the holder stays. |
| Ledger.History.Abort | takt/dispatch/interlocutor.go:93-117 | Holds exactly for the user or the harness ending the present holder, named or not; the interface is then free. Otherwise the holder stays. |
| Ledger.History.Fact | takt/history/execution.go:149-155 | A fact is recorded exactly while that very execution runs, and marks it so: prepared, delivered results added once each, prompted, stopped or ended; no other execution changes. |
| Ledger.History.AttachChild | takt/history/execution.go:156-181 | Holds exactly for a running, prepared execution of the agent that serves the child already, with nothing appended, or serves none while no other execution claims the child; the child is then linked and nothing else changes. |
| Ledger.History.AttachMaintenance | takt/history/execution.go:216-239 | Holds exactly when the lane runs already or nothing stands against it, whatever order executions are visited in; appends exactly in the second case, and a dispatch recorded for the first time is then that lane, in the next attempt of its unit. |
| Ledger.History.Prepare | takt/cli/execution.go:90-113 | Records the execution of a running attempt once, with its caller, owner, model and declared inputs, exactly when its seat is named whole; otherwise appends nothing. |
| Ledger.History.StartActivity | takt/dispatch/activity.go:31-55 | Holds exactly for a new activity, or one in flight for the same session and class; another instance takes its capture over, and a repeat appends nothing. |
| Ledger.History.FinishActivity | takt/dispatch/activity.go:57-82 | An activity in flight settles with the outcome; one settled holds only for that outcome, and appends nothing. |
| Ledger.History.MarkActivityUnmonitored | takt/dispatch/activity.go:85-100 | Lost capture leaves the activity in flight, unmonitored; a repeat or a loss after the end changes nothing. |
| Activities.SettledActivityStays | takt/history/projection.go:495-522 | Over every run a settled activity never changes, and none changes session or class. |
| Ledger.History.ExecutionForChild | takt/history/execution.go:138-148 | Finds the running execution of a child session, the only one there is. |
| Ledger.History.DeclareInputs | takt/history/execution.go:66-96 | Recordable exactly for a named root and unit, whose declared inputs are then exactly those ids, or explicitly none. |
| Decisions.DecideAdmission | takt/dispatch/dispatch.go:84-136 | The checks in order, over loops in any order, admit exactly what may be admitted, and deny with the first reason there is. |
| Decisions.IssueAttempt | takt/history/execution.go:185-204 | The attempt issued is one past the last, or past the highest recorded by executions of an unknown unit. |
| Decisions.RoundPasses | takt/dispatch/plan.go:345-379 | Accepts exactly the rounds of new authoring units of the plan, distinct and in no other round. |
| Decisions.DecideRevision | takt/dispatch/plan.go:167-215 | The batch of an accepted revision, or its first fault, computed step by step. |
| Decisions.LaneStands | takt/history/execution.go:220-236 | The walk reports a conflict exactly when some execution stands against the lane; with linked executions it finds the lane served exactly when it is, in any order. |
| Coordination.AdmitOnce | takt/cli/dispatch.go:216-230 | A repeated host call changes nothing; any other is admitted exactly when it may be, which makes any repeat of it one, and changes no work if it is not. |
| Coordination.PrepareExecution | takt/cli/execution.go:36-134 | A request at odds with its dispatch, or not proper, changes nothing; a concluded one is reported. Any other ends launchable exactly when the gates are open, its inputs and child fit, and the unit runs under it or may be admitted; the unit then runs, and its execution names the caller, agent, model and inputs and is prepared and linked. If not, no slot stays reserved under its dispatch. No other unit is touched. |
| Coordination.LaunchedRepeats | takt/cli/execution.go:36-53 | Repeating a launched preparation with the same arguments finds it concluded, not in conflict. |
| Coordination.Abandon | takt/cli/dispatch.go:245-267 | The attempt ends backtracked with its recovery, or else interrupted, its execution settles and its slot is released; without its gates released it stays in flight, asked to cancel, and nothing else changes. A repeat is idle. |
| Frontier.Walk.From | takt/history/snapshot.go:266-281 | The depth-first walk ends on any graph and sees exactly what the candidate reaches. |
| Frontier.FrontierOf | takt/history/snapshot.go:264-290 | Returns, sorted, exactly the candidates no candidate reaches, even on cyclic input. |
| Frontier.FrontierCovers | takt/history/snapshot.go:264-290 | On an acyclic graph every candidate is in the frontier or reached from a unit in it. |
| ExecutionOrder.ProjectWithExecutionOrder | takt/history/snapshot.go:215-238 | One pass computes the projection and the inferred prerequisites of each uncovered unit, whatever order maps are visited in. |
| ExecutionOrder.InferredOrderIsSound | takt/history/snapshot.go:215-238 | Without plan commitments no unit is its own inferred ancestor; a unit's ancestors include all that was settled at its first admission and only what had settled by then. |
| ExecutionOrder.InferredIsFrontier | takt/history/snapshot.go:215-238 | In any session, over every run: an order is inferred exactly for uncovered units, and is the sorted list of the units settled at first admission that no other settled unit waits for, by declared prerequisites of committed units and inferred ones of the others. |
| Paths.PathConflict | takt/setup/deploy.go:510-521 | The single pass reports a conflict exactly when some path follows one of its ancestor directories. |
| Paths.SortedShowsConflicts | takt/setup/deploy.go:585-604 | In a sorted list an ancestor comes before its descendants, so the single pass meets every conflict. |
| Paths.UnsortedHidesConflicts | takt/setup/deploy.go:510-521 | On an unsorted list that pass misses a conflict. |
| Paths.ValidateArtifacts | takt/setup/deploy.go:585-604 | Accepts exactly the distinct managed lists and returns the same artifacts sorted. |
| Paths.PrepareDeployment | takt/setup/deploy.go:149-169 | Accepts exactly the distinct managed lists in which no path is a directory of another, and returns the one sorted listing of their paths, in whatever order they come. |
| Deployment.Transaction.Stage | takt/setup/deploy.go:249-290 | Writes contents and backups beside the destinations without touching them; what it created is recorded for undoing. |
| Deployment.Transaction.Commit | takt/setup/deploy.go:365-393 | Installs in order. It commits only if no check is cancelled; a cancellation stops it at the first cancelled check, a failure at the broken rename, with exactly the artifacts before it installed. |
| Deployment.Transaction.Rollback | takt/setup/deploy.go:415-437 | Unless a fault strikes while undoing, files, directories and temporaries are exactly as before. |
| Deployment.FilesRestored | takt/setup/deploy.go:415-437 | Undoing every installed artifact leaves the files of before. |
| Deployment.Transaction.StopCancelled | takt/setup/deploy.go:396-413 | Installed files stay, the rest is untouched, and no created directory is left empty unless a fault struck. |
| Deployment.LastCreatedIsEmpty | takt/setup/deploy.go:425-436 | Created directories are empty when their turn to be removed comes, last created first. |
| Deploying.InspectDeployments | takt/setup/deploy.go:173-194 | Splits the artifacts into those in place and those to write, and refuses only on a fault, or when a destination is not as observed or not free. |
| Deploying.DeployObserved | takt/setup/deploy.go:115-145 | Without a fault, a deployable list is deployed exactly when no check among the pending writes is cancelled, and else stops with exactly the pending paths before the first cancelled check changed, in order. All or nothing for any failure point; on success every artifact holds its content and nothing else changed. |
| Deploying.PlanIsFeasible | takt/setup/deploy.go:149-169 | Once inspected, only a fault or a cancellation can stop the plan: directories come outermost first, and no destination is or becomes a directory. |
| Ownership.Installation.BackupContent | takt/setup/operations.go:904-942 | The copy holds the content and is the only one added; it is refused without a fault exactly when both names it could have hold other content, and no existing copy ever changes. |
| Ownership.Installation.CollectPriorStates | takt/setup/operations.go:789-855 | Every destination is as recorded, or its bytes are held by a backup before anything is written; a recorded takeover is carried as it was, and only a file the installation created gains the copy of its edit. |
| Ownership.Installation.ApplyPlans | takt/setup/operations.go:696-736 | Whatever the apply ends in, bytes it replaced were the recorded installed ones or are held by a backup. When recorded, each artifact on disk has the entry of its content, a recorded takeover carries its way back forward, and every other entry is as it was; without a fault it goes unrecorded only for a copy that clashes, an artifact that cannot be recorded or deployed, or a cancellation at the start. |
| Ownership.TakeoverKept | takt/setup/operations.go:789-855 | When what is recorded tells the way back to some origin, it still does after one more apply, complete or cancelled part way. |
| Ownership.TextDigestTellsApart | takt/setup/operations.go:904-942 | There is a function with everything asked of a digest. |
| Ownership.Installation.ClassifyRestoreEntry | takt/setup/restore.go:190-221 | Only the bytes recorded at takeover are put back: an entry is in place, in conflict or eligible exactly as the destination is, and unrestorable only on a fault or without those bytes. |
| Ownership.Installation.Restore | takt/setup/restore.go:101-144 | Restores lose nothing; every entry with a backup is put back, there already, or reported in the one list that says why, and left as it was where an edit or a directory stands in the way. |
| Uninstalling.Uninstall | takt/setup/operations.go:311-343 | However it ends, edited files keep their bytes and nothing is lost. Without a fault it goes through exactly when no file to remove has become a directory and no backup to put back is corrupt; then each entry it comes to stays with fewer owners while any remain, stays as edited, gets its bytes back if taken over, or is gone, and the manifest says so. An error leaves the files untouched exactly when `Harmless` says so, and keeps the manifest. |
| Uninstalling.RemovalMeans | takt/setup/operations.go:433-503 | What becomes of each entry of a complete removal, said of the owners, the bytes and the backups alone. |
| Uninstalling.EndsComplete | takt/setup/operations.go:533-577 | Without a fault a removal goes through exactly when nothing it comes to stops it. |
| Uninstalling.PutBack | takt/setup/operations.go:539-544 | Unless a fault strikes while undoing, every file moved aside is back with its bytes; no other file is touched. |
| Uninstalling.UntouchedByError | takt/setup/operations.go:533-577 | Whatever struck, an ending leaves the files untouched if and only if staging failed, or what was restored was there already and nothing was removed. |
| Uninstalling.CorruptEnds | takt/setup/operations.go:563-568 | With a corrupt backup among the restores, what is left equals what was there if and only if every restore before the first corrupt one was there already. |
| Uninstalling.TamperedBackup | takt/setup/uninstall_retention.go:83-99 | A run of the removal, without any fault, on two files taken over, the second with a tampered backup: it fails, and the first file has been replaced. |
| Uninstalling.FailedSave | takt/setup/operations.go:653-667 | A run of the removal on which the save fails: the manifest still lists the one unedited file, and it is gone. |
| Uninstalling.ApplyThenUninstall | takt/setup/operations.go:535-577 | With a way back recorded and no edit since, a full removal leaves every file as it was at the origin. |
| Uninstalling.ThereAndBack | takt/setup/operations.go:696-736 | Any number of recorded applies, from an empty manifest and with no edit in between, followed by a full removal that meets neither a fault nor a cancellation, leave every file as it was before the first; the removal succeeds and the manifest is empty. |
| Uninstalling.RunLosesNothing | takt/setup/operations.go:904-942 | Bytes found at a path at any moment of a run are still there or in a backup, unless the user edited that path since or they were recorded there as installed at that moment. |
| Uninstalling.PerformAll | takt/setup/operations.go:696-736 | Any sequence of applies, restores, removals and user edits, performed on an installation, is such a run, with that guarantee for every path and moment. |
| Pace.Coordinator.Observe | takt/gc/coordinator.go:185-198 | Counts exactly the entries past the cursor that changed a file by ordinary work of this session or of none. |
| Pace.Coordinator.ObserveExecutions | takt/gc/coordinator.go:151-159 | Counts exactly the session's admissions past the cursor. |
| Pace.MutationsAre | takt/gc/coordinator.go:185-198 | The count is the number of recorded changes by ordinary work in the window. |
| Pace.ChargedIsComplete | takt/gc/coordinator.go:288-307 | Windows are disjoint and complete: their counts add up to everything up to the cursors. |
| Pace.Coordinator.Advance | takt/gc/coordinator.go:224-274 | Idle exactly when nothing was requested and the shares of units and mutations sum to less than one; else aborts exactly when the deferrals have run out; else skips exactly when a cycle is in flight or nothing changed; else runs, and a cycle starts exactly over an idle workspace with a plan. Deferrals, windows and cursors move accordingly, and past windows plus the current counts are all that happened. |
| Pace.Coordinator.Close | takt/gc/coordinator.go:296-307 | Ends the cycle in flight, charges what was counted up to where this process observed, and starts the next window there; windows stay exact when it has observed. |
| Pace.Coordinator.CloseUnobserved | takt/gc/coordinator.go:99-115 | Closing right after a reload moves the cursors to the start: windows stay exact if and only if they were there, and else exactly what was charged counts again. |
| Pace.Coordinator.Coordinate | takt/cli/gc_coordinate.go:97-115 | Every command observes first, so after any sequence of them everything observed is in exactly one past window or beyond the cursors. A request, or a tick with work due, starts a cycle exactly when none is in flight, something changed, deferrals are left, the workspace is idle and there is a plan. |
| Pace.Coordinator.Complete | takt/gc/coordinator.go:185-198 | Once counted and tallied, past windows plus current counts are all effective mutations and admissions there are. |
| Pace.DueIsShareSum | takt/gc/trigger.go:153-156 | The integer comparison is the share sum of units and mutations reaching one. |
| Pace.DecideAnswers | takt/gc/trigger.go:147-170 | The decision is idle, abort, skip or run exactly as the request, the real share sum, the deferrals, the cycle in flight and the mutations say. |
| Pace.RunIsBelowLimit | takt/gc/barrier.go:67-85 | A run decision leaves room for one deferral, and the barrier lets it proceed exactly over an idle workspace. |
| Pace.BusyWaitEndsInAbort | takt/gc/trigger.go:147-170 | A due cycle waits on a busy workspace exactly as often as the limit says, and the next tick aborts. |
| Pace.FailedStartsStayAtOne | takt/gc/coordinator.go:243-270 | However many due cycles in a row fail to start, the deferrals stay at one and reach the abort limit if and only if it is one. |

## Left out

- SQLite, JSON, locks, command-line flags, HTTP clients, process execution, YAML policy loading and rendering: input and output around the modelled decisions.
- Error texts, telemetry and log messages: the fault of a refused plan is a tag, and a refused revision records a short reason in its place.
- Background, substitute, policy reference and artifact fields of entries, and the seat checks of `ValidateSeat`: carried along without being read by the modelled decisions.
- Machine-width overflow of attempt numbers, counters and cursors: integers are unbounded.
- White space beyond the Latin-1 range in `strings.TrimSpace`.
- `Protocol.NoteKind`: lifecycle facts recorded through `Record` are limited to the kinds the command line passes to it.
- `RecordResult` and `RecordActivity` commands: any recordable entry of their kind is admitted, more than the command line builds.
- More than one `qa_round` argument in one declaration, which the source refuses outright.
- Acyclicity of the standing plan in all later states, and uniqueness of the root a session holds: the code does not give them.
- Exact action counts when one call's journal entries straddle two accountings.
- Restoration of virtual state in `dispatch.Restore`: the VFS rollback is a parameter, only the recorded confirmation is modelled.
- The heuristic association of a native child by title and time in `attachExecutionChild`.
- Yielding a maintenance cycle to an admission (`yieldGCCycle`), and collection, verification and acceptance of a cycle.
- `BuildSnapshot` beyond the inferred order: sorting and renaming of nodes and edges.
- Histories filtered to another root before inferring order: the inferred order is modelled on recorded histories.
- File modes, fsync semantics beyond success or failure, symlinks, JSON merging of configuration files, and writers running beside the deployment.
- Edits made while an operation runs, and edits of the backup copies: the user acts between operations.
- Skipped paths of a partial apply, the reported inventory of retained and backed-up paths, and the removed, preserved and restored lists of a removal.
- Recovery of originally empty directories after uninstall, and user-chosen retention or removal of edited files.
- Exactly-once pace counting across session rebinds.
