# SpecRelay: verified model of the scheduler, the plan compiler and the checkpoint restore

SpecRelay turns a plan written by an agent into an ordered list of tasks and runs them one
at a time through a durable job queue. This project models the parts of its backend where
correctness is hardest to see from one function, and proves what those parts promise
together. `dafny verify dfyconfig.toml` checks everything.

## What is modelled

**Scheduler and job queue.** `Lifecycle` holds the status contract and the single gate of
every status write. `Schedule` holds the task and plan rows, the persisted graph gate and
the choice of the next task as functions; `Scheduling` holds the loops that compute them.
`Protocol` states each transaction as one atomic step on the rows (22 kinds of step, with
a clock that only moves forward). `Store` is the class whose methods change the rows in
place, through the gate and with the request flags each transaction uses, and roll back to
the rows they found when a request is refused; every method is proved to be exactly its
protocol step. `Invariants` proves what every step keeps, `Histories` what follows for
whole runs. `Protocol.Legal` states what a run owes the protocol from outside: a moving
clock, queries that return the rows they select, and workers that fail a job with the
attempt they claimed; `WorkerPool` discharges the last one. It interleaves any number of
workers of any number of backend instances with each other, with the drain switch and with
the other transactions. `JobHolders` says how a worker comes to execute a job of another
worker, and `Recovery` when a recovery pass and a shutdown commit. `Effects` spells out the
rows each transaction leaves and when it commits, without the functions the steps are made of.

**Plan compiler.** `Words` and `Paths` normalise keys, lists and scope paths; `PlanSpec` is
preparing as a function and validation as a set of conditions, one per problem code;
`Validation` is the draft that the source rewrites in place, and `Preparing` says what
becomes of each field. `Graph` is the depth-first cycle search, `Order` the selection of
the execution order, `Lowering` the numbered tasks and the key of the final task. `Codec`
encodes and decodes plans as raw records with optional fields. `Stability` and `Unstable`
say when preparing twice is the identity, `CompilerGate` joins the compiler to the
scheduler, and `Misordered` has the accepted plans that the scheduler refuses.

**Checkpoint restore and drift.** `Restore` updates a tree of directories, files and
links in place and compares what the preflight looks at with what the restore needs.
`Drift` compares two execution contexts, decides whether the agent may run, and shows
which inputs its fingerprint depends on.

**Smaller algorithms.** `CliParser` (streaming line parser), `LogPages` (backwards log
paging), `Decimal` (exact decimal text and cost sums) and `GitZ` (NUL-delimited Git
output), over the byte lines of `ByteLines`.

## Where the code does less than its documentation suggests

* Two workers can execute the same job. Marking a running job as running again is answered
  as a replay before the worker is checked, so a worker whose job was taken back by recovery
  and given to another one goes on as well (`JobHolders.TwoWorkersOneJob`). In every run this
  replay and a claim of a job that is still executed are exactly the ways in which it happens
  (`JobHolders.IntrusionBegins`). A worker that does not hold its job ends without an effect
  on any job (`JobHolders.OnlyHolderChanges`); the transactions on tasks do not ask who runs
  them.
* One lost job can block recovery. A recovery pass commits exactly when none of its
  candidates is a task job whose task is back to pending while a cancellation is on record or
  its run had started (`Recovery.ReconcileCommits`); stopping a plan before the worker starts
  the task leads there (`Recovery.PassNeverCommits`). It stays so until another transaction
  ends the job: one of its own worker, the shutdown of that worker's instance, or switching
  automation off (`Recovery.FlightEnds`).
* The shutdown of an instance is refused exactly while a task of a job it holds has not been
  started (`Recovery.ShutdownCommits`, `Recovery.ShutdownOfUnstarted`).
* Automation can be switched off, at the current version, exactly when no blocked plan of the
  project has a queued or running task (`Recovery.SwitchOffCommits`); two workers that start
  the same final task leave such a plan (`Recovery.SwitchOffRefused`).
* Preparing a plan is not idempotent: a scope entry such as `./ ../x` is accepted, becomes
  `../x`, and is rejected when the prepared plan is validated again
  (`Unstable.AcceptedThenRejected`). Preparing, encoding and decoding are the identity
  exactly when every scope path is its own trimmed form and passes the path check once more
  (`Stability.PreparationIdentity`, `Codec.RoundTrip`).
* Because saving and lowering validate again, a plan whose scopes do not survive falls back to
  its original task order, and the graph gate accepts it exactly when that order happens to
  respect the dependencies (`CompilerGate.CompilerMeetsGate`). The entry `./ ./ ./ ../x`
  survives parsing and the validation on saving: with it, a plan whose tasks stand in another
  order is parsed, accepted, lowered and saved, but not queued (`Misordered.ParsedButRefused`,
  `Misordered.TwoTasksRefused`). Stable scopes exclude this (`CompilerGate.StablePasses`).
* The path check of scopes lets `..` through (`Unstable.ParentScope`); it is the only clean
  path that passes and leaves the workspace (`Paths.AcceptedClimbs`).
* An accepted preflight does not guarantee the restore. What it leaves open is stated by
  `Restore.PreflightGap`, with four inputs on which the restore then stops: an empty directory
  inside one that must give way to a file (`Restore.PreflightIsNotEnough`), a checked-out
  submodule that the target lacks (`Restore.FilledSubmodule`), a directory that an empty
  submodule leaves behind (`Restore.NestLeftBehind`), and a name with a backslash
  (`Restore.BackslashRefused`).
* The preflight also refuses restores that would go through. A controlled file that makes way
  for a directory is meant to be restored, but inspecting a target below a file fails
  (`Restore.TypeChangeRefused`); only links make way, depending on what is seen beyond them
  (`Restore.TypeChangeFits`, `Restore.PreflightRefuses`).
* Log paging keeps every non-empty line, but drops an empty one where a page ends and at the
  start of the log (`LogPages.EmptyLineDropped`); it returns all lines exactly when no page
  drops one (`LogPages.PagingIsComplete`).

## Model

| member | source | states |
|---|---|---|
| Lifecycle.ContractClosed | backend/internal/domain/models.go:792-908 | a contract step leaves a terminal status only when it is the recoverable one, and never changes to the same or to an unknown status |
| Stores.Store.TransitionJob | backend/internal/repository/store.go:3506-3611 | the gate on a job row: its verdict, and that the row moves with version + 1 and the given columns exactly when the request applies |
| Stores.Store.TransitionTask | backend/internal/repository/store.go:3506-3611 | the same gate on a task row |
| Stores.Store.TransitionPlan | backend/internal/repository/store.go:3506-3611 | the same gate on a plan row |
| Schedule.BuiltResultFound | backend/internal/repository/queue.go:2291-2314 | every criterion of a task finds its stored status in the built result, and nothing else is found |
| Schedule.FrontierShapeReads | backend/internal/repository/queue.go:1486-1513 | the pairwise shape invariant is the same as: succeeded tasks, then at most one task in any status, then pending tasks |
| Schedule.FrontierMeetsDependencies | backend/internal/repository/queue.go:1454-1481 | in a gated plan of that shape the task at the frontier has every dependency succeeded and accepted |
| Schedule.NextTask | backend/internal/repository/queue.go:1486-1513 | a chosen task is the first unfinished one of a gated plan with all earlier tasks accepted and no other task active; "all done" means every task succeeded and is accepted |
| Scheduling.AcceptanceBlocks | backend/internal/repository/queue.go:1303-1367 | the loop over criteria and stored results blocks exactly when the task or one of its criteria did not pass |
| Scheduling.ValidateExecutionState | backend/internal/repository/queue.go:1369-1435 | the persisted graph gate: no blocker exactly when the plan is executable and, if structured, has distinct keys, one final task and it last, non-empty distinct criteria, and distinct strictly earlier dependencies |
| Scheduling.IndexTasks | backend/internal/repository/queue.go:1383-1399 | the first pass finds distinct keys and a single, last final task, and indexes every key |
| Scheduling.DependencyBlocks | backend/internal/repository/queue.go:1454-1481 | the lookup by key blocks exactly when some dependency is not succeeded and accepted |
| Scheduling.NextPlanTask | backend/internal/repository/queue.go:1486-1513 | the selection loop computes the specified choice |
| Protocol.OnlyOwner | backend/internal/repository/queue.go:57-69 | at most one plan owns a project's turn |
| Protocol.BeforeOrders | backend/internal/repository/queue.go:67-68 | the owner order is total on distinct plans and transitive |
| Stores.Store.FindOwner | backend/internal/repository/queue.go:57-69 | the search returns the plan that comes before every other contender, or none when there is no contender |
| Stores.Store.ClaimJob | backend/internal/repository/queue.go:24-112 | claims a claimable job outside the locked projects that no such job precedes by priority and age, and nothing else; claims nothing only when there is none |
| Stores.Store.MarkJobRunning | backend/internal/repository/queue.go:114-146 | is the MarkRunning step, with its replay and refusal cases |
| Stores.Store.DeferJobForWorkspace | backend/internal/repository/queue.go:152-191 | returns a leased or running job of this worker to the queue after the (non-negative) delay and refunds the attempt |
| Stores.Store.ReleaseLeasedJob | backend/internal/repository/queue.go:196-230 | the same for a leased job, without delay |
| Stores.Store.CompleteJob | backend/internal/repository/queue.go:232-262 | ends a running job of this worker, leaves terminal jobs alone |
| Stores.Store.FailJob | backend/internal/repository/queue.go:264-322 | is the Fail step, whose row `Effects.FailedRow` gives: retries while attempts remain, fails otherwise, leaves terminal jobs alone |
| Stores.Store.CancelJob | backend/internal/repository/cancellation.go:13-44 | is the CancelJob step |
| Stores.Store.SaveGeneratedPlan | backend/internal/repository/queue.go:938-1102 | stores a plan ready with pending tasks when it has no problem, blocked and empty otherwise |
| Stores.Store.InsertTaskJob | backend/internal/repository/store.go:1492-1522 | inserts the task's job with its attempt budget unless its idempotency key exists |
| Stores.Store.QueuePlanTx | backend/internal/repository/queue.go:1586-1720 | is the queueing step; refused without effect otherwise |
| Stores.Store.QueuePlanAutomatically | backend/internal/repository/queue.go:1534-1565 | queues only under automation and only ready or blocked plans |
| Stores.Store.QueueTask | backend/internal/repository/queue.go:1722-1842 | queues the chosen task at the version named, resuming its plan |
| Stores.Store.StartTask | backend/internal/repository/queue.go:1897-2010 | starts a queued task after the gate recheck, or commits what blocking it leaves |
| Stores.Store.BlockQueuedTask | backend/internal/repository/queue.go:1844-1895 | returns the queued task to pending and blocks the plan |
| Stores.Store.FinishTask | backend/internal/repository/queue.go:2055-2289 | settles a running task and continues, completes, cancels or blocks its plan in one transaction |
| Stores.Store.ContinuePlan | backend/internal/repository/queue.go:2171-2289 | the part of finishing after a success |
| Stores.Store.ReturnTaskPending | backend/internal/repository/cancellation.go:58-101 | returns a running task to pending; other statuses are left alone |
| Stores.Store.ReturnTaskQueuedForRetry | backend/internal/repository/cancellation.go:105-145 | returns a running task to the queue without a new job |
| Stores.Store.StopTask | backend/internal/repository/cancellation.go:150-263 | cancels the stoppable jobs of a queued task and sets it pending, and reports the jobs in flight |
| Stores.Store.StopPlan | backend/internal/repository/cancellation.go:265-398 | cancels the plan, its stoppable jobs and its queued tasks, and reports its running jobs |
| Stores.Store.CancelJobs | backend/internal/repository/cancellation.go:188-225 | the cancelling loop changes exactly the selected jobs |
| Stores.Store.ResetTasks | backend/internal/repository/cancellation.go:342-388 | the resetting loop changes exactly the selected tasks |
| Stores.Store.BlockTaskJobForDrift | backend/internal/repository/cancellation.go:433-525 | fails the job, sets its task aside and blocks its plan, or does nothing |
| Stores.Store.SetAutomation | backend/internal/repository/store.go:289-605 | switches automation; off cancels the project's work and pauses its plans, on queues its ready plans at the versions read |
| Stores.Store.PausePlans | backend/internal/repository/store.go:366-470 | the loop pauses every plan with active work, or is refused when one of them is blocked |
| Stores.Store.ReconcileInstanceShutdown | backend/internal/repository/shutdown.go:21-300 | requeues generation jobs, cancels task jobs, sets running tasks aside and blocks their plans, all or nothing |
| Stores.Store.RecoverCandidate | backend/internal/repository/queue.go:586-802 | one candidate of a recovery pass is the recovery step |
| Stores.Store.ReconcileRuntimeState | backend/internal/repository/queue.go:386-468 | the pass, which reads all rows before its loop, is the sequence of steps on current rows, and rolls back as a whole when one is refused |
| Stores.PlansApart | backend/internal/repository/queue.go:386-468 | two candidates never share a plan, so no candidate invalidates what was read for another |
| Invariants.NextKeeps | backend/internal/repository/queue.go:24-2289 | every step keeps the invariant (frontier shape, accepted successes, gated started plans, linked jobs, attempt accounting, distinct keys, one task job in flight per project) and changes each row only as its history allows |
| Invariants.RunKeeps | backend/internal/repository/queue.go:24-2289 | every reachable state satisfies the invariant |
| Invariants.TaskQueued | backend/internal/repository/queue.go:1707-1714 | queueing a task always creates exactly one new job: its idempotency key is free |
| Invariants.SetAutomationKeeps | backend/internal/repository/store.go:289-605 | switching automation keeps the invariant, however many ready plans it queues |
| Invariants.ShutdownKeeps | backend/internal/repository/shutdown.go:21-300 | shutdown keeps the invariant |
| Invariants.RecoverKeeps | backend/internal/repository/queue.go:586-802 | recovery of a lost job keeps the invariant for any evidence |
| Histories.ReachablePlans | backend/internal/repository/queue.go:1369-1513 | frontier invariant of every reachable plan, and met dependencies of every started task of a structured plan |
| Histories.NothingToRepair | backend/internal/repository/queue.go:1207-1225 | no reachable plan has a succeeded task with pending acceptance |
| Histories.CompletedPlansAccepted | backend/internal/repository/queue.go:2214-2246 | a completed plan has all tasks succeeded and accepted |
| Histories.AttemptsConserved | backend/internal/repository/queue.go:152-302 | attempt = failed executions + 1 while in flight, refunds never clamp, failures stay within the maximum |
| Histories.OneTaskJobInFlight | backend/internal/repository/queue.go:43-56 | at most one task job per project is leased or running |
| Histories.HistoryKept | backend/internal/repository/store.go:3506-3611 | along every run succeeded tasks, completed or cancelled plans and terminal jobs never change status, and versions never fall |
| Histories.VersionsCountTransitions | backend/internal/repository/store.go:3590-3594 | a step raises a row's version by one exactly when it changes its status |
| Histories.AtMostOneApplies | backend/internal/repository/store.go:3531-3533 | of several requests naming one row at one version at most one applies |
| Histories.ReconcileKeeps | backend/internal/repository/queue.go:386-468 | a whole recovery pass keeps the invariant and the history of every row |
| Histories.OwnerNeverPreempted | backend/internal/repository/queue.go:31-78 | while the owner is executing with unfinished tasks it stays owner and no task job of another plan of the project is claimed |
| Histories.FinishChoice | backend/internal/repository/queue.go:2214-2289 | after a success the gate chooses the next task, or reports all done after the last |
| Histories.ContinuationNeverStuck | backend/internal/repository/queue.go:2055-2289 | under automation a successful finish completes the plan or queues exactly the next task with a new job |
| Histories.QueuedTaskStarts | backend/internal/repository/queue.go:1897-2010 | the recheck lets every queued task of a running plan start |
| Effects.ClaimedRow | backend/internal/repository/queue.go:24-112 | a claim commits exactly for a waiting job that is due, under automation, whose plan comes first by start, creation and id among the plans at work, with no other task job of the project in flight; and what it writes |
| Effects.HolderMoves | backend/internal/repository/queue.go:114-262 | what deferring, releasing, completing, cancelling and marking write to the row of a job in flight, for its holder |
| Effects.FailedRow | backend/internal/repository/queue.go:264-322 | a failed job waits 2, 4, 8, 16, 32, 64 seconds after its attempts 1 to 6 and 64 from then on while it may be repeated, and is failed at once otherwise |
| Effects.TakenForLost | backend/internal/repository/queue.go:586-608 | recovery leaves a job alone exactly when its process is known to live or, for each shape of the evidence, the leases and heartbeats named are valid |
| Effects.LostRows | backend/internal/repository/queue.go:610-802 | what recovery leaves of a lost job, its task and its plan: cancelled, requeued, pending or interrupted, blocked |
| Effects.LastResult | backend/internal/repository/queue.go:1303-1367 | the stored result of a criterion is its last entry |
| Effects.SavedRows | backend/internal/repository/queue.go:938-1102 | a generated plan is ready with its tasks and criteria pending, or blocked without any when it has problems |
| Effects.ChosenExactly | backend/internal/repository/queue.go:1369-1513 | when the scheduler chooses a task, spelled out; the check of the dependencies refuses nothing that the graph gate lets through |
| Effects.QueuedPlanRows | backend/internal/repository/queue.go:1586-1720 | queueing a plan starts its round of execution and queues its first open task, with a job that is due at once and has one attempt and the project's retries |
| Effects.QueuedTaskRows | backend/internal/repository/queue.go:1722-1842 | queueing one task does the same for the task named and resumes its plan |
| Effects.StartedRows | backend/internal/repository/queue.go:1897-2010 | the task runs and its plan validates if it is the final one; or the task is pending again and the plan blocked if it was ready or at work |
| Effects.FinishedRows | backend/internal/repository/queue.go:2055-2289 | a failure is recorded for the task and all its criteria and blocks the plan; a success without automation ends the plan |
| Effects.FinishedPlan | backend/internal/repository/queue.go:2171-2289 | how finishing a task leaves a plan in any status, with and without automation |
| Effects.FinishedOnce | backend/internal/repository/queue.go:2055-2170 | only a running task is finished; one that is pending or has ended is left alone |
| Effects.ReturnedRows | backend/internal/repository/cancellation.go:58-145 | a returned task is pending, or queued again without a new job, and nothing else changes |
| Effects.StoppedTaskRows | backend/internal/repository/cancellation.go:150-263 | when stopping a task commits, and that it cancels exactly the task's jobs that wait or are leased |
| Effects.StoppedPlanRows | backend/internal/repository/cancellation.go:265-398 | when stopping a plan commits, and that it cancels exactly the plan's jobs that wait or are leased and puts its queued tasks back |
| Effects.SwitchedOffRows | backend/internal/repository/store.go:289-470 | switching automation off cancels all work of the project, puts its active tasks back, leaves its plans at work ready, and touches no other project |
| Effects.ShutDownRows | backend/internal/repository/shutdown.go:21-300 | exactly the running tasks of jobs the instance holds are pending again, and exactly the plans at work that have one are blocked |
| Effects.ShutDownJobs | backend/internal/repository/shutdown.go:21-300 | exactly the jobs the instance holds are given back or cancelled |
| Effects.DriftedRows | backend/internal/repository/cancellation.go:433-525 | the job is failed, its task pending, its plan blocked while it is at work |
| WorkerPool.StepKeepsFlight | backend/internal/repository/queue.go:24-146 | outside a claim no job enters flight, changes hands or attempt in flight, and only its holder's MarkRunning moves it from leased to running |
| WorkerPool.MoveKeeps | backend/internal/jobqueue/worker.go:138-179 | every move of every worker keeps the protocol invariant, the workers' job snapshots and the emptiness of drained pools' locks |
| WorkerPool.MoveIsLegal | backend/internal/jobqueue/worker.go:180-263 | whatever a worker does with its job is a protocol step, with the attempt number the row has |
| WorkerPool.OneClaimPerProject | backend/internal/jobqueue/worker.go:138-179 | in every interleaving at most one task job per project is in flight |
| WorkerPool.DrainedPoolBeginsNothing | backend/internal/jobqueue/worker.go:42-46 | after draining began no worker of the pool moves a job from leased to running |
| WorkerPool.RetryPairing | backend/internal/app/service.go:1583-1617 | after a cancelled run the task is pending and the job cancelled; after a failed one the task is queued exactly when its job waits for a retry, and otherwise both failed and the plan is blocked |
| JobHolders.IntrusionBegins | backend/internal/repository/queue.go:114-146 | along every run a worker comes to execute a job held by another one exactly when it replays MarkRunning or when the other one claims the job it executes |
| JobHolders.OnlyHolderChanges | backend/internal/jobqueue/worker.go:180-263 | whatever a worker does with its job changes no job row but that one, and only while it holds it; only a drift report reaches plans |
| JobHolders.TwoWorkersOneJob | backend/internal/jobqueue/worker.go:138-179 | a run of the whole system after which two workers execute the same job |
| Recovery.RunHouses | backend/internal/repository/queue.go:24-2289 | in every reachable state a running task stands in a plan that executes, is blocked or has ended, and plans and tasks have no other statuses than the steps write |
| Recovery.ReconcileCommits | backend/internal/repository/queue.go:386-468 | in every reachable state a recovery pass commits exactly when no candidate is stuck |
| Recovery.PassNeverCommits | backend/internal/repository/queue.go:750-802 | a reachable state with a lost job in which every pass over it rolls back, whatever the inactive evidence |
| Recovery.FlightEnds | backend/internal/repository/queue.go:24-2289 | along every run a job leaves flight only by its own worker, a stop while leased, switching automation off, the shutdown of its worker's instance, or a recovery that does not find it stuck |
| Recovery.ShutdownCommits | backend/internal/repository/shutdown.go:21-300 | in every reachable state the shutdown of an instance commits exactly when no task of a job it holds is still queued |
| Recovery.ShutdownOfUnstarted | backend/internal/repository/shutdown.go:21-300 | a reachable state in which it is refused |
| Recovery.SwitchOffCommits | backend/internal/repository/store.go:366-470 | in every reachable state switching automation off at the current version commits exactly when no blocked plan of the project has a queued or running task |
| Recovery.SwitchOffRefused | backend/internal/repository/store.go:366-410 | a run that starts the final task twice, after which it is refused |
| Words.NormalizeKeyLoop | backend/internal/planspec/planspec.go:664-680 | the key loop computes the normal form |
| Words.NormalizedKeyForm | backend/internal/planspec/planspec.go:664-680 | a normal key is groups of upper-case letters and digits joined by single dashes |
| Words.NormalizeKeyIdentity | backend/internal/planspec/planspec.go:664-680 | normalising a normal key is the identity |
| Words.NormalizeKeySpells | backend/internal/planspec/planspec.go:664-680 | a normal key has the letters and digits of the value in order and in upper case, and a dash between two of them exactly where other characters stand between them |
| Words.MarksExist | backend/internal/planspec/planspec.go:664-680 | the positions of the letters and digits can always be listed |
| Words.NormalizedListForm | backend/internal/planspec/planspec.go:682-703 | list entries come out trimmed, non-empty and distinct, each from an entry |
| Words.NormalizeListKeeps | backend/internal/planspec/planspec.go:682-703 | no non-empty entry is lost |
| Words.NormalizeListOrder | backend/internal/planspec/planspec.go:682-703 | values come out in the order of their first entries |
| Text.TrimCuts | backend/internal/planspec/planspec.go:543-544 | trimming takes the white space at both ends and nothing else |
| Words.DigitsInjective | backend/internal/planspec/planspec.go:280-282 | decimal numerals determine their number |
| Decimal.PaddedReads | backend/internal/planspec/planspec.go:570-572 | the number of a generated key has three digits or more, reads as the number, and has no zero in front of more |
| Paths.CleanIdempotent | backend/internal/planspec/planspec.go:705-722 | lexical cleaning is idempotent |
| Paths.CleanShorter | backend/internal/planspec/planspec.go:705-722 | cleaning never lengthens a path |
| Paths.CleanKeepsPlace | backend/internal/planspec/planspec.go:705-722 | cleaning keeps the place a path names |
| Paths.PathValueKeepsPlace | backend/internal/planspec/planspec.go:705-722 | so does the normal form of a scope entry |
| Paths.ScopeHolds | backend/internal/planspec/planspec.go:682-722 | a prepared scope has exactly the entries with text that stay inside, in normal form |
| Paths.EntriesKept | backend/internal/planspec/planspec.go:705-722 | an entry is reported as invalid exactly when it has text and leads outside |
| Paths.LessAtDifference | backend/internal/planspec/planspec.go:700-701 | the order of texts is that of the first difference, a beginning coming first |
| Paths.ScopeHasForm | backend/internal/planspec/planspec.go:705-722 | a prepared scope is strictly increasing and clean |
| Paths.ScopeAgain | backend/internal/planspec/planspec.go:705-722 | preparing a prepared scope again is the identity when every path is stable, and loses weight otherwise |
| Paths.AcceptedClimbs | backend/internal/planspec/planspec.go:705-722 | the path check passes a clean path exactly when it is not rooted, has no drive letter and, but for `..`, does not lead out of the workspace |
| Paths.NormalizeScope | backend/internal/planspec/planspec.go:682-722 | the two loops over scope entries compute the prepared scope and the invalid entries |
| Graph.CycleSearch.Visit | backend/internal/planspec/planspec.go:626-653 | a visit finds a closed walk or finishes its key after all its dependencies, restoring the path |
| Graph.DependencyCycle | backend/internal/planspec/planspec.go:621-662 | the search is sound and complete, and what it returns is a closed walk of real edges |
| Graph.RankedMeansAcyclic | backend/internal/planspec/planspec.go:621-662 | an order with dependencies first excludes every closed walk |
| Order.SomeReady | backend/internal/planspec/planspec.go:228-239 | while a task is missing some task is ready |
| Order.TopologicalOrder | backend/internal/planspec/planspec.go:217-247 | the selection loop never reaches its error return and always places the first ready task |
| Order.GreedyIsTopological | backend/internal/planspec/planspec.go:209-247 | that order is a permutation of the keys with every dependency first |
| Order.GreedyIsLeast | backend/internal/planspec/planspec.go:209-247 | any other execution order departs from it at a task that stands later in the plan |
| Validation.Draft.PrepareTask | backend/internal/planspec/planspec.go:569-602 | preparing one task in place, with its effect on the plan's mode |
| Validation.Draft.Prepare | backend/internal/planspec/planspec.go:538-567 | preparing the draft, and a scope problem exactly when some scope entry is invalid |
| Validation.Draft.Validate | backend/internal/planspec/planspec.go:107-202 | every problem code is reported exactly when its condition holds, and no problem means the plan is accepted |
| Preparing.PreparedFields | backend/internal/planspec/planspec.go:538-622 | every field of a prepared plan from the fields given: generated keys, default dependencies on the task before, criteria made from texts, and the compatibility mode with every reason for it |
| Stability.PreparedForm | backend/internal/planspec/planspec.go:538-622 | everything preparing promises about the fields of a plan |
| Stability.PreparedAgain | backend/internal/planspec/planspec.go:538-622 | preparing a prepared plan changes nothing but its scopes |
| Stability.AcceptedAgain | backend/internal/planspec/planspec.go:107-202 | a prepared plan is accepted again exactly when its scopes are |
| Stability.PreparationIdentity | backend/internal/planspec/planspec.go:538-622 | preparing an accepted plan again is the identity exactly when all scope paths are stable |
| Unstable.SneakyScope | backend/internal/planspec/planspec.go:705-722 | a concrete scope entry that is accepted and becomes one that is rejected |
| Unstable.BuriedScope | backend/internal/planspec/planspec.go:705-722 | a concrete scope entry that is accepted twice and becomes one that is rejected |
| Unstable.ParentScope | backend/internal/planspec/planspec.go:705-722 | the scope entry `..` is accepted as it is |
| Unstable.AcceptedThenRejected | backend/internal/planspec/planspec.go:107-202 | with that entry any accepted plan is accepted but its prepared form is not |
| Codec.DecodeAcceptance | backend/internal/planspec/planspec.go:499-536 | mixed lists are refused; otherwise the items and their form are decoded |
| Codec.ToSpec | backend/internal/planspec/planspec.go:397-497 | decoding, with the mode that missing or legacy fields switch on |
| Codec.DecodedReads | backend/internal/planspec/planspec.go:397-536 | decoding fails exactly for a list that mixes texts and items; every field, each form of the final validation, and every reason for the compatibility mode |
| Codec.RoundTrip | backend/internal/planspec/planspec.go:332-497 | encoding an accepted plan and decoding and validating it gives it back exactly when all scope paths are stable |
| Lowering.PlanOrder | backend/internal/planspec/planspec.go:212-247 | an order is returned exactly for accepted plans |
| Lowering.PlanOrderIsLeast | backend/internal/planspec/planspec.go:209-247 | it is an execution order and precedes every other one |
| Lowering.FreshFinalKey | backend/internal/planspec/planspec.go:272-283 | the search ends with the first unused final key |
| Lowering.Tasks | backend/internal/planspec/planspec.go:249-296 | the numbered tasks are those of the prepared plan in its execution order, or in its original order when validation fails again, followed by the final task under a fresh key |
| Lowering.LoweredRead | backend/internal/planspec/planspec.go:263-296 | each key of the order carries the last task with that key, and the final validation depends on all of them and has the final criteria and commands |
| CompilerGate.BuildRows | backend/internal/repository/queue.go:977-1064 | the rows stored for the numbered tasks: keys, dependencies, criterion keys, and the last one final |
| CompilerGate.RowsRead | backend/internal/repository/queue.go:977-1064 | each row has the key, dependencies and criterion keys of its task, and the last one is final |
| CompilerGate.RowsPass | backend/internal/repository/queue.go:1369-1435 | lowered rows pass the graph gate exactly when their order respects the dependencies |
| CompilerGate.CompilerMeetsGate | backend/internal/repository/queue.go:977-1064 | the rows of an accepted structured plan pass the gate exactly when its scopes survive or its tasks already stand in order |
| CompilerGate.AcceptedPlanQueues | backend/internal/repository/queue.go:1586-1720 | saving such a plan and queueing it commits under the same condition |
| CompilerGate.StablePasses | backend/internal/planspec/planspec.go:249-296 | plans whose prepared scopes are stable pass |
| Misordered.AcceptedButRefused | backend/internal/planspec/planspec.go:249-296 | every accepted plan with tasks out of order becomes, with one scope that preparing turns into a rejected one, an accepted plan that does not pass |
| Misordered.ParsedButRefused | backend/internal/planspec/planspec.go:82-95 | every plan with tasks out of order that is accepted when parsed and when saved becomes, with the buried entry, one that is accepted both times and does not pass |
| Misordered.TwoTasksAccepted | backend/internal/planspec/planspec.go:107-202 | a concrete structured plan of two tasks, the first depending on the second, is accepted and a fixed point of preparing |
| Misordered.TwoTasksRefused | backend/internal/app/service.go:1183-1196 | with the buried entry it is parsed, accepted again and lowered when saved, and queueing it is refused |
| Restore.WorkTree.RemoveExtra | backend/internal/app/git_checkpoint.go:1114-1145 | succeeds exactly when the path is writable, no file stands above it and it is missing, a file or an empty directory; removes it and the parents a file empties, or changes nothing |
| Restore.WorkTree.RemoveExtras | backend/internal/app/git_checkpoint.go:1099-1145 | deepest paths first, succeeds exactly when every extra path is removable in the tree it starts from; says which directories it leaves behind empty |
| Restore.SoonerTotal | backend/internal/app/git_checkpoint.go:1107-1113 | the removal order is total on distinct paths |
| Restore.WritableExactly | backend/internal/security/paths.go:216-226 | a path is writable exactly when it names something below the root, has no NUL, no backslash and no drive letter |
| Restore.WorkTree.RemoveEmptyParents | backend/internal/app/git_checkpoint.go:1411-1420 | exactly the directories emptied by the removal disappear |
| Restore.WorkTree.EnsureParents | backend/internal/app/git_checkpoint.go:1302-1335 | creates missing parents, fails exactly when a file or link stands above |
| Restore.WorkTree.Replace | backend/internal/app/git_checkpoint.go:1337-1409 | replaces anything but a filled directory |
| Restore.Restorer.Preflight | backend/internal/app/git_checkpoint.go:998-1097 | accepts exactly when paths and modes are safe, blobs readable, no uncontrolled file stands above a target, nothing hides the target, submodules exist and directories to replace hold extra files only |
| Restore.Restorer.Apply | backend/internal/app/git_checkpoint.go:1099-1190 | never touches a file outside both trees; succeeds exactly when the tree is restorable, and then every target is a link to its blob's text or a file with it, executable exactly in mode 100755, and no extra path is a file |
| Restore.Restorer.Restore | backend/internal/app/git_checkpoint.go:906-945 | succeeds exactly when the preflight accepts and the tree is restorable; a refused preflight changes nothing; success restores the target |
| Restore.CaptureRestored | backend/internal/app/git_checkpoint.go:1099-1190 | restoring the listing taken from a tree brings exactly its files and links back, with content and mode |
| Restore.PreflightGap | backend/internal/app/git_checkpoint.go:998-1097 | what an accepted preflight leaves open: removable extra paths, no directory left in the way, writable paths and link targets |
| Restore.PreflightIsNotEnough | backend/internal/app/git_checkpoint.go:1080-1097 | a concrete tree the preflight accepts and the restore cannot finish, because of an empty directory |
| Restore.FilledSubmodule | backend/internal/app/git_checkpoint.go:1126-1139 | another one, a checked-out submodule that the target lacks |
| Restore.NestLeftBehind | backend/internal/app/git_checkpoint.go:1126-1145 | another one, a directory left behind by an empty submodule |
| Restore.BackslashRefused | backend/internal/security/paths.go:216-226 | another one, a name only writing refuses |
| Restore.TypeChangeRefused | backend/internal/app/git_checkpoint.go:1018-1021 | a restore from a file to a directory that would go through and that the preflight refuses |
| Restore.TypeChangeFits | backend/internal/app/git_checkpoint.go:1044-1078 | of such type changes the preflight accepts exactly those of a link beyond which it sees something fitting |
| Restore.PreflightRefuses | backend/internal/app/git_checkpoint.go:998-1042 | the preflight refuses a restorable tree exactly for an unsafe path or mode, a missing submodule, or a file or unfitting link above a target |
| Drift.FinishReport | backend/internal/app/workspace.go:553-583 | the report's severity is the gravest difference, and the agent is allowed below confirmation |
| Drift.Compare | backend/internal/app/workspace.go:360-392 | the report over all compared fields |
| Drift.GateIs | backend/internal/app/workspace.go:360-666 | field by field: when the report must block, when the agent may run without confirmation (the work tree is that of the baseline or of a checkpoint that was read), and when nothing differs |
| Drift.ReportLists | backend/internal/app/workspace.go:553-583 | the report lists every difference by field, gravity and reason; the fingerprint has those that block or need a confirmation |
| Drift.SortThenChoose | backend/internal/app/workspace.go:553-583 | the blocking part of a sorted report does not depend on the other differences |
| Drift.FingerprintStays | backend/internal/app/workspace.go:553-619 | the fingerprint ignores capture time and forward server versions |
| Drift.FingerprintTells | backend/internal/app/workspace.go:553-619 | contexts with one fingerprint agree in every field that matters and in every difference that blocks or needs a confirmation |
| ByteLines.ScanUnique | backend/internal/agent/agent.go:465-503 | splitting a stream at newlines is the only way to read it as lines |
| ByteLines.ScanSplits | backend/internal/agent/agent.go:465-503 | and it is such a reading: lines and tail hold no newline and make up the stream |
| CliParser.OutputParser.Write | backend/internal/agent/agent.go:465-503 | after any chunk the parser has read exactly the stream so far |
| CliParser.OutputParser.Finish | backend/internal/agent/agent.go:505-511 | the tail is handed over when it is not empty and not too long |
| CliParser.ParseChunks | backend/internal/agent/agent.go:465-521 | however the stream is cut, the parser hands over its lines less the oversized ones, and counts them |
| LogPages.ReadPage | backend/internal/httpapi/server.go:1252-1281 | a page is whole consecutive lines before the cursor, and a cursor is returned exactly when a full page leaves something |
| LogPages.PagesCover | backend/internal/httpapi/server.go:1252-1281 | unread start and pages together are the lines of the log, with one empty line wherever a page drops one, also while the log grows |
| LogPages.PagingIsComplete | backend/internal/httpapi/server.go:1252-1281 | following the cursors visits every non-empty line once, in file order, and all lines exactly when no page drops an empty one |
| LogPages.EmptyLineDropped | backend/internal/httpapi/server.go:1252-1281 | reading three lines one by one loses the empty one between them |
| LogPages.PagingEnds | backend/internal/httpapi/server.go:1264-1280 | cursors fall strictly, so paging ends |
| Decimal.DecimalString | backend/internal/repository/runs.go:836-893 | exact text without trailing zeros exactly for denominators of twos and fives |
| Decimal.FactorsDecide | backend/internal/repository/runs.go:838-860 | the two factor loops end with one exactly for such denominators |
| Decimal.AddExact | backend/internal/repository/runs.go:797-806 | adding is exact and keeps such denominators |
| Decimal.UsageAccumulator.Add | backend/internal/repository/runs.go:783-809 | counts a run and adds its amount to its currency only |
| Decimal.UsageAccumulator.Amount | backend/internal/repository/runs.go:811-824 | an amount shown exactly is the sum of the added amounts, and it is shown exactly when all of them were decimal numbers |
| GitZ.ParsePorcelain | backend/internal/app/workspace.go:683-711 | the index loop computes the parse of the NUL-separated fields |
| GitZ.PorcelainRoundTrip | backend/internal/app/workspace.go:683-711 | parsing a printed list of status records gives the list back |
| GitZ.StatusKept | backend/internal/app/workspace.go:683-711 | whatever is parsed is parsed without loss: the records print to the non-empty fields |
| GitZ.SafeLeadsBelow | backend/internal/app/workspace.go:890-896 | a path is safe exactly when it is relative and names something below its start |
| GitZ.ParseNameStatus | backend/internal/app/git_checkpoint.go:722-774 | the index loop computes the parse of the NUL-separated fields |
| GitZ.NameStatusRoundTrip | backend/internal/app/git_checkpoint.go:722-774 | parsing a printed list of changes gives the list back, renames and copies included |

## Left out

- SQL, connections, notifications and isolation: each transaction is one atomic step, and `now()` is a clock that only moves forward.
- DeletePlan, UpdatePlanExecutionSnapshot, the exported TransitionLifecycle, and rows not created by saveGeneratedPlan: they bypass the scheduling gates.
- Intakes, events, audit rows, sessions and agent runs: the last appear only as evidence of the recovery step; `cancelling` rows, which no modelled step writes, are handled but never reached.
- Stores.Store.SetAutomation: does not queue the generation jobs of pending intakes in the same transaction; they are separate QueueGeneration steps.
- Stores.Store.SaveGeneratedPlan: takes the stored rows as a parameter; `CompilerGate` connects them to the compiler for structured plans.
- Stores.Store.QueuePlanTx: provider selection, configuration snapshots and execution snapshots are not modelled; a plan has its baseline or not.
- Stores.Store.QueueTask: the same.
- Stores.Store.FailJob: does not update the intake of a failed generation job, because intakes are not modelled; it counts failed executions in a history variable that the source does not store; the caller's snapshot has the row's maximum, which no transaction changes.
- Stores.Store.ReconcileRuntimeState: candidates whose evidence is inconclusive are left out of its list; leases and stand-alone runs are not modelled.
- Stores.Store.ReconcileInstanceShutdown: workers are matched by instance exactly, not by a LIKE pattern, and agent runs are not modelled.
- Error values other than the reason of a refusal; scheduling blockers are reduced to "blocked".
- WorkerPool.MoveKeeps: the pool is a state machine on values rather than a class, because its point is the interleaving of many workers; heartbeats and lease renewal are not modelled.
- JobHolders.OnlyHolderChanges: covers the transactions on the job; those on tasks name no worker, in the source as here, and are steps of their own.
- WorkerPool.RetryPairing: the two transactions follow each other without another step between them, and an error always carries text.
- Effects.FinishedRows: plans at work only, and without automation after a success; `Effects.FinishedPlan` has every plan.
- Effects.HolderMoves: an attempt to give back is presupposed, as every job in flight has one (`Histories.AttemptsConserved`).
- The JSON text layer and the Unicode tables: raw records with optional fields, and any table of letters and digits with an idempotent upper-case map.
- Aliasing of slices: preparing a plan rewrites dependency and criteria slices of its caller; the draft holds values.
- Paths.CleanIdempotent: paths use `/` as separator, as on Unix.
- Validation.Draft.Validate: says which problem codes are reported, not their order, locations and messages.
- Decimal.DecimalString: the rounded branch for other denominators is returned as None.
- Decimal.UsageAccumulator.Add: takes the parsed amount and currency; token totals are not modelled, because they are plain sums.
- CompilerGate.CompilerMeetsGate: structured plans only; the compatibility branch does not check that the final key is fresh, and the gate does not look at the graph.
- Restore.WorkTree.RemoveExtra: an extra path below a symbolic link counts as blocked, while the code follows links that stay inside the root, and one recorded as a submodule but found to be a link counts as not removable; paths that are not clean and failing system calls are not modelled.
- Restore.Restorer.Preflight: what is seen beyond a link above a target is a parameter; a file above a target makes inspection fail, as on Unix.
- Restore.Restorer.Apply: the order in which targets are written is arbitrary, because the condition for success does not depend on it.
- Restore.Restorer.Restore: the index, HEAD and the fingerprint comparisons are not modelled.
- Drift.Compare: reason texts are shortened, values are compared instead of their printed form, and the fingerprint is what is hashed rather than the hash.
- Rendering, HTTP and MCP handlers, configuration, prompts, the desktop shell and the frontend: outside this model.
