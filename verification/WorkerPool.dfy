/** Every interleaving of the workers of all backend instances with each other, with the
    drain switch of their pool, and with the transactions of users and recovery. */
module WorkerPool {
  import opened Lifecycle
  import opened Schedule
  import opened Protocol
  import opened Invariants
  import Effects

  /** Where a worker stands in its loop. `Locked` holds the pool's read lock from the draining
      check through the move to running; `Working` carries the row that move returned. */
  datatype Position =
    | Idle
    | Checked
    | Claimed(job: JobId)
    | Locked(job: JobId)
    | Releasing(job: JobId)
    | Working(job: JobId, snapshot: Job)
    | Stopped

  datatype System = System(db: Db, workers: map<Worker, Position>, draining: set<string>)

  datatype Resolution =
    | Completed
    | Drifted
    | Busy(delay: nat)
    | CancelledRun
    | FailedRun(retryable: bool, blank: bool)

  datatype Move =
    | CheckDraining(worker: Worker)
    | ClaimJob(worker: Worker, job: JobId)
    | TakeLock(worker: Worker)
    | MarkRunning(worker: Worker)
    | ReleaseLease(worker: Worker)
    | Resolve(worker: Worker, resolution: Resolution)
    | Lose(worker: Worker)
    | BeginDraining(instance: string)
    | Elsewhere(step: Step)

  function ResolutionStep(w: Worker, j: JobId, snapshot: Job, r: Resolution): Step {
    match r
    case Completed => Step.Complete(j, w)
    case Drifted => Step.BlockForDrift(j, w)
    case Busy(delay) => Step.Defer(j, w, delay)
    case CancelledRun => Step.CancelJob(j, w)
    case FailedRun(retryable, blank) => Step.Fail(j, snapshot.attempt, w, retryable, blank)
  }

  /** The transaction a move runs, if it runs one. */
  function StepOf(s: System, m: Move): Option<Step>
    requires Possible(s, m)
  {
    match m
    case ClaimJob(w, j) => Some(Step.Claim(j, w))
    case MarkRunning(w) => Some(Step.MarkRunning(s.workers[w].job, w))
    case ReleaseLease(w) => Some(Step.Release(s.workers[w].job, w))
    case Resolve(w, r) => Some(ResolutionStep(w, s.workers[w].job, s.workers[w].snapshot, r))
    case Elsewhere(step) => Some(step)
    case _ => None
  }

  /** The transactions that no worker position guards. */
  predicate Free(step: Step) {
    !(step.Claim? || step.MarkRunning? || step.Release? || step.Complete? || step.BlockForDrift?
      || step.Defer? || step.CancelJob? || step.Fail?)
  }

  predicate At(s: System, w: Worker, p: Position) {
    w in s.workers && s.workers[w] == p
  }

  predicate Possible(s: System, m: Move) {
    match m
    case CheckDraining(w) => At(s, w, Idle)
    case ClaimJob(w, _) => At(s, w, Checked)
    case TakeLock(w) => w in s.workers && s.workers[w].Claimed?
    case MarkRunning(w) => w in s.workers && s.workers[w].Locked?
    case ReleaseLease(w) => w in s.workers && s.workers[w].Releasing?
    case Resolve(w, _) => w in s.workers && s.workers[w].Working?
    case Lose(w) => w in s.workers && !s.workers[w].Stopped?
    case BeginDraining(instance) => forall w | w in s.workers && w.instance == instance :: !s.workers[w].Locked?
    case Elsewhere(step) => Free(step) && (step.SetAutomation? && step.enabled ==> ReadyOrder(s.db, step.project, step.order))
  }

  function NextPosition(s: System, m: Move, db': Db): Position
    requires Possible(s, m) && !m.BeginDraining? && !m.Elsewhere?
  {
    match m
    case CheckDraining(w) => if w.instance in s.draining then Stopped else Checked
    case ClaimJob(w, j) => if Claimable(s.db, j, db'.clock) then Claimed(j) else Idle
    case TakeLock(w) =>
      if w.instance in s.draining then Releasing(s.workers[w].job) else Locked(s.workers[w].job)
    case MarkRunning(w) =>
      var j := s.workers[w].job;
      if DoMarkRunning(s.db, j, w).Committed? && j < |db'.jobs| then Working(j, db'.jobs[j]) else Idle
    case ReleaseLease(w) => Stopped
    case Resolve(w, _) => Idle
    case Lose(w) => Idle
  }

  function NextSystem(s: System, m: Move, now: nat): System
    requires Possible(s, m)
  {
    var step := StepOf(s, m);
    var db' := if step.Some? then Next(s.db, step.value, now) else s.db;
    match m
    case BeginDraining(instance) => s.(draining := s.draining + {instance})
    case Elsewhere(_) => s.(db := db')
    case _ => s.(db := db', workers := s.workers[m.worker := NextPosition(s, m, db')])
  }

  // ---- the invariant -------------------------------------------------------------

  /** A worker that executes a job it still holds knows the attempt it is on. */
  predicate SnapshotOk(db: Db, w: Worker, p: Position) {
    p.Working? ==>
      && p.job < |db.jobs|
      && p.snapshot.maxAttempts == db.jobs[p.job].maxAttempts
      && (InFlight(db.jobs[p.job].status) && HeldBy(db.jobs[p.job], w) ==> p.snapshot.attempt == db.jobs[p.job].attempt)
  }

  predicate SystemInv(s: System) {
    && Inv(s.db)
    && (forall w | w in s.workers :: SnapshotOk(s.db, w, s.workers[w]))
    && (forall w | w in s.workers && w.instance in s.draining :: !s.workers[w].Locked?)
  }

  predicate Start(s: System) {
    Init(s.db) && s.draining == {} && forall w | w in s.workers :: s.workers[w] == Idle
  }

  /** Outside a claim no job enters flight or changes hands or attempt in flight, and only its
      holder's MarkRunning moves a leased job to running. */
  predicate FlightKept(a: Job, b: Job, s: Step, j: JobId) {
    && b.maxAttempts == a.maxAttempts
    && (InFlight(b.status) ==>
          && InFlight(a.status) && b.attempt == a.attempt && b.worker == a.worker
          && (a.status == Leased && b.status == Running ==> s.MarkRunning? && s.job == j && HeldBy(a, s.worker)))
  }

  predicate AllFlightKept(db: Db, db': Db, s: Step) {
    |db.jobs| <= |db'.jobs| && forall k | 0 <= k < |db.jobs| :: FlightKept(db.jobs[k], db'.jobs[k], s, k)
  }

  // ---- what the transactions do to jobs in flight -----------------------------------

  predicate JobsGrow(js: seq<Job>, ks: seq<Job>) {
    |js| <= |ks| && forall k | 0 <= k < |js| :: ks[k] == js[k]
  }

  lemma QueueingGrows(db: Db, s: Step, now: nat)
    requires Do(db, s, now).Committed?
    requires s.SavePlan? || s.QueuePlan? || s.QueuePlanAutomatically? || s.QueueTask? || s.QueueGeneration?
      || s.StartTask? || s.FinishTask? || s.ReturnPending? || s.ReturnQueued?
    ensures JobsGrow(db.jobs, Do(db, s, now).db.jobs)
  {
    hide NextTask, GateOk, FinishPlan, StartPlan, MoveTask, StoredTasks, TaskJob, NewJob,
      DoStopTask, DoStopPlan, DoBlockForDrift, DoSetAutomation, DoShutdown, DoRecover, DoClaim, DoFail;
  }

  lemma OwnStepKeepsFlight(db: Db, s: Step, now: nat)
    requires Do(db, s, now).Committed?
    requires s.MarkRunning? || s.Defer? || s.Release? || s.Complete? || s.Fail? || s.CancelJob? || s.BlockForDrift?
    ensures AllFlightKept(db, Do(db, s, now).db, s)
  {
    hide DriftPlan, DoSavePlan, DoQueuePlanTx, DoQueuePlanAutomatically, DoQueueTask, DoQueueGeneration, DoStartTask,
      DoFinishTask, DoReturnPending, DoReturnQueued, DoStopTask, DoStopPlan, DoSetAutomation, DoShutdown, DoRecover, DoClaim;
  }

  lemma StopKeepsFlight(db: Db, s: Step, now: nat)
    requires Do(db, s, now).Committed?
    requires s.StopTask? || s.StopPlan? || s.Shutdown? || s.Recover?
    ensures AllFlightKept(db, Do(db, s, now).db, s)
  {
    hide RecoverPlan, ShutdownPlan, ShutdownRefused, CandidateActive, CancellationIntent, MoveTask,
      DoSavePlan, DoQueuePlanTx, DoQueuePlanAutomatically, DoQueueTask, DoQueueGeneration, DoStartTask, DoFinishTask,
      DoReturnPending, DoReturnQueued, DoBlockForDrift, DoSetAutomation, DoClaim, DoFail;
  }

  lemma AutomationKeepsFlight(db: Db, s: Step, now: nat)
    requires RowsOk(db, now) && Legal(db, s, now) && Do(db, s, now).Committed? && s.SetAutomation?
    ensures AllFlightKept(db, Do(db, s, now).db, s)
  {
    hide RowsOk, DoQueueAll, PlansInv, FreshJob, Evolves;
    if s.enabled {
      var db1 := db.(projects := db.projects[s.project := db.projects[s.project].(automation := true, version := s.version + 1)]);
      assert RowsOk(db1, now) by { SameRowsOk(db, db1, now); }
      QueueAllKeeps(db1, s.order, Do(db, s, now).db, now);
    }
  }

  lemma SameRowsOk(db: Db, db1: Db, now: nat)
    requires RowsOk(db, now) && db1.plans == db.plans && db1.jobs == db.jobs
    ensures RowsOk(db1, now)
  {
  }

  lemma StepKeepsFlight(db: Db, s: Step, now: nat)
    requires Inv(db) && Legal(db, s, now) && !s.Claim?
    ensures AllFlightKept(db, Next(db, s, now), s)
  {
    hide Inv, RowsOk, Legal, AllFlightKept, FlightKept, Do, JobsGrow;
    if Do(db, s, now).Committed? {
      var db1 := Do(db, s, now).db;
      if s.SetAutomation? {
        RowsOkLater(db, s, now);
        AutomationKeepsFlight(db, s, now);
      } else if s.StopTask? || s.StopPlan? || s.Shutdown? || s.Recover? {
        StopKeepsFlight(db, s, now);
      } else if s.MarkRunning? || s.Defer? || s.Release? || s.Complete? || s.Fail? || s.CancelJob? || s.BlockForDrift? {
        OwnStepKeepsFlight(db, s, now);
      } else {
        QueueingGrows(db, s, now);
        GrowthKeepsFlight(db, db1, s);
      }
      SameJobsKept(db, db1, Next(db, s, now), s);
    } else {
      GrowthKeepsFlight(db, Next(db, s, now), s) by { SameJobsGrow(db, Next(db, s, now)); }
    }
  }

  lemma RowsOkLater(db: Db, s: Step, now: nat)
    requires Inv(db) && Legal(db, s, now)
    ensures RowsOk(db, now)
  {
  }

  lemma SameJobsGrow(db: Db, db': Db)
    requires db'.jobs == db.jobs
    ensures JobsGrow(db.jobs, db'.jobs)
  {
  }

  lemma SameJobsKept(db: Db, db1: Db, db2: Db, s: Step)
    requires AllFlightKept(db, db1, s) && db2.jobs == db1.jobs
    ensures AllFlightKept(db, db2, s)
  {
  }

  lemma GrowthKeepsFlight(db: Db, db': Db, s: Step)
    requires JobsGrow(db.jobs, db'.jobs)
    ensures AllFlightKept(db, db', s)
  {
  }

  // ---- every move keeps the invariant ---------------------------------------------------

  /** A move that runs a transaction runs a step of the protocol that the environment allows. */
  lemma MoveIsLegal(s: System, m: Move, now: nat)
    requires SystemInv(s) && Possible(s, m) && now > s.db.clock && StepOf(s, m).Some?
    ensures Legal(s.db, StepOf(s, m).value, now)
  {
  }

  lemma SnapshotStays(db: Db, db': Db, s: Step, w: Worker, p: Position)
    requires SnapshotOk(db, w, p) && AllFlightKept(db, db', s)
    ensures SnapshotOk(db', w, p)
  {
  }

  lemma SnapshotAfterClaim(db: Db, j: JobId, other: Worker, w: Worker, p: Position, now: nat)
    requires SnapshotOk(db, w, p) && other != w
    ensures SnapshotOk(Next(db, Step.Claim(j, other), now), w, p)
  {
    hide IsOwner, ProjectIdle;
  }

  /** Every position other than the moving worker's still fits the rows after a move. */
  lemma SnapshotsStay(s: System, m: Move, now: nat, w: Worker)
    requires SystemInv(s) && Possible(s, m) && now > s.db.clock && StepOf(s, m).Some? && w in s.workers
    requires m.Elsewhere? || m.BeginDraining? || w != m.worker
    ensures SnapshotOk(Next(s.db, StepOf(s, m).value, now), w, s.workers[w])
  {
    hide Inv, Legal, Next, AllFlightKept, SnapshotOk;
    var step := StepOf(s, m).value;
    MoveIsLegal(s, m, now);
    if m.ClaimJob? {
      SnapshotAfterClaim(s.db, m.job, m.worker, w, s.workers[w], now);
    } else {
      StepKeepsFlight(s.db, step, now);
      SnapshotStays(s.db, Next(s.db, step, now), step, w, s.workers[w]);
    }
  }

  /** Every move keeps the invariant of the protocol, the snapshots and the drained pools. */
  lemma MoveKeeps(s: System, m: Move, now: nat)
    requires SystemInv(s) && Possible(s, m) && now > s.db.clock
    ensures SystemInv(NextSystem(s, m, now))
  {
    hide Inv, Legal, Next, SnapshotOk, Do;
    var s' := NextSystem(s, m, now);
    if StepOf(s, m).Some? {
      MoveIsLegal(s, m, now);
      NextKeeps(s.db, StepOf(s, m).value, now);
    }
    forall w | w in s'.workers ensures SnapshotOk(s'.db, w, s'.workers[w]) {
      if m.Elsewhere? || m.BeginDraining? || w != m.worker {
        if StepOf(s, m).Some? {
          SnapshotsStay(s, m, now, w);
        }
      } else {
        NewSnapshot(s, m, now);
      }
    }
  }

  lemma NewSnapshot(s: System, m: Move, now: nat)
    requires Possible(s, m) && !m.Elsewhere? && !m.BeginDraining?
    ensures SnapshotOk(NextSystem(s, m, now).db, m.worker, NextSystem(s, m, now).workers[m.worker])
  {
    hide Next;
  }

  // ---- runs of the system ------------------------------------------------------------------

  datatype Occurrence = Occurrence(move: Move, now: nat)

  predicate Moves(s: System, o: Occurrence, s': System) {
    Possible(s, o.move) && o.now > s.db.clock && s' == NextSystem(s, o.move, o.now)
  }

  predicate MovesAt(states: seq<System>, os: seq<Occurrence>, i: nat)
    requires i < |os| < |states|
  {
    Moves(states[i], os[i], states[i + 1])
  }

  predicate IsSystemRun(states: seq<System>, os: seq<Occurrence>) {
    |states| == |os| + 1 && Start(states[0]) && forall i | 0 <= i < |os| :: MovesAt(states, os, i)
  }

  lemma StartKeeps(s: System)
    requires Start(s)
    ensures SystemInv(s)
  {
  }

  lemma {:induction false} SystemRunKeeps(states: seq<System>, os: seq<Occurrence>, n: nat)
    requires IsSystemRun(states, os) && n <= |os|
    ensures SystemInv(states[n])
  {
    hide SystemInv, NextSystem, Possible;
    if n == 0 {
      StartKeeps(states[0]);
    } else {
      SystemRunKeeps(states, os, n - 1);
      assert MovesAt(states, os, n - 1);
      MoveKeeps(states[n - 1], os[n - 1].move, os[n - 1].now);
    }
  }

  /** In every interleaving at most one task job per project is leased or running. */
  lemma OneClaimPerProject(states: seq<System>, os: seq<Occurrence>, n: nat)
    requires IsSystemRun(states, os) && n <= |os|
    ensures OneInFlight(states[n].db.jobs)
  {
    hide MovesAt;
    SystemRunKeeps(states, os, n);
  }

  /** Job j went from leased to running. */
  predicate Began(db: Db, db': Db, j: JobId) {
    j < |db.jobs| && j < |db'.jobs| && db.jobs[j].status == Leased && db'.jobs[j].status == Running
  }

  lemma OnlyLockedWorkersBegin(s: System, m: Move, now: nat, j: JobId)
    requires SystemInv(s) && Possible(s, m) && now > s.db.clock
    requires Began(s.db, NextSystem(s, m, now).db, j)
    ensures m.MarkRunning? && s.workers[m.worker] == Locked(j) && s.db.jobs[j].worker == Some(m.worker)
    ensures m.worker.instance !in s.draining
  {
    hide Inv, Legal, Next, FlightKept;
    var step := StepOf(s, m);
    assert step.Some?;
    MoveIsLegal(s, m, now);
    if m.ClaimJob? {
      ClaimBeginsNothing(s.db, m.job, m.worker, now, j);
    } else {
      StepKeepsFlight(s.db, step.value, now);
      MarkedByHolder(s.db, Next(s.db, step.value, now), step.value, j);
    }
  }

  lemma ClaimBeginsNothing(db: Db, c: JobId, w: Worker, now: nat, j: JobId)
    ensures !Began(db, Next(db, Step.Claim(c, w), now), j)
  {
  }

  lemma MarkedByHolder(db: Db, db': Db, s: Step, j: JobId)
    requires AllFlightKept(db, db', s) && Began(db, db', j)
    ensures s.MarkRunning? && s.job == j && HeldBy(db.jobs[j], s.worker)
  {
  }

  lemma {:induction false} DrainingStays(states: seq<System>, os: seq<Occurrence>, a: nat, b: nat, instance: string)
    requires IsSystemRun(states, os) && a <= b <= |os| && instance in states[a].draining
    ensures instance in states[b].draining
    decreases b
  {
    hide Next, Possible;
    if a == b {
    } else {
      DrainingStays(states, os, a, b - 1, instance);
      assert MovesAt(states, os, b - 1);
    }
  }

  /** Once BeginDraining has returned, no job held by a worker of that pool goes from leased to
      running, and no worker of the pool makes any such move. */
  lemma DrainedPoolBeginsNothing(states: seq<System>, os: seq<Occurrence>, a: nat, n: nat, instance: string, j: JobId)
    requires IsSystemRun(states, os) && a <= n < |os| && instance in states[a].draining
    requires Began(states[n].db, states[n + 1].db, j)
    ensures os[n].move.MarkRunning? && os[n].move.worker.instance != instance
    ensures states[n].db.jobs[j].worker == Some(os[n].move.worker)
  {
    hide Next, Possible, SystemInv;
    SystemRunKeeps(states, os, n);
    DrainingStays(states, os, a, n, instance);
    assert MovesAt(states, os, n);
    OnlyLockedWorkersBegin(states[n], os[n].move, os[n].now, j);
  }

  // ---- the retry decision of a run and of its job ------------------------------------------------

  /** How a CLI run ended. `marked` tells whether the runner's own error already is a
      retryable one. */
  datatype RunResult = RunResult(cancelled: bool, timedOut: bool, exitCode: int, marked: bool)

  /** classifyRunError followed by IsRetryable. */
  predicate ClassifiedRetryable(r: RunResult) {
    r.marked || !(r.cancelled || r.timedOut || r.exitCode == 126 || r.exitCode == 127)
  }

  predicate ErrorRetryable(r: RunResult, validation: bool) {
    if validation then r.marked else ClassifiedRetryable(r)
  }

  /** The task transaction executeTask runs for an unsuccessful run of the job it was given: a
      cancelled run puts the task back to pending, any other keeps it queued for another attempt
      or finishes it as failed. */
  function TaskAfterRun(db: Db, pid: PlanId, i: nat, snapshot: Job, r: RunResult, validation: bool, now: nat): Outcome {
    if r.cancelled then DoReturnPending(db, pid, i, false)
    else if ErrorRetryable(r, validation) && snapshot.attempt < snapshot.maxAttempts then DoReturnQueued(db, pid, i, false)
    else DoFinishTask(db, pid, i, false, false, now)
  }

  /** The job transaction its worker runs then. */
  function JobAfterRun(db: Db, j: JobId, w: Worker, snapshot: Job, r: RunResult, validation: bool, now: nat): Outcome {
    if r.cancelled then DoCancelJob(db, j, w)
    else DoFail(db, j, snapshot.attempt, w, ErrorRetryable(r, validation), false, now)
  }

  /** The rows after an unsuccessful run: first the task, then the job. */
  function AfterRun(db: Db, j: JobId, w: Worker, pid: PlanId, i: nat, snapshot: Job, r: RunResult, validation: bool,
                    t1: nat, t2: nat): Db
  {
    var db1 := After(db, TaskAfterRun(db, pid, i, snapshot, r, validation, t1), t1);
    After(db1, JobAfterRun(db1, j, w, snapshot, r, validation, t2), t2)
  }

  /** The runner said so, or the CLI failed in a way that another attempt may mend: not cancelled, not
      timed out, not missing and not forbidden. */
  predicate MayRepeat(r: RunResult, validation: bool) {
    r.marked || (!validation && !r.cancelled && !r.timedOut && r.exitCode != 126 && r.exitCode != 127)
  }

  /** A cancelled run leaves its job cancelled and its task pending; otherwise the task waits in
      the queue exactly when its job waits for a retry, or both failed and the plan is blocked. */
  predicate Paired(db: Db, db': Db, j: JobId, pid: PlanId, i: nat, r: RunResult, validation: bool, t2: nat)
    requires j < |db.jobs| && TaskExists(db, pid, i)
  {
    && j < |db'.jobs| && TaskExists(db', pid, i)
    && var job, task, plan := db'.jobs[j], db'.plans[pid].tasks[i], db'.plans[pid];
    && if r.cancelled then
         job.status == Cancelled && task.status == Pending && plan.status == db.plans[pid].status
       else if MayRepeat(r, validation) && db.jobs[j].attempt < db.jobs[j].maxAttempts then
         && job.status == RetryWait && Effects.Waits(db.jobs[j].attempt, job.runAfter - t2)
         && task.status == Queued && plan.status == db.plans[pid].status
       else
         job.status == Failed && task.status == Failed && plan.status == Blocked
  }

  lemma TaskFailed(db: Db, pid: PlanId, i: nat, now: nat)
    requires TaskExists(db, pid, i) && db.plans[pid].tasks[i].status == Running
    requires Protocol.Executing(db.plans[pid].status) && db.plans[pid].project in db.projects
    ensures var o := DoFinishTask(db, pid, i, false, false, now);
      && o.Committed? && o.db.jobs == db.jobs && TaskExists(o.db, pid, i)
      && o.db.plans[pid].tasks[i].status == Failed && o.db.plans[pid].status == Blocked
  {
    hide NextTask, GateOk, ContinuedFrom, BuildResults;
  }

  lemma TaskReturned(db: Db, pid: PlanId, i: nat)
    requires TaskExists(db, pid, i) && db.plans[pid].tasks[i].status == Running
    ensures forall o | o == DoReturnPending(db, pid, i, false) || o == DoReturnQueued(db, pid, i, false) ::
      && o.Committed? && o.db.jobs == db.jobs && TaskExists(o.db, pid, i)
      && o.db.plans[pid].status == db.plans[pid].status
    ensures DoReturnPending(db, pid, i, false).db.plans[pid].tasks[i].status == Pending
    ensures DoReturnQueued(db, pid, i, false).db.plans[pid].tasks[i].status == Queued
  {
  }

  lemma TaskRowAfterRun(db: Db, pid: PlanId, i: nat, snapshot: Job, r: RunResult, validation: bool, now: nat)
    requires TaskExists(db, pid, i) && db.plans[pid].tasks[i].status == Running
    requires Protocol.Executing(db.plans[pid].status) && db.plans[pid].project in db.projects
    ensures var o := TaskAfterRun(db, pid, i, snapshot, r, validation, now);
      && o.Committed? && o.db.jobs == db.jobs && TaskExists(o.db, pid, i)
      && (if r.cancelled
          then o.db.plans[pid].tasks[i].status == Pending && o.db.plans[pid].status == db.plans[pid].status
          else if ErrorRetryable(r, validation) && snapshot.attempt < snapshot.maxAttempts
          then o.db.plans[pid].tasks[i].status == Queued && o.db.plans[pid].status == db.plans[pid].status
          else o.db.plans[pid].tasks[i].status == Failed && o.db.plans[pid].status == Blocked)
  {
    hide DoReturnPending, DoReturnQueued, DoFinishTask, ErrorRetryable;
    TaskFailed(db, pid, i, now);
    TaskReturned(db, pid, i);
  }

  lemma CancelledRow(db: Db, j: JobId, w: Worker)
    requires j < |db.jobs| && db.jobs[j].status == Running && HeldBy(db.jobs[j], w)
    ensures var o := DoCancelJob(db, j, w);
      o.Committed? && o.db.plans == db.plans && j < |o.db.jobs| && o.db.jobs[j].status == Cancelled
  {
  }

  lemma RetryPairing(db: Db, j: JobId, w: Worker, pid: PlanId, i: nat, r: RunResult, validation: bool, t1: nat, t2: nat)
    requires j < |db.jobs| && OfTask(db.jobs[j], pid, i)
    requires db.jobs[j].status == Running && HeldBy(db.jobs[j], w)
    requires TaskExists(db, pid, i) && db.plans[pid].tasks[i].status == Running
    requires Protocol.Executing(db.plans[pid].status) && db.plans[pid].project in db.projects
    ensures Paired(db, AfterRun(db, j, w, pid, i, db.jobs[j], r, validation, t1, t2), j, pid, i, r, validation, t2)
  {
    hide TaskAfterRun, DoFail, DoCancelJob, Effects.Waits;
    TaskRowAfterRun(db, pid, i, db.jobs[j], r, validation, t1);
    var db1 := After(db, TaskAfterRun(db, pid, i, db.jobs[j], r, validation, t1), t1);
    Effects.FailedRow(db1, j, db.jobs[j].attempt, w, MayRepeat(r, validation), t2);
    CancelledRow(db1, j, w);
  }
}
