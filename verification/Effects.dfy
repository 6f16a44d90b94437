/** The rows the transactions leave, column by column. */
module Effects {
  import opened Lifecycle
  import Text
  import opened Schedule
  import opened Protocol
  import opened Invariants

  /** Row j is the only one that changed. */
  predicate OnlyJob(db: Db, o: Outcome, j: JobId, row: Job)
    requires j < |db.jobs|
  {
    o == Committed(db.(jobs := db.jobs[j := row]))
  }

  /** A plan that executes. */
  predicate AtWork(p: Plan) { p.status == Running || p.status == Validating }

  /** A job that waits or is leased. */
  predicate NotBegun(j: Job) { j.status == Queued || j.status == RetryWait || j.status == Leased }

  /** The plan in another status, with these tasks. */
  function InStatus(p: Plan, status: Status, tasks: seq<Task>): Plan {
    p.(status := status, version := p.version + 1, tasks := tasks)
  }

  // ---- claiming --------------------------------------------------------------------

  /** Plan p, of id pid, takes its turn before plan q: it started earlier, or both started at the
      same time or neither did and it is older. A plan without a start comes last. */
  predicate Ahead(p: Plan, pid: PlanId, q: Plan, qid: PlanId) {
    || (p.startedAt.Some? && q.startedAt.None?)
    || (p.startedAt.Some? && q.startedAt.Some? && p.startedAt.value < q.startedAt.value)
    || (p.startedAt == q.startedAt && p.createdAt < q.createdAt)
    || (p.startedAt == q.startedAt && p.createdAt == q.createdAt && pid < qid)
  }

  /** An executable plan of the project that runs or validates and has a task to do. */
  predicate AtTurn(p: Plan, project: ProjectId) {
    && p.project == project && AtWork(p) && p.executable
    && exists i | 0 <= i < |p.tasks| :: p.tasks[i].status != Succeeded
  }

  /** The task job's plan is first in line, and no other task job of the project is leased or running. */
  predicate TaskMayRun(db: Db, job: Job)
    requires job.kind.TaskExecution?
  {
    var pid := job.kind.plan;
    && pid in db.plans && job.kind.index < |db.plans[pid].tasks| && AtTurn(db.plans[pid], job.project)
    && (forall q | q in db.plans && q != pid && AtTurn(db.plans[q], job.project) ::
          Ahead(db.plans[pid], pid, db.plans[q], q))
    && (forall k | 0 <= k < |db.jobs| :: db.jobs[k].project == job.project && db.jobs[k].kind.TaskExecution? ==>
          db.jobs[k].status != Leased && db.jobs[k].status != Running)
  }

  /** A claim commits exactly for a waiting job that is due, in a project under automation, whose plan
      has the turn; the worker gets the row with one more attempt. */
  lemma ClaimedRow(db: Db, j: JobId, w: Worker, now: nat)
    requires j < |db.jobs|
    ensures var job, o := db.jobs[j], DoClaim(db, j, w, now);
      && (o.Committed? <==>
            && (job.status == Queued || job.status == RetryWait) && job.runAfter <= now
            && job.project in db.projects && db.projects[job.project].automation
            && (job.kind.TaskExecution? ==> TaskMayRun(db, job)))
      && (o.Committed? ==>
            OnlyJob(db, o, j, job.(status := Leased, version := job.version + 1, worker := Some(w),
                                   attempt := job.attempt + 1)))
  {
  }

  // ---- what a worker does with its job -----------------------------------------------

  /** The job in the queue again, with its attempt given back. */
  function GivenBack(job: Job, runAfter: nat): Job
    requires job.attempt > 0
  {
    job.(status := Queued, version := job.version + 1, worker := None, runAfter := runAfter, attempt := job.attempt - 1)
  }

  lemma HolderMoves(db: Db, j: JobId, w: Worker, delay: nat, now: nat)
    requires j < |db.jobs| && db.jobs[j].worker == Some(w) && db.jobs[j].attempt > 0
    requires db.jobs[j].status == Leased || db.jobs[j].status == Running
    ensures var job := db.jobs[j]; var next := job.(version := job.version + 1);
      && OnlyJob(db, DoDefer(db, j, w, delay, now), j, GivenBack(job, now + delay))
      && OnlyJob(db, DoCancelJob(db, j, w), j, next.(status := Cancelled))
      && OnlyJob(db, DoMarkRunning(db, j, w), j, if job.status == Leased then next.(status := Running) else job)
      && (job.status == Leased ==>
            OnlyJob(db, DoRelease(db, j, w, now), j, GivenBack(job, now)) && DoComplete(db, j, w) == Rejected)
      && (job.status == Running ==>
            OnlyJob(db, DoComplete(db, j, w), j, next.(status := Succeeded)) && DoRelease(db, j, w, now) == Rejected)
  {
  }

  /** The seconds before an attempt is repeated. */
  predicate Waits(attempt: nat, seconds: int) {
    && (attempt == 0 ==> seconds == 1)
    && (1 <= attempt <= 6 ==> seconds == [2, 4, 8, 16, 32, 64][attempt - 1])
    && (attempt > 6 ==> seconds == 64)
  }

  /** A failed job waits twice as long after each attempt up to the sixth while it may be repeated, and
      is failed at once otherwise. */
  lemma FailedRow(db: Db, j: JobId, attempt: nat, w: Worker, retryable: bool, now: nat)
    requires j < |db.jobs| && db.jobs[j].worker == Some(w)
    requires db.jobs[j].status == Leased || db.jobs[j].status == Running
    ensures var job, o := db.jobs[j], DoFail(db, j, attempt, w, retryable, false, now);
      && o.Committed? && j < |o.db.jobs|
      && var row := o.db.jobs[j];
      && OnlyJob(db, o, j, job.(status := row.status, version := job.version + 1, runAfter := row.runAfter,
                                failures := job.failures + 1))
      && if retryable && attempt < job.maxAttempts then row.status == RetryWait && Waits(attempt, row.runAfter - now)
         else row.status == Failed && row.runAfter == now
  {
    assert PowerOfTwo(6) == 64 && PowerOfTwo(5) == 32 && PowerOfTwo(4) == 16 && PowerOfTwo(3) == 8;
    assert RetryDelay(attempt) == PowerOfTwo(if attempt < 6 then attempt else 6);
  }

  // ---- lost jobs ------------------------------------------------------------------------

  predicate UnderRecovery(job: Job) { job.status == Leased || job.status == Running || job.status == Cancelling }

  /** Recovery leaves a job alone exactly when its process is known to live or, for each kind of
      evidence there is, the leases and heartbeats that count are all valid. */
  lemma TakenForLost(db: Db, j: JobId, run: Option<RunState>, e: Evidence, now: nat)
    requires j < |db.jobs| && UnderRecovery(db.jobs[j])
    ensures e.processKnown && e.processAlive ==> DoRecover(db, j, run, e, now) == Committed(db)
    ensures !(e.processKnown && e.processAlive) && run.None? && e.ownerKnown ==>
      (DoRecover(db, j, run, e, now) == Committed(db) <==> e.ownerFresh && e.jobLeaseValid)
    ensures !(e.processKnown && e.processAlive) && run.None? && !e.ownerKnown ==>
      (DoRecover(db, j, run, e, now) == Committed(db) <==> e.jobLeaseValid)
    ensures !(e.processKnown && e.processAlive) && run.Some? && e.ownerKnown ==>
      (DoRecover(db, j, run, e, now) == Committed(db) <==> e.ownerFresh && e.heartbeatFresh)
    ensures !(e.processKnown && e.processAlive) && run.Some? && !e.ownerKnown ==>
      (DoRecover(db, j, run, e, now) == Committed(db) <==>
        e.jobLeaseValid && e.workspaceLeaseValid && e.workspaceLockOwned && e.heartbeatFresh)
  {
    hide RecoverPlan, CancellationIntent;
  }

  /** The task of a job, when there is one. */
  predicate HasTask(db: Db, job: Job) {
    job.kind.TaskExecution? && job.kind.plan in db.plans && job.kind.index < |db.plans[job.kind.plan].tasks|
  }

  /** Somebody asked for the job to be cancelled. */
  predicate Asked(db: Db, job: Job, run: Option<RunState>, e: Evidence) {
    || job.status == Cancelling || e.cancelRequested || (run.Some? && run.value.cancelling)
    || (HasTask(db, job) && var p := db.plans[job.kind.plan];
          || p.status == Cancelling || p.status == Cancelled
          || p.tasks[job.kind.index].status == Cancelling || p.tasks[job.kind.index].status == Cancelled)
  }

  /** The row of a lost job: cancelled when that was asked for or its agent never started, in the queue
      again when nothing had begun, interrupted otherwise. */
  function LostJob(db: Db, job: Job, run: Option<RunState>, e: Evidence, now: nat): Job
    requires job.attempt > 0
  {
    var next := job.(version := job.version + 1, worker := None);
    if Asked(db, job, run, e) then next.(status := Cancelled)
    else if run.None?
      && !(HasTask(db, job) && db.plans[job.kind.plan].tasks[job.kind.index].status in {Running, Cancelling})
    then GivenBack(job, now)
    else if run.Some? && !run.value.started then next.(status := Cancelled)
    else next.(status := Interrupted)
  }

  /** The plan p after its task i lost its job for good: the task is cancelled when that was asked for,
      pending when its agent never started, interrupted otherwise; a task that has ended stays as it is.
      A plan at work is blocked, unless it was asked for. */
  predicate LostTask(p: Plan, q: Plan, i: nat, asked: bool, run: Option<RunState>) {
    && i < |p.tasks| == |q.tasks| && q.tasks == p.tasks[i := q.tasks[i]]
    && if p.tasks[i].status in {Succeeded, Failed, Interrupted, Cancelled} then q == p
       else
         && q.tasks[i].status ==
              (if asked then Cancelled else if run.Some? && !run.value.started then Pending else Interrupted)
         && q.status == (if !asked && AtWork(p) then Blocked else p.status)
  }

  lemma LostTaskRow(p: Plan, i: nat, asked: bool, run: Option<RunState>)
    requires i < |p.tasks| && RecoverPlan(p, i, ChooseOutcome(run, asked)).Some?
    ensures LostTask(p, RecoverPlan(p, i, ChooseOutcome(run, asked)).value, i, asked, run)
  {
  }

  lemma LostRows(db: Db, j: JobId, run: Option<RunState>, e: Evidence, now: nat)
    requires j < |db.jobs| && UnderRecovery(db.jobs[j]) && db.jobs[j].attempt > 0
    requires DoRecover(db, j, run, e, now).Committed? && DoRecover(db, j, run, e, now) != Committed(db)
    ensures var job, db' := db.jobs[j], DoRecover(db, j, run, e, now).db;
      var row := LostJob(db, job, run, e, now);
      && db' == db.(plans := db'.plans, jobs := db.jobs[j := row])
      && if HasTask(db, job) && row.status != Queued then
           && job.kind.plan in db'.plans && db'.plans == db.plans[job.kind.plan := db'.plans[job.kind.plan]]
           && LostTask(db.plans[job.kind.plan], db'.plans[job.kind.plan], job.kind.index, Asked(db, job, run, e), run)
         else db'.plans == db.plans
  {
    hide CandidateActive, RecoverPlan, LostTask;
    var job := db.jobs[j];
    if HasTask(db, job) {
      var p, asked := db.plans[job.kind.plan], Asked(db, job, run, e);
      if RecoverPlan(p, job.kind.index, ChooseOutcome(run, asked)).Some? {
        LostTaskRow(p, job.kind.index, asked, run);
      }
    }
  }

  // ---- the choice of the next task ------------------------------------------------------------

  /** The first task that has not succeeded. */
  predicate FirstOpen(ts: seq<Task>, i: nat) {
    i < |ts| && ts[i].status != Succeeded && forall k | 0 <= k < i :: ts[k].status == Succeeded
  }

  /** Result r is the last one stored under the key. */
  predicate LastAt(results: seq<CriterionResult>, key: string, r: nat) {
    r < |results| && results[r].key == key && forall s | r < s < |results| :: results[s].key != key
  }

  /** The last result stored for the criterion is passed or skipped. */
  predicate Satisfied(t: Task, criterion: string) {
    exists r: nat | r < |t.results| :: LastAt(t.results, criterion, r) && t.results[r].status in {Passed, Skipped}
  }

  lemma {:induction false} LastResult(results: seq<CriterionResult>, key: string) returns (r: nat)
    ensures if ResultOf(results, key).None? then forall i | 0 <= i < |results| :: results[i].key != key
      else LastAt(results, key, r) && results[r].status == ResultOf(results, key).value
  {
    r := 0;
    if results != [] {
      var n := |results| - 1;
      if results[n].key == key {
        r := n;
      } else {
        r := LastResult(results[..n], key);
        assert forall i | 0 <= i < n :: results[i] == results[..n][i];
      }
    }
  }

  /** The task and all its criteria passed or were skipped. */
  predicate Confirmed(t: Task) {
    (t.acceptance == Passed || t.acceptance == Skipped) && forall c | c in t.criteria :: Satisfied(t, c)
  }

  lemma ConfirmedIsAccepted(t: Task)
    ensures Confirmed(t) <==> Accepted(t)
  {
    forall c | c in t.criteria ensures Satisfied(t, c) <==> CriterionMet(t.results, c) {
      var r := LastResult(t.results, c);
    }
  }

  /** A structured plan: distinct keys, the last task and no other is final, every task has criteria, all
      with text and distinct, and its dependencies are distinct keys of earlier tasks. */
  predicate WellFormed(ts: seq<Task>) {
    && (forall i, j | 0 <= i < j < |ts| :: ts[i].key != ts[j].key)
    && |ts| > 0 && ts[|ts| - 1].final && (forall i | 0 <= i < |ts| - 1 :: !ts[i].final)
    && forall i | 0 <= i < |ts| :: var cs, ds := ts[i].criteria, ts[i].deps;
      && |cs| > 0 && (forall c | c in cs :: Text.Trim(c) != "")
      && (forall a, b | 0 <= a < b < |cs| :: Text.Trim(cs[a]) != Text.Trim(cs[b]))
      && (forall a, b | 0 <= a < b < |ds| :: ds[a] != ds[b])
      && (forall d | d in ds :: exists k | 0 <= k < i :: ts[k].key == d)
  }

  lemma WellFormedIsGraphOk(ts: seq<Task>)
    ensures WellFormed(ts) <==> GraphOk(ts)
  {
    hide Text.Trim;
    if GraphOk(ts) {
      forall i | 0 <= i < |ts| ensures forall d | d in ts[i].deps :: exists k | 0 <= k < i :: ts[k].key == d {
        assert DepsOk(ts, i);
      }
      assert forall i | 0 <= i < |ts| :: CriteriaOk(ts[i]);
    }
  }

  /** The scheduler chooses a task exactly when the plan is executable and without problems, well formed if
      structured; the task is its first open one; all before it are confirmed; and nothing else is queued or
      running. An automatic choice needs a pending task. The check of the dependencies refuses nothing more. */
  lemma ChosenExactly(p: Plan, automatic: bool, allowed: Option<nat>, i: nat)
    ensures NextTask(p, automatic, allowed) == Chosen(i) <==>
      && p.executable && p.problems == 0 && (p.compatibility || WellFormed(p.tasks))
      && FirstOpen(p.tasks, i) && (forall k | 0 <= k < i :: Confirmed(p.tasks[k]))
      && (forall k | 0 <= k < |p.tasks| && p.tasks[k].status in {Queued, Running} :: allowed == Some(k))
      && (automatic ==> p.tasks[i].status == Pending)
  {
    hide WellFormed, GraphOk, Accepted, Confirmed;
    WellFormedIsGraphOk(p.tasks);
    forall k | 0 <= k < |p.tasks| {
      ConfirmedIsAccepted(p.tasks[k]);
    }
    if FirstOpen(p.tasks, i) {
      FrontierAt(p.tasks, i);
      if !p.compatibility && WellFormed(p.tasks) && forall k | 0 <= k < i :: Accepted(p.tasks[k]) {
        EarlierMeets(p.tasks, i);
      }
    }
  }

  lemma EarlierMeets(ts: seq<Task>, i: nat)
    requires GraphOk(ts) && i < |ts| && forall k | 0 <= k < i :: ts[k].status == Succeeded && Accepted(ts[k])
    ensures forall d | d in ts[i].deps :: DependencyMet(ts, d)
  {
    hide CriteriaOk, Accepted;
    assert DepsOk(ts, i);
  }

  // ---- queueing -----------------------------------------------------------------------------

  /** Row `pid` is the only plan row that changed. */
  predicate OnlyPlan(db: Db, db': Db, pid: PlanId)
  {
    pid in db.plans && pid in db'.plans && db'.plans == db.plans[pid := db'.plans[pid]]
  }

  predicate TaskRowIs(p: Plan, q: Plan, i: nat, status: Status) {
    && i < |p.tasks| && q.tasks == p.tasks[i := p.tasks[i].(status := status, version := p.tasks[i].version + 1)]
  }

  /** A job was added for task i: due at once, with one attempt and the project's retries. */
  predicate JobOfTask(db: Db, db': Db, pid: PlanId, i: nat, now: nat) {
    && pid in db'.plans && i < |db'.plans[pid].tasks| && db'.plans[pid].project in db.projects
    && var q := db'.plans[pid]; var retries := db.projects[q.project].maxRetries;
       db'.jobs == db.jobs + [Job(q.project, TaskExecution(pid, i), TaskJobKey(pid, i, q.tasks[i].version), Queued, 1, 0,
                                  if retries < 0 then 1 else 1 + retries, 100, now, now, None, 0)]
  }

  lemma JobInserted(db: Db, pid: PlanId, q: Plan, i: nat, now: nat)
    requires RowsOk(db, now) && pid in db.plans && |q.tasks| == |db.plans[pid].tasks| && i < |q.tasks|
    requires q.project in db.projects && q.tasks[i].version > db.plans[pid].tasks[i].version
    ensures WithTaskJob(db, pid, q, i, now).plans == db.plans[pid := q]
    ensures JobOfTask(db, WithTaskJob(db, pid, q, i, now), pid, i, now)
  {
    var job := TaskJob(db.projects, pid, q, i, now);
    forall k | 0 <= k < |db.jobs| ensures db.jobs[k].key != job.key {
      assert JobLinked(db.plans, db.jobs[k]);
    }
  }

  /** A plan row whose task i was queued; a plan that was not running starts its round of execution now. */
  predicate QueuedIn(p: Plan, q: Plan, i: nat, now: nat) {
    && FirstOpen(p.tasks, i) && TaskRowIs(p, q, i, Queued) && p.baseline
    && q == if p.status == Running then p.(tasks := q.tasks)
            else p.(status := Running, version := p.version + 1, startedAt := Some(now), tasks := q.tasks)
  }

  /** Queueing a plan queues its first open task, with a job. */
  lemma QueuedPlanRows(db: Db, pid: PlanId, version: nat, automatic: bool, now: nat) returns (i: nat)
    requires RowsOk(db, now) && DoQueuePlanTx(db, pid, version, automatic, now).Committed?
    ensures var db' := DoQueuePlanTx(db, pid, version, automatic, now).db;
      && OnlyPlan(db, db', pid) && db' == db.(plans := db'.plans, jobs := db'.jobs)
      && var p := db.plans[pid];
      && p.version == version && (p.status == Ready || (p.status == Blocked && !automatic))
      && QueuedIn(p, db'.plans[pid], i, now) && JobOfTask(db, db', pid, i, now)
      && p.tasks[i].status in (if automatic then {Pending} else {Pending, Failed, Cancelled, Interrupted})
  {
    hide RowsOk, JobOfTask, GateOk, OtherActive;
    var p := db.plans[pid];
    i := NextTask(p, automatic, None).index;
    hide NextTask;
    var q := MoveTask(MovePlan(p, Running).(startedAt := Some(now)), i, Queued);
    JobInserted(db, pid, q, i, now);
    hide WithTaskJob;
  }

  /** Queueing one task does the same for the task named, which must be the first open one, and resumes
      its plan. */
  lemma QueuedTaskRows(db: Db, pid: PlanId, i: nat, version: nat, now: nat)
    requires RowsOk(db, now) && DoQueueTask(db, pid, i, version, now).Committed?
    ensures var db' := DoQueueTask(db, pid, i, version, now).db;
      && OnlyPlan(db, db', pid) && db' == db.(plans := db'.plans, jobs := db'.jobs)
      && var p := db.plans[pid];
      && QueuedIn(p, db'.plans[pid], i, now) && JobOfTask(db, db', pid, i, now)
      && p.status in {Running, Ready, Blocked, Interrupted}
      && p.tasks[i].version == version && p.tasks[i].status in {Pending, Failed, Cancelled, Interrupted}
  {
    hide RowsOk, JobOfTask, GateOk, OtherActive;
    var p := db.plans[pid];
    assert FirstOpen(p.tasks, i);
    hide NextTask;
    var q := MoveTask(if p.status == Running then p else MovePlan(p, Running).(startedAt := Some(now)), i, Queued);
    JobInserted(db, pid, q, i, now);
    hide WithTaskJob;
  }

  // ---- running a task ---------------------------------------------------------------------------

  /** The first open task of a running plan began; the plan validates when it is the final one. */
  predicate Began(p: Plan, q: Plan, i: nat) {
    && FirstOpen(p.tasks, i) && p.tasks[i].status == Queued && p.status == Running && p.baseline
    && TaskRowIs(p, q, i, Running)
    && q == if p.tasks[i].final then InStatus(p, Validating, q.tasks) else p.(tasks := q.tasks)
  }

  /** The task is not the plan's turn any more: it is pending again if it was queued, and its plan blocked
      if it was ready or at work. */
  predicate SentBack(p: Plan, q: Plan, i: nat)
    requires i < |p.tasks|
  {
    && (if p.tasks[i].status == Queued then TaskRowIs(p, q, i, Pending) else q.tasks == p.tasks)
    && q == if p.status == Ready || AtWork(p) then InStatus(p, Blocked, q.tasks) else p.(tasks := q.tasks)
  }

  lemma RowMoved(p: Plan, i: nat, status: Status)
    requires i < |p.tasks|
    ensures var q := MoveTask(p, i, status);
      TaskRowIs(p, q, i, status) && q == p.(tasks := q.tasks) && q.tasks[i].status == status && |q.tasks| == |p.tasks|
  {
  }

  lemma StartedPlan(p: Plan, i: nat)
    requires i < |p.tasks| && StartPlan(p, i).Some?
    ensures var q := StartPlan(p, i).value;
      && |q.tasks| == |p.tasks|
      && if q.tasks[i].status == Running && p.tasks[i].status != Running then Began(p, q, i) else SentBack(p, q, i)
  {
    hide GateOk, OtherActive;
    assert NextTask(p, false, Some(i)) == Chosen(i) ==> FirstOpen(p.tasks, i);
    RowMoved(p, i, Pending);
    RowMoved(p, i, Running);
    hide NextTask, FirstOpen, MoveTask, TaskRowIs;
    if NextTask(p, false, Some(i)) != Chosen(i) || p.status != Running {
      assert SentBack(p, StartPlan(p, i).value, i);
    }
  }

  /** Starting a task makes it run or sends it back. */
  lemma StartedRows(db: Db, pid: PlanId, i: nat)
    requires pid in db.plans && i < |db.plans[pid].tasks| && DoStartTask(db, pid, i).Committed?
    ensures var db' := DoStartTask(db, pid, i).db;
      && OnlyPlan(db, db', pid) && db' == db.(plans := db'.plans)
      && var p, q := db.plans[pid], db'.plans[pid];
      && |q.tasks| == |p.tasks|
      && if q.tasks[i].status == Running && p.tasks[i].status != Running then Began(p, q, i) else SentBack(p, q, i)
  {
    hide StartPlan, Began, SentBack;
    if StartPlan(db.plans[pid], i).Some? {
      StartedPlan(db.plans[pid], i);
    }
  }

  /** A finished task has its version raised and every criterion judged like itself. */
  predicate JudgedRow(t: Task, u: Task, status: Status, verdict: Acceptance) {
    && u == t.(status := status, version := t.version + 1, acceptance := verdict, results := u.results)
    && |u.results| == |t.criteria|
    && forall c | 0 <= c < |t.criteria| :: u.results[c] == CriterionResult(t.criteria[c], verdict)
  }

  predicate HasEnded(p: Plan) { p.status in {Completed, Failed, Interrupted, Cancelled} }

  /** Plan p with the tasks of q, moved to a status if it is at work. */
  function PlanTo(p: Plan, q: Plan, status: Status): Finish {
    if HasEnded(p) then Settled(q) else if AtWork(p) then Settled(InStatus(p, status, q.tasks)) else FinishRefused
  }

  /** How finishing task i leaves its plan. A failure blocks a plan at work; without automation a success
      cancels it. Under automation the next task is queued or, after the last one, the plan completed; a
      plan whose next task may not run is blocked. A plan that has ended is left alone, and one that is
      neither at work nor ended is refused where its status would have to change. */
  lemma FinishedPlan(p: Plan, i: nat, success: bool, automation: bool)
    requires i < |p.tasks|
    ensures var f, q := FinishPlan(p, i, success, automation), JudgedPlan(p, i, success);
      && (!success ==> f == if p.status == Blocked then Settled(q) else PlanTo(p, q, Blocked))
      && (success && !automation ==> f == PlanTo(p, q, Cancelled))
      && (success && automation && (p.status == Cancelled || p.status == Completed) ==> f == Settled(q))
      && (success && automation && p.status != Cancelled && p.status != Completed ==>
            && (NextTask(q, true, None).Refusal? ==>
                  f == Settled(if HasEnded(p) || p.status == Blocked then q else InStatus(p, Blocked, q.tasks)))
            && (NextTask(q, true, None).AllDone? ==> f == PlanTo(p, q, Completed))
            && (NextTask(q, true, None).Chosen? ==>
                  f.Continued? && f.next == NextTask(q, true, None).index && TaskRowIs(q, f.plan, f.next, Queued)
                  && f.plan == q.(tasks := f.plan.tasks)))
  {
    var q := JudgedPlan(p, i, success);
    hide NextTask, JudgedPlan, MoveTask, TaskRowIs;
    assert q == p.(tasks := q.tasks) by { TasksJudged(p, i, success); }
    if success && NextTask(q, true, None).Chosen? {
      RowMoved(q, NextTask(q, true, None).index, Queued);
    }
  }

  lemma TasksJudged(p: Plan, i: nat, success: bool)
    requires i < |p.tasks|
    ensures JudgedPlan(p, i, success) == p.(tasks := JudgedPlan(p, i, success).tasks)
  {
  }

  /** Only a running task is finished; one that is pending or has ended is left alone. */
  lemma FinishedOnce(db: Db, pid: PlanId, i: nat, success: bool, blank: bool, now: nat)
    requires pid in db.plans && i < |db.plans[pid].tasks| && db.plans[pid].project in db.projects
    requires db.plans[pid].tasks[i].status != Running
    ensures DoFinishTask(db, pid, i, success, blank, now) ==
      if db.plans[pid].tasks[i].status in {Pending, Succeeded, Failed, Interrupted, Cancelled} then Committed(db) else Rejected
  {
  }

  /** A failed task blocks its plan while that is at work. Without automation a success ends the plan. */
  lemma FinishedRows(db: Db, pid: PlanId, i: nat, success: bool, now: nat)
    requires pid in db.plans && i < |db.plans[pid].tasks| && db.plans[pid].tasks[i].status == Running
    requires db.plans[pid].project in db.projects
    requires !success || !db.projects[db.plans[pid].project].automation
    requires AtWork(db.plans[pid])
    ensures var o, p := DoFinishTask(db, pid, i, success, false, now), db.plans[pid];
      && o.Committed? && OnlyPlan(db, o.db, pid) && o.db == db.(plans := o.db.plans)
      && var q := o.db.plans[pid];
      && q == InStatus(p, if success then Cancelled else Blocked, q.tasks)
      && |q.tasks| == |p.tasks| && q.tasks == p.tasks[i := q.tasks[i]]
      && JudgedRow(p.tasks[i], q.tasks[i], if success then Succeeded else Failed,
                   if success then Passed else AcceptanceFailed)
  {
    hide NextTask;
  }

  lemma ReturnedRows(db: Db, pid: PlanId, i: nat)
    requires pid in db.plans && i < |db.plans[pid].tasks| && db.plans[pid].tasks[i].status == Running
    ensures var o, p := DoReturnPending(db, pid, i, false), db.plans[pid];
      && o.Committed? && OnlyPlan(db, o.db, pid) && o.db == db.(plans := o.db.plans)
      && TaskRowIs(p, o.db.plans[pid], i, Pending) && o.db.plans[pid] == p.(tasks := o.db.plans[pid].tasks)
    ensures var o, p := DoReturnQueued(db, pid, i, false), db.plans[pid];
      && o.Committed? && OnlyPlan(db, o.db, pid) && o.db == db.(plans := o.db.plans)
      && TaskRowIs(p, o.db.plans[pid], i, Queued) && o.db.plans[pid] == p.(tasks := o.db.plans[pid].tasks)
  {
  }

  // ---- stopping ------------------------------------------------------------------------------------

  /** The jobs for which `stopped` holds are cancelled and the others as they were. */
  predicate JobsStopped(jobs: seq<Job>, after: seq<Job>, stopped: Job -> bool) {
    |after| == |jobs| && forall k | 0 <= k < |jobs| ::
      after[k] == if stopped(jobs[k]) then jobs[k].(status := Cancelled, version := jobs[k].version + 1) else jobs[k]
  }

  /** The tasks for which `back` holds are pending again and the others as they were. */
  predicate TasksBack(ts: seq<Task>, after: seq<Task>, back: Task -> bool) {
    |after| == |ts| && forall i | 0 <= i < |ts| ::
      after[i] == if back(ts[i]) then ts[i].(status := Pending, version := ts[i].version + 1) else ts[i]
  }

  /** Stopping a queued task puts it back and cancels its jobs that wait or are leased; of a running one
      it changes nothing. */
  lemma StoppedTaskRows(db: Db, pid: PlanId, i: nat, version: nat)
    requires pid in db.plans && i < |db.plans[pid].tasks|
    ensures var o, p := DoStopTask(db, pid, i, version), db.plans[pid];
      && (o.Committed? <==> p.tasks[i].version == version && p.tasks[i].status in {Queued, Running})
      && (o.Committed? && p.tasks[i].status == Running ==> o.db == db)
      && (o.Committed? && p.tasks[i].status == Queued ==>
            && OnlyPlan(db, o.db, pid) && o.db == db.(plans := o.db.plans, jobs := o.db.jobs)
            && TaskRowIs(p, o.db.plans[pid], i, Pending) && o.db.plans[pid] == p.(tasks := o.db.plans[pid].tasks)
            && JobsStopped(db.jobs, o.db.jobs, (j: Job) => j.kind == TaskExecution(pid, i) && NotBegun(j)))
  {
  }

  /** Stopping a plan cancels it unless it has ended, puts its queued tasks back and cancels its jobs that
      wait or are leased. */
  lemma StoppedPlanRows(db: Db, pid: PlanId, version: nat)
    requires pid in db.plans
    ensures var o, p := DoStopPlan(db, pid, version), db.plans[pid];
      var ended := HasEnded(p);
      && (o.Committed? <==>
            ended || ((version == 0 || version == p.version) && (p.status == Ready || p.status == Blocked || AtWork(p))))
      && (o.Committed? ==>
            && OnlyPlan(db, o.db, pid) && o.db == db.(plans := o.db.plans, jobs := o.db.jobs)
            && var q := o.db.plans[pid];
            && q == (if ended then p.(tasks := q.tasks) else InStatus(p, Cancelled, q.tasks))
            && TasksBack(p.tasks, q.tasks, (t: Task) => t.status == Queued)
            && JobsStopped(db.jobs, o.db.jobs, (j: Job) =>
                 j.kind.TaskExecution? && j.kind.plan == pid && NotBegun(j)))
  {
  }

  /** A plan of the project after automation was switched off: ready if it was at work, its active tasks
      pending. */
  predicate PutBack(p: Plan, r: Plan) {
    && r == (if AtWork(p) then InStatus(p, Ready, r.tasks) else p.(tasks := r.tasks))
    && TasksBack(p.tasks, r.tasks, (t: Task) => t.status == Queued || t.status == Running)
  }

  lemma PausedIsPutBack(p: Plan, project: ProjectId)
    requires p.project == project
    ensures PutBack(p, if Paused(p, project) then PausedPlan(p) else p)
  {
  }

  /** Switching automation off cancels all work of the project and puts its plans back. */
  lemma SwitchedOffRows(db: Db, project: ProjectId, version: nat, order: seq<PlanId>, now: nat)
    requires DoSetAutomation(db, project, false, version, order, now).Committed?
    ensures var db' := DoSetAutomation(db, project, false, version, order, now).db;
      && project in db.projects && db.projects[project].version == version
      && db'.projects == db.projects[project := db.projects[project].(automation := false, version := version + 1)]
      && db'.clock == db.clock && db'.plans.Keys == db.plans.Keys
      && (forall q | q in db.plans :: if db.plans[q].project == project then PutBack(db.plans[q], db'.plans[q])
                                      else db'.plans[q] == db.plans[q])
      && JobsStopped(db.jobs, db'.jobs, (j: Job) => j.project == project && (NotBegun(j) || j.status == Running))
  {
    hide DoQueueAll, PausedPlan, PutBack;
    forall q | q in db.plans && db.plans[q].project == project {
      PausedIsPutBack(db.plans[q], project);
    }
  }

  /** The instance holds job j. */
  predicate HeldIn(j: Job, instance: string) {
    (j.status == Leased || j.status == Running) && j.worker.Some? && j.worker.value.instance == instance
  }

  /** A running task of a job the instance holds. */
  predicate Halted(db: Db, instance: string, pid: PlanId, i: nat)
    requires pid in db.plans && i < |db.plans[pid].tasks|
  {
    && db.plans[pid].tasks[i].status == Running
    && exists k | 0 <= k < |db.jobs| :: HeldIn(db.jobs[k], instance) && db.jobs[k].kind == TaskExecution(pid, i)
  }

  lemma HaltedInterrupts(db: Db, instance: string, pid: PlanId, i: nat)
    requires pid in db.plans && i < |db.plans[pid].tasks|
    ensures Halted(db, instance, pid, i) <==> Interrupts(db, instance, pid, i)
  {
    if Halted(db, instance, pid, i) {
      var k :| 0 <= k < |db.jobs| && HeldIn(db.jobs[k], instance) && db.jobs[k].kind == TaskExecution(pid, i);
      assert Owned(db.jobs[k], instance) && OfTask(db.jobs[k], pid, i);
    }
    if Interrupts(db, instance, pid, i) {
      var k :| 0 <= k < |db.jobs| && Owned(db.jobs[k], instance) && OfTask(db.jobs[k], pid, i);
      assert HeldIn(db.jobs[k], instance) && db.jobs[k].kind == TaskExecution(pid, i);
    }
  }

  /** The shutdown of an instance gives its generation jobs back and cancels its task jobs; their running
      tasks are pending again, and plans at work that lose one are blocked. */
  lemma ShutDownRows(db: Db, instance: string, now: nat, pid: PlanId)
    requires DoShutdown(db, instance, now).Committed? && pid in db.plans
    ensures var p, db' := db.plans[pid], DoShutdown(db, instance, now).db;
      && pid in db'.plans && |db'.plans[pid].tasks| == |p.tasks|
      && var q := db'.plans[pid];
      && (forall i: nat | i < |p.tasks| :: var t := p.tasks[i];
            q.tasks[i] == if Halted(db, instance, pid, i) then t.(status := Pending, version := t.version + 1) else t)
      && q == if (exists i: nat :: i < |p.tasks| && Halted(db, instance, pid, i)) && AtWork(p)
              then InStatus(p, Blocked, q.tasks) else p.(tasks := q.tasks)
  {
    hide Halted, Interrupts, UnfitOwned, ShutdownJob;
    var p := db.plans[pid];
    forall i: nat | i < |p.tasks| {
      HaltedInterrupts(db, instance, pid, i);
    }
  }

  lemma ShutDownJobs(db: Db, instance: string, now: nat, k: nat)
    requires DoShutdown(db, instance, now).Committed? && k < |db.jobs|
    ensures var job, db' := db.jobs[k], DoShutdown(db, instance, now).db;
      && |db'.jobs| == |db.jobs| && db'.plans.Keys == db.plans.Keys && db'.projects == db.projects
      && var back := job.(version := job.version + 1, worker := None);
      && db'.jobs[k] ==
           if !HeldIn(job, instance) then job
           else if job.kind.TaskExecution? then back.(status := Cancelled)
           else back.(status := Queued, runAfter := now, attempt := if job.attempt == 0 then 0 else job.attempt - 1)
  {
    hide ShutdownRefused, ShutdownPlan;
  }

  /** A report of drift fails the job, puts its task back and blocks its plan while that is at work. */
  lemma DriftedRows(db: Db, j: JobId, w: Worker)
    requires j < |db.jobs| && db.jobs[j].worker == Some(w)
    requires db.jobs[j].status == Leased || db.jobs[j].status == Running
    requires DoBlockForDrift(db, j, w).Committed?
    ensures var job, db' := db.jobs[j], DoBlockForDrift(db, j, w).db;
      && db' == db.(plans := db'.plans, jobs := db.jobs[j := job.(status := Failed, version := job.version + 1)])
      && (job.kind.PlanGeneration? ==> db'.plans == db.plans)
      && (job.kind.TaskExecution? ==>
            && OnlyPlan(db, db', job.kind.plan)
            && var i, p, q := job.kind.index, db.plans[job.kind.plan], db'.plans[job.kind.plan];
            && i < |p.tasks| && p.tasks[i].status in {Pending, Queued, Running, Failed}
            && (if p.tasks[i].status == Pending then q.tasks == p.tasks else TaskRowIs(p, q, i, Pending))
            && q == if AtWork(p) then InStatus(p, Blocked, q.tasks) else p.(tasks := q.tasks))
  {
  }

  /** A generated plan is ready with its tasks pending, or blocked without any when it has problems. */
  lemma SavedRows(db: Db, pid: PlanId, project: ProjectId, problems: nat, compatibility: bool, tasks: seq<NewTask>,
                  now: nat)
    requires pid !in db.plans && project in db.projects
    ensures var o := DoSavePlan(db, pid, project, problems, compatibility, tasks, now);
      && o.Committed? && pid in o.db.plans && o.db == db.(plans := db.plans[pid := o.db.plans[pid]])
      && var q := o.db.plans[pid];
      && q == Plan(project, if problems == 0 then Ready else Blocked, 2, problems == 0, problems, compatibility,
                   problems == 0, now, None, q.tasks)
      && |q.tasks| == (if problems == 0 then |tasks| else 0)
      && forall i | 0 <= i < |q.tasks| :: var t := q.tasks[i];
           && t == Task(tasks[i].key, tasks[i].final, tasks[i].deps, tasks[i].criteria, Pending, 1, AcceptancePending,
                        t.results)
           && |t.results| == |t.criteria|
           && forall c | 0 <= c < |t.criteria| :: t.results[c] == CriterionResult(t.criteria[c], AcceptancePending)
  {
  }
}
