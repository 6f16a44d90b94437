/** The transactions of the scheduler and job queue, each as one atomic step on the
    rows. A step states its guards on statuses, versions and workers directly; the
    Store class shows that the transition requests the transactions issue amount to
    exactly these steps. */
module Protocol {
  import opened Lifecycle
  import opened Schedule

  type JobId = nat

  datatype JobKind = TaskExecution(plan: PlanId, index: nat) | PlanGeneration(intake: nat)

  datatype JobKey = TaskJobKey(plan: PlanId, index: nat, taskVersion: nat) | IntakeJobKey(intake: nat, intakeVersion: nat)

  /** A row of jobs. `failures` counts the executions of the job that ended in FailJob;
      it is a history variable the source does not store. */
  datatype Job = Job(
    project: ProjectId,
    kind: JobKind,
    key: JobKey,
    status: Status,
    version: nat,
    attempt: nat,
    maxAttempts: nat,
    priority: nat,
    createdAt: nat,
    runAfter: nat,
    worker: Option<Worker>,
    failures: nat)

  datatype Project = Project(automation: bool, version: nat, maxRetries: int)

  datatype Db = Db(
    clock: nat,
    projects: map<ProjectId, Project>,
    plans: map<PlanId, Plan>,
    jobs: seq<Job>)

  datatype Outcome = Committed(db: Db) | Rejected

  // ---- row changes --------------------------------------------------------

  function Moved(t: Task, to: Status): Task {
    t.(status := to, version := t.version + 1)
  }

  function MoveTask(p: Plan, i: nat, to: Status): Plan
    requires i < |p.tasks|
  {
    p.(tasks := p.tasks[i := Moved(p.tasks[i], to)])
  }

  function MovePlan(p: Plan, to: Status): Plan {
    p.(status := to, version := p.version + 1)
  }

  function MoveJob(j: Job, to: Status): Job {
    j.(status := to, version := j.version + 1)
  }

  function Refund(attempt: nat): nat { if attempt > 0 then attempt - 1 else 0 }

  function Requeue(j: Job, runAfter: nat): Job {
    MoveJob(j, Queued).(worker := None, runAfter := runAfter, attempt := Refund(j.attempt))
  }

  predicate InFlight(s: Status) { s == Leased || s == Running }
  predicate Stoppable(s: Status) { s == Queued || s == RetryWait || s == Leased }
  predicate Executing(s: Status) { s == Running || s == Validating }

  predicate OfTask(j: Job, pid: PlanId, i: nat) { j.kind == TaskExecution(pid, i) }
  predicate OfPlan(j: Job, pid: PlanId) { j.kind.TaskExecution? && j.kind.plan == pid }

  predicate HeldBy(j: Job, w: Worker) { j.worker == Some(w) }

  predicate TaskExists(db: Db, pid: PlanId, i: nat) {
    pid in db.plans && i < |db.plans[pid].tasks|
  }

  /** Cancel the jobs a predicate picks and leave the others alone. */
  function CancelWhere(jobs: seq<Job>, pick: Job -> bool): (r: seq<Job>)
    ensures |r| == |jobs|
    ensures forall k | 0 <= k < |jobs| :: r[k] == if pick(jobs[k]) then MoveJob(jobs[k], Cancelled) else jobs[k]
  {
    seq(|jobs|, k requires 0 <= k < |jobs| => if pick(jobs[k]) then MoveJob(jobs[k], Cancelled) else jobs[k])
  }

  /** Put the tasks a predicate picks back to pending. */
  function ResetWhere(ts: seq<Task>, pick: Task -> bool): (r: seq<Task>)
    ensures |r| == |ts|
    ensures forall k | 0 <= k < |ts| :: r[k] == if pick(ts[k]) then Moved(ts[k], Pending) else ts[k]
  {
    seq(|ts|, k requires 0 <= k < |ts| => if pick(ts[k]) then Moved(ts[k], Pending) else ts[k])
  }

  function MaxAttempts(p: Project): (n: nat)
    ensures n >= 1
  {
    if p.maxRetries < 0 then 1 else p.maxRetries + 1
  }

  /** Insert a job unless its idempotency key is already taken. */
  function InsertJob(jobs: seq<Job>, job: Job): seq<Job> {
    if exists k | 0 <= k < |jobs| :: jobs[k].key == job.key then jobs else jobs + [job]
  }

  function NewJob(projects: map<ProjectId, Project>, kind: JobKind, key: JobKey, project: ProjectId, now: nat): Job
    requires project in projects
  {
    Job(project, kind, key, Queued, 1, 0, MaxAttempts(projects[project]), 100, now, now, None, 0)
  }

  /** The job of task i of plan `p`, keyed by the version the task has now. */
  function TaskJob(projects: map<ProjectId, Project>, pid: PlanId, p: Plan, i: nat, now: nat): Job
    requires i < |p.tasks| && p.project in projects
  {
    NewJob(projects, TaskExecution(pid, i), TaskJobKey(pid, i, p.tasks[i].version), p.project, now)
  }

  /** Store plan `p`, whose task i was just queued, and create the job of that task. */
  function WithTaskJob(db: Db, pid: PlanId, p: Plan, i: nat, now: nat): Db
    requires i < |p.tasks| && p.project in db.projects
  {
    db.(plans := db.plans[pid := p], jobs := InsertJob(db.jobs, TaskJob(db.projects, pid, p, i, now)))
  }

  // ---- plan and task queueing ----------------------------------------------

  datatype NewTask = NewTask(key: string, final: bool, deps: seq<string>, criteria: seq<string>)

  function StoredTask(t: NewTask): Task {
    Task(t.key, t.final, t.deps, t.criteria, Pending, 1, AcceptancePending,
         BuildResults(t.criteria, AcceptancePending))
  }

  function StoredTasks(ts: seq<NewTask>): (r: seq<Task>)
    ensures |r| == |ts|
    ensures forall i | 0 <= i < |ts| :: r[i] == StoredTask(ts[i])
  {
    seq(|ts|, i requires 0 <= i < |ts| => StoredTask(ts[i]))
  }

  /** saveGeneratedPlan: the plan row is inserted and moved out of `generating`. */
  function DoSavePlan(db: Db, pid: PlanId, project: ProjectId, problems: nat, compatibility: bool,
                      tasks: seq<NewTask>, now: nat): Outcome
  {
    if pid in db.plans || project !in db.projects then Rejected
    else
      var executable := problems == 0;
      var p := Plan(project, if executable then Ready else Blocked, 2, executable, problems, compatibility,
                    executable, now, None, if executable then StoredTasks(tasks) else []);
      Committed(db.(plans := db.plans[pid := p]))
  }

  predicate Retryable(s: Status) { s == Pending || s == Failed || s == Cancelled || s == Interrupted }

  /** queuePlanTx */
  function DoQueuePlanTx(db: Db, pid: PlanId, version: nat, automatic: bool, now: nat): Outcome {
    if pid !in db.plans || db.plans[pid].project !in db.projects then Rejected
    else
      var p := db.plans[pid];
      var next := NextTask(p, automatic, None);
      if p.version != version || !(p.status == Ready || (p.status == Blocked && !automatic)) then Rejected
      else if !next.Chosen? || !Retryable(p.tasks[next.index].status) || !p.baseline then Rejected
      else
        var p' := MoveTask(MovePlan(p, Running).(startedAt := Some(now)), next.index, Queued);
        Committed(WithTaskJob(db, pid, p', next.index, now))
  }

  function DoQueuePlanAutomatically(db: Db, pid: PlanId, now: nat): Outcome {
    if pid !in db.plans || db.plans[pid].project !in db.projects then Committed(db)
    else if !db.projects[db.plans[pid].project].automation then Committed(db)
    else if db.plans[pid].status != Ready && db.plans[pid].status != Blocked then Committed(db)
    else DoQueuePlanTx(db, pid, db.plans[pid].version, true, now)
  }

  function DoQueueTask(db: Db, pid: PlanId, i: nat, version: nat, now: nat): Outcome {
    if !TaskExists(db, pid, i) || db.plans[pid].project !in db.projects then Rejected
    else
      var p := db.plans[pid];
      if p.tasks[i].version != version then Rejected
      else if p.status !in {Running, Ready, Blocked, Interrupted} then Rejected
      else if NextTask(p, false, None) != Chosen(i) || !Retryable(p.tasks[i].status) || !p.baseline then Rejected
      else
        var p1 := if p.status == Running then p else MovePlan(p, Running).(startedAt := Some(now));
        Committed(WithTaskJob(db, pid, MoveTask(p1, i, Queued), i, now))
  }

  /** A plan.generate job for an intake. */
  function DoQueueGeneration(db: Db, project: ProjectId, intake: nat, intakeVersion: nat, now: nat): Outcome {
    if project !in db.projects then Rejected
    else
      var job := NewJob(db.projects, PlanGeneration(intake), IntakeJobKey(intake, intakeVersion), project, now);
      Committed(db.(jobs := InsertJob(db.jobs, job)))
  }

  // ---- job steps -------------------------------------------------------------

  /** A plan that takes part in the selection of its project's owner. */
  predicate Contender(p: Plan, project: ProjectId) {
    && p.project == project
    && Executing(p.status)
    && p.executable
    && exists i | 0 <= i < |p.tasks| :: p.tasks[i].status != Succeeded
  }

  /** The owner order: start of the execution round (absent last), creation, id. */
  predicate Before(p: Plan, pid: PlanId, q: Plan, qid: PlanId) {
    if p.startedAt.Some? && q.startedAt.Some? && p.startedAt.value != q.startedAt.value then
      p.startedAt.value < q.startedAt.value
    else if p.startedAt.Some? != q.startedAt.Some? then p.startedAt.Some?
    else if p.createdAt != q.createdAt then p.createdAt < q.createdAt
    else pid < qid
  }

  predicate IsOwner(db: Db, project: ProjectId, pid: PlanId) {
    && pid in db.plans && Contender(db.plans[pid], project)
    && forall q | q in db.plans && q != pid && Contender(db.plans[q], project) ::
         Before(db.plans[pid], pid, db.plans[q], q)
  }

  lemma BeforeAsymmetric(p: Plan, pid: PlanId, q: Plan, qid: PlanId)
    ensures !(Before(p, pid, q, qid) && Before(q, qid, p, pid))
  {
  }

  /** The owner order is total and transitive on the plans of the store. */
  lemma BeforeOrders(plans: map<PlanId, Plan>, a: PlanId, b: PlanId)
    requires a in plans && b in plans && a != b
    ensures Before(plans[a], a, plans[b], b) || Before(plans[b], b, plans[a], a)
    ensures Before(plans[a], a, plans[b], b) ==>
      forall c | c in plans && c != a && Before(plans[b], b, plans[c], c) :: Before(plans[a], a, plans[c], c)
  {
  }

  lemma OnlyOwner(db: Db, project: ProjectId, a: PlanId, b: PlanId)
    requires IsOwner(db, project, a)
    ensures IsOwner(db, project, b) ==> a == b
  {
    if b in db.plans {
      BeforeAsymmetric(db.plans[a], a, db.plans[b], b);
    }
  }

  /** No task job of the project is leased or running. */
  predicate ProjectIdle(db: Db, project: ProjectId) {
    forall k | 0 <= k < |db.jobs| ::
      !(db.jobs[k].project == project && db.jobs[k].kind.TaskExecution? && InFlight(db.jobs[k].status))
  }

  predicate Claimable(db: Db, j: JobId, now: nat) {
    && j < |db.jobs|
    && var job := db.jobs[j];
    && (job.status == Queued || job.status == RetryWait)
    && job.runAfter <= now
    && job.project in db.projects && db.projects[job.project].automation
    && (job.kind.TaskExecution? ==>
          && TaskExists(db, job.kind.plan, job.kind.index)
          && ProjectIdle(db, job.project)
          && IsOwner(db, job.project, job.kind.plan))
  }

  /** ClaimJob, once its query picked job j. */
  function DoClaim(db: Db, j: JobId, w: Worker, now: nat): Outcome {
    if !Claimable(db, j, now) then Rejected
    else
      var job := db.jobs[j];
      Committed(db.(jobs := db.jobs[j := MoveJob(job, Leased).(worker := Some(w), attempt := job.attempt + 1)]))
  }

  function DoMarkRunning(db: Db, j: JobId, w: Worker): Outcome {
    if j >= |db.jobs| then Rejected
    else if db.jobs[j].status == Running then Committed(db)
    else if db.jobs[j].status == Leased && HeldBy(db.jobs[j], w) then
      Committed(db.(jobs := db.jobs[j := MoveJob(db.jobs[j], Running)]))
    else Rejected
  }

  function DoDefer(db: Db, j: JobId, w: Worker, delay: nat, now: nat): Outcome {
    if j >= |db.jobs| then Rejected
    else if db.jobs[j].status == Queued then Committed(db)
    else if InFlight(db.jobs[j].status) && HeldBy(db.jobs[j], w) then
      Committed(db.(jobs := db.jobs[j := Requeue(db.jobs[j], now + delay)]))
    else Rejected
  }

  function DoRelease(db: Db, j: JobId, w: Worker, now: nat): Outcome {
    if j >= |db.jobs| then Rejected
    else if db.jobs[j].status == Queued then Committed(db)
    else if db.jobs[j].status == Leased && HeldBy(db.jobs[j], w) then
      Committed(db.(jobs := db.jobs[j := Requeue(db.jobs[j], now)]))
    else Rejected
  }

  function DoComplete(db: Db, j: JobId, w: Worker): Outcome {
    if j >= |db.jobs| then Rejected
    else if Terminal(JobResource, db.jobs[j].status) then Committed(db)
    else if db.jobs[j].status == Running && HeldBy(db.jobs[j], w) then
      Committed(db.(jobs := db.jobs[j := MoveJob(db.jobs[j], Succeeded)]))
    else Rejected
  }

  function PowerOfTwo(n: nat): nat {
    if n == 0 then 1 else 2 * PowerOfTwo(n - 1)
  }

  /** The seconds before the next attempt. */
  function RetryDelay(attempt: nat): nat {
    PowerOfTwo(if attempt < 6 then attempt else 6)
  }

  /** The status FailJob picks from the job snapshot its caller holds. */
  function FailStatus(attempt: nat, maxAttempts: nat, retryable: bool): Status {
    if retryable && attempt < maxAttempts then RetryWait else Failed
  }

  function DoFail(db: Db, j: JobId, attempt: nat, w: Worker, retryable: bool, blank: bool, now: nat): Outcome {
    if j >= |db.jobs| then Rejected
    else
      var job := db.jobs[j];
      var to := FailStatus(attempt, job.maxAttempts, retryable);
      if job.status == to || Terminal(JobResource, job.status) then Committed(db)
      else if !InFlight(job.status) || !HeldBy(job, w) || blank then Rejected
      else
        var runAfter := if to == RetryWait then now + RetryDelay(attempt) else now;
        Committed(db.(jobs := db.jobs[j := MoveJob(job, to).(runAfter := runAfter, failures := job.failures + 1)]))
  }

  function DoCancelJob(db: Db, j: JobId, w: Worker): Outcome {
    if j >= |db.jobs| then Rejected
    else if Terminal(JobResource, db.jobs[j].status) then Committed(db)
    else if InFlight(db.jobs[j].status) && HeldBy(db.jobs[j], w) then
      Committed(db.(jobs := db.jobs[j := MoveJob(db.jobs[j], Cancelled)]))
    else Rejected
  }

  // ---- task execution ----------------------------------------------------------

  /** Moving a plan to `blocked` where only an executing plan may be moved and durable
      terminal statuses are left alone. None means the request is refused. */
  function BlockExecuting(p: Plan): Option<Plan> {
    if p.status == Blocked || Terminal(PlanResource, p.status) then Some(p)
    else if Executing(p.status) then Some(MovePlan(p, Blocked))
    else None
  }

  /** What StartTask makes of a plan; None when it fails without an effect. */
  function StartPlan(p: Plan, i: nat): Option<Plan>
    requires i < |p.tasks|
  {
    if NextTask(p, false, Some(i)) != Chosen(i) || p.status != Running then
      var p1 := if p.tasks[i].status == Queued then MoveTask(p, i, Pending) else p;
      Some(if p.status == Ready || Executing(p.status) then MovePlan(p1, Blocked) else p1)
    else if p.tasks[i].status != Queued || !p.baseline then None
    else
      var p1 := MoveTask(p, i, Running);
      Some(if p.tasks[i].final then MovePlan(p1, Validating) else p1)
  }

  function DoStartTask(db: Db, pid: PlanId, i: nat): Outcome {
    if !TaskExists(db, pid, i) then Rejected
    else
      match StartPlan(db.plans[pid], i)
      case Some(p) => Committed(db.(plans := db.plans[pid := p]))
      case None => Rejected
  }

  /** The task row after its run ended. */
  function Judged(t: Task, success: bool): Task {
    var a := if success then Passed else AcceptanceFailed;
    t.(status := if success then Succeeded else Failed, version := t.version + 1,
       acceptance := a, results := BuildResults(t.criteria, a))
  }

  function JudgedPlan(p: Plan, i: nat, success: bool): Plan
    requires i < |p.tasks|
  {
    p.(tasks := p.tasks[i := Judged(p.tasks[i], success)])
  }

  /** How finishing a running task leaves its plan: refused as a whole, settled without a
      further task, or continued with the task `next` queued. */
  datatype Finish = FinishRefused | Settled(plan: Plan) | Continued(plan: Plan, next: nat)

  function MoveUnlessTerminal(p: Plan, to: Status): Finish {
    if Terminal(PlanResource, p.status) then Settled(p)
    else if Executing(p.status) then Settled(MovePlan(p, to))
    else FinishRefused
  }

  /** How a plan goes on after one of its tasks succeeded. */
  function ContinuedFrom(p: Plan, automation: bool): (f: Finish)
    ensures f.Continued? ==> f.next < |f.plan.tasks|
  {
    if p.status == Cancelled || p.status == Completed then Settled(p)
    else if !automation then MoveUnlessTerminal(p, Cancelled)
    else
      match NextTask(p, true, None)
      case Refusal => Settled(if p.status == Blocked || Terminal(PlanResource, p.status) then p else MovePlan(p, Blocked))
      case AllDone => MoveUnlessTerminal(p, Completed)
      case Chosen(k) => Continued(MoveTask(p, k, Queued), k)
  }

  function FinishPlan(p: Plan, i: nat, success: bool, automation: bool): (f: Finish)
    requires i < |p.tasks|
    ensures f.Continued? ==> f.next < |f.plan.tasks|
  {
    var p1 := JudgedPlan(p, i, success);
    if success then ContinuedFrom(p1, automation)
    else
      var blocked := BlockExecuting(p1);
      if blocked.Some? then Settled(blocked.value) else FinishRefused
  }

  /** The rows after a task of plan `pid` finished with `f`. */
  function Finished(db: Db, pid: PlanId, f: Finish, now: nat): Db
    requires !f.FinishRefused? && f.plan.project in db.projects
    requires f.Continued? ==> f.next < |f.plan.tasks|
  {
    if f.Settled? then db.(plans := db.plans[pid := f.plan]) else WithTaskJob(db, pid, f.plan, f.next, now)
  }

  function DoFinishTask(db: Db, pid: PlanId, i: nat, success: bool, blank: bool, now: nat): Outcome {
    if !TaskExists(db, pid, i) || db.plans[pid].project !in db.projects then Rejected
    else
      var p := db.plans[pid];
      var s := p.tasks[i].status;
      if Terminal(TaskResource, s) || s == Pending then Committed(db)
      else if s != Running || blank then Rejected
      else
        match FinishPlan(p, i, success, db.projects[p.project].automation)
        case FinishRefused => Rejected
        case Settled(q) => Committed(db.(plans := db.plans[pid := q]))
        case Continued(q, k) => Committed(WithTaskJob(db, pid, q, k, now))
  }

  function DoReturnPending(db: Db, pid: PlanId, i: nat, blank: bool): Outcome {
    if !TaskExists(db, pid, i) then Rejected
    else if db.plans[pid].tasks[i].status != Running then Committed(db)
    else if blank then Rejected
    else Committed(db.(plans := db.plans[pid := MoveTask(db.plans[pid], i, Pending)]))
  }

  function DoReturnQueued(db: Db, pid: PlanId, i: nat, blank: bool): Outcome {
    if !TaskExists(db, pid, i) then Rejected
    else
      var s := db.plans[pid].tasks[i].status;
      if s == Queued || Terminal(TaskResource, s) then Committed(db)
      else if s != Running || blank then Rejected
      else Committed(db.(plans := db.plans[pid := MoveTask(db.plans[pid], i, Queued)]))
  }

  // ---- user and system steps ------------------------------------------------------

  function DoStopTask(db: Db, pid: PlanId, i: nat, version: nat): Outcome {
    if !TaskExists(db, pid, i) then Rejected
    else
      var p := db.plans[pid];
      if p.tasks[i].version != version || !ActiveStatus(p.tasks[i].status) then Rejected
      else if p.tasks[i].status == Running then Committed(db)
      else Committed(db.(
        plans := db.plans[pid := MoveTask(p, i, Pending)],
        jobs := CancelWhere(db.jobs, (j: Job) => OfTask(j, pid, i) && Stoppable(j.status))))
  }

  function DoStopPlan(db: Db, pid: PlanId, version: nat): Outcome {
    if pid !in db.plans then Rejected
    else
      var p := db.plans[pid];
      var settled := Terminal(PlanResource, p.status);
      if !settled && ((version > 0 && p.version != version) || p.status !in {Ready, Running, Validating, Blocked}) then
        Rejected
      else
        var p1 := if settled then p else MovePlan(p, Cancelled);
        Committed(db.(
          plans := db.plans[pid := p1.(tasks := ResetWhere(p.tasks, (t: Task) => t.status == Queued))],
          jobs := CancelWhere(db.jobs, (j: Job) => OfPlan(j, pid) && Stoppable(j.status))))
  }

  /** What blocking for drift makes of the plan of the job's task. */
  function DriftPlan(p: Plan, i: nat): Option<Plan>
    requires i < |p.tasks|
  {
    if p.tasks[i].status == Pending then BlockExecuting(p)
    else if p.tasks[i].status in {Queued, Running, Failed} then BlockExecuting(MoveTask(p, i, Pending))
    else None
  }

  function DoBlockForDrift(db: Db, j: JobId, w: Worker): Outcome {
    if j >= |db.jobs| then Rejected
    else
      var job := db.jobs[j];
      if !Terminal(JobResource, job.status) && !(InFlight(job.status) && HeldBy(job, w)) then Rejected
      else
        var jobs := if Terminal(JobResource, job.status) then db.jobs else db.jobs[j := MoveJob(job, Failed)];
        if job.kind.PlanGeneration? then Committed(db.(jobs := jobs))
        else if !TaskExists(db, job.kind.plan, job.kind.index) then Rejected
        else
          match DriftPlan(db.plans[job.kind.plan], job.kind.index)
          case Some(p) => Committed(db.(plans := db.plans[job.kind.plan := p], jobs := jobs))
          case None => Rejected
  }

  predicate AutomationWork(s: Status) { Stoppable(s) || s == Running }

  /** A plan that stopping automation puts back to `ready`. */
  predicate Paused(p: Plan, project: ProjectId) {
    && p.project == project
    && (Executing(p.status) || exists i | 0 <= i < |p.tasks| :: ActiveStatus(p.tasks[i].status))
  }

  predicate Pausable(s: Status) { s == Ready || Executing(s) || Terminal(PlanResource, s) }

  function PausedPlan(p: Plan): Plan {
    var p1 := if Executing(p.status) then MovePlan(p, Ready) else p;
    p1.(tasks := ResetWhere(p.tasks, (t: Task) => ActiveStatus(t.status)))
  }

  function DoStopAutomation(db: Db, project: ProjectId): Outcome {
    if exists q | q in db.plans :: Paused(db.plans[q], project) && !Pausable(db.plans[q].status) then Rejected
    else Committed(db.(
      plans := map q | q in db.plans ::
        if Paused(db.plans[q], project) then PausedPlan(db.plans[q]) else db.plans[q],
      jobs := CancelWhere(db.jobs, (j: Job) => j.project == project && AutomationWork(j.status))))
  }

  /** The ready plans of a project, oldest first: the rows a query returned. */
  predicate ReadyOrder(db: Db, project: ProjectId, order: seq<PlanId>) {
    && (forall a, b | 0 <= a < b < |order| :: order[a] != order[b])
    && (forall q | q in order :: q in db.plans && db.plans[q].project == project && db.plans[q].status == Ready)
    && (forall q | q in db.plans :: db.plans[q].project == project && db.plans[q].status == Ready ==> q in order)
    && (forall a, b | 0 <= a < b < |order| :: db.plans[order[a]].createdAt <= db.plans[order[b]].createdAt)
  }

  function DoQueueAll(db: Db, order: seq<PlanId>, now: nat): Outcome
    decreases |order|
  {
    if order == [] then Committed(db)
    else if order[0] !in db.plans then Rejected
    else
      match DoQueuePlanTx(db, order[0], db.plans[order[0]].version, true, now) {
        case Committed(db1) => DoQueueAll(db1, order[1..], now)
        case Rejected => Rejected
      }
  }

  function DoSetAutomation(db: Db, project: ProjectId, enabled: bool, version: nat, order: seq<PlanId>, now: nat): Outcome {
    if project !in db.projects || db.projects[project].version != version then Rejected
    else
      var row := db.projects[project].(automation := enabled, version := version + 1);
      var db1 := db.(projects := db.projects[project := row]);
      if enabled then DoQueueAll(db1, order, now) else DoStopAutomation(db1, project)
  }

  // ---- shutdown ---------------------------------------------------------------------

  predicate Owned(j: Job, instance: string) {
    InFlight(j.status) && j.worker.Some? && j.worker.value.instance == instance
  }

  predicate OwnsTask(jobs: seq<Job>, instance: string, pid: PlanId, i: nat) {
    exists k | 0 <= k < |jobs| :: Owned(jobs[k], instance) && OfTask(jobs[k], pid, i)
  }

  function ShutdownJob(j: Job, instance: string, now: nat): Job {
    if !Owned(j, instance) then j
    else if j.kind.PlanGeneration? then Requeue(j, now)
    else MoveJob(j, Cancelled).(worker := None)
  }

  /** The owned tasks of a plan that are running. */
  predicate Interrupts(db: Db, instance: string, pid: PlanId, i: nat) {
    TaskExists(db, pid, i) && OwnsTask(db.jobs, instance, pid, i) && db.plans[pid].tasks[i].status == Running
  }

  function InterruptedPlan(db: Db, instance: string, pid: PlanId): Plan
    requires pid in db.plans
  {
    var p := db.plans[pid];
    p.(tasks := seq(|p.tasks|, i requires 0 <= i < |p.tasks| =>
      if Interrupts(db, instance, pid, i) then Moved(p.tasks[i], Pending) else p.tasks[i]))
  }

  predicate AnyInterrupts(db: Db, instance: string, pid: PlanId)
    requires pid in db.plans
  {
    exists i | 0 <= i < |db.plans[pid].tasks| :: Interrupts(db, instance, pid, i)
  }

  function ShutdownPlan(db: Db, instance: string, pid: PlanId): Option<Plan>
    requires pid in db.plans
  {
    if AnyInterrupts(db, instance, pid) then BlockExecuting(InterruptedPlan(db, instance, pid))
    else Some(db.plans[pid])
  }

  /** A task that a shutdown can neither interrupt nor leave alone. */
  predicate Unfit(plans: map<PlanId, Plan>, pid: PlanId, i: nat) {
    || pid !in plans || i >= |plans[pid].tasks|
    || (var s := plans[pid].tasks[i].status; s != Running && s != Pending && !Terminal(TaskResource, s))
  }

  predicate UnfitOwned(db: Db, instance: string) {
    exists k | 0 <= k < |db.jobs| ::
      && Owned(db.jobs[k], instance) && db.jobs[k].kind.TaskExecution?
      && Unfit(db.plans, db.jobs[k].kind.plan, db.jobs[k].kind.index)
  }

  predicate ShutdownRefused(db: Db, instance: string) {
    || UnfitOwned(db, instance)
    || (exists q | q in db.plans :: ShutdownPlan(db, instance, q).None?)
  }

  function DoShutdown(db: Db, instance: string, now: nat): Outcome {
    if ShutdownRefused(db, instance) then Rejected
    else Committed(db.(
      plans := map q | q in db.plans :: ShutdownPlan(db, instance, q).value,
      jobs := seq(|db.jobs|, k requires 0 <= k < |db.jobs| => ShutdownJob(db.jobs[k], instance, now))))
  }

  // ---- recovery ---------------------------------------------------------------------

  /** The unfinished agent run of a job, when there is one. */
  datatype RunState = RunState(cancelling: bool, started: bool)

  datatype Evidence = Evidence(
    ownerKnown: bool,
    ownerFresh: bool,
    jobLeaseValid: bool,
    workspaceLeaseValid: bool,
    workspaceLockOwned: bool,
    processKnown: bool,
    processAlive: bool,
    heartbeatFresh: bool,
    cancelRequested: bool)  // a reason code of the job or of its run records a cancellation

  predicate CandidateActive(run: Option<RunState>, e: Evidence) {
    if e.processKnown && e.processAlive then true
    else if run.None? then (if e.ownerKnown then e.ownerFresh else e.jobLeaseValid) && e.jobLeaseValid
    else if e.ownerKnown then e.ownerFresh && e.heartbeatFresh
    else e.jobLeaseValid && e.workspaceLeaseValid && e.workspaceLockOwned && e.heartbeatFresh
  }

  predicate CancellationIntent(job: Status, task: Option<Status>, plan: Option<Status>, run: Option<RunState>, e: Evidence) {
    || job == Cancelling
    || task == Some(Cancelling) || task == Some(Cancelled)
    || plan == Some(Cancelling) || plan == Some(Cancelled)
    || e.cancelRequested
    || (run.Some? && run.value.cancelling)
  }

  datatype RecoveryOutcome = UserCancelled | NeverStarted | ProcessLost

  function ChooseOutcome(run: Option<RunState>, intent: bool): RecoveryOutcome {
    if intent then UserCancelled
    else if run.Some? && !run.value.started then NeverStarted
    else ProcessLost
  }

  function OutcomeStatus(o: RecoveryOutcome): Status {
    if o == ProcessLost then Interrupted else Cancelled
  }

  function OutcomeTaskStatus(o: RecoveryOutcome): Status {
    if o == NeverStarted then Pending else OutcomeStatus(o)
  }

  /** What recovery makes of the plan of a lost task job. */
  function RecoverPlan(p: Plan, i: nat, o: RecoveryOutcome): Option<Plan>
    requires i < |p.tasks|
  {
    var s := p.tasks[i].status;
    if Terminal(TaskResource, s) then Some(p)
    else if s != OutcomeTaskStatus(o) && !(ActiveStatus(s) || s == Cancelling) then None
    else
      var p1 := if s == OutcomeTaskStatus(o) then p else MoveTask(p, i, OutcomeTaskStatus(o));
      Some(if o != UserCancelled && Executing(p.status) then MovePlan(p1, Blocked) else p1)
  }

  /** One candidate of ReconcileRuntimeState. */
  function DoRecover(db: Db, j: JobId, run: Option<RunState>, e: Evidence, now: nat): Outcome {
    if j >= |db.jobs| || !(InFlight(db.jobs[j].status) || db.jobs[j].status == Cancelling) then Committed(db)
    else if CandidateActive(run, e) then Committed(db)
    else
      var job := db.jobs[j];
      var known := job.kind.TaskExecution? && TaskExists(db, job.kind.plan, job.kind.index);
      var task := if known then Some(db.plans[job.kind.plan].tasks[job.kind.index].status) else None;
      var plan := if known then Some(db.plans[job.kind.plan].status) else None;
      var intent := CancellationIntent(job.status, task, plan, run, e);
      if !intent && run.None? && task != Some(Running) && task != Some(Cancelling) then
        Committed(db.(jobs := db.jobs[j := Requeue(job, now)]))
      else
        var o := ChooseOutcome(run, intent);
        var jobs := db.jobs[j := MoveJob(job, OutcomeStatus(o)).(worker := None)];
        if !known then Committed(db.(jobs := jobs))
        else
          match RecoverPlan(db.plans[job.kind.plan], job.kind.index, o) {
            case Some(p) => Committed(db.(plans := db.plans[job.kind.plan := p], jobs := jobs))
            case None => Rejected
          }
  }

  datatype Candidate = Candidate(job: JobId, run: Option<RunState>, evidence: Evidence)

  /** A reconciliation pass: its candidates one after the other, committed together. */
  function DoReconcile(db: Db, cs: seq<Candidate>, now: nat): Outcome
    decreases |cs|
  {
    if cs == [] then Committed(db)
    else
      match DoRecover(db, cs[0].job, cs[0].run, cs[0].evidence, now) {
        case Committed(db1) => DoReconcile(db1, cs[1..], now)
        case Rejected => Rejected
      }
  }

  // ---- the protocol -----------------------------------------------------------------

  datatype Step =
    | SavePlan(plan: PlanId, project: ProjectId, problems: nat, compatibility: bool, tasks: seq<NewTask>)
    | QueuePlan(plan: PlanId, version: nat)
    | QueuePlanAutomatically(plan: PlanId)
    | QueueTask(plan: PlanId, index: nat, version: nat)
    | QueueGeneration(project: ProjectId, intake: nat, intakeVersion: nat)
    | Claim(job: JobId, worker: Worker)
    | MarkRunning(job: JobId, worker: Worker)
    | Defer(job: JobId, worker: Worker, delay: nat)
    | Release(job: JobId, worker: Worker)
    | Complete(job: JobId, worker: Worker)
    | Fail(job: JobId, attempt: nat, worker: Worker, retryable: bool, blank: bool)
    | CancelJob(job: JobId, worker: Worker)
    | StartTask(plan: PlanId, index: nat)
    | FinishTask(plan: PlanId, index: nat, success: bool, blank: bool)
    | ReturnPending(plan: PlanId, index: nat, blank: bool)
    | ReturnQueued(plan: PlanId, index: nat, blank: bool)
    | StopTask(plan: PlanId, index: nat, version: nat)
    | StopPlan(plan: PlanId, version: nat)
    | BlockForDrift(job: JobId, worker: Worker)
    | SetAutomation(project: ProjectId, enabled: bool, version: nat, order: seq<PlanId>)
    | Shutdown(instance: string)
    | Recover(job: JobId, run: Option<RunState>, evidence: Evidence)

  function Do(db: Db, s: Step, now: nat): Outcome {
    match s
    case SavePlan(plan, project, problems, compatibility, tasks) =>
      DoSavePlan(db, plan, project, problems, compatibility, tasks, now)
    case QueuePlan(plan, version) => DoQueuePlanTx(db, plan, version, false, now)
    case QueuePlanAutomatically(plan) => DoQueuePlanAutomatically(db, plan, now)
    case QueueTask(plan, index, version) => DoQueueTask(db, plan, index, version, now)
    case QueueGeneration(project, intake, v) => DoQueueGeneration(db, project, intake, v, now)
    case Claim(job, worker) => DoClaim(db, job, worker, now)
    case MarkRunning(job, worker) => DoMarkRunning(db, job, worker)
    case Defer(job, worker, delay) => DoDefer(db, job, worker, delay, now)
    case Release(job, worker) => DoRelease(db, job, worker, now)
    case Complete(job, worker) => DoComplete(db, job, worker)
    case Fail(job, attempt, worker, retryable, blank) => DoFail(db, job, attempt, worker, retryable, blank, now)
    case CancelJob(job, worker) => DoCancelJob(db, job, worker)
    case StartTask(plan, index) => DoStartTask(db, plan, index)
    case FinishTask(plan, index, success, blank) => DoFinishTask(db, plan, index, success, blank, now)
    case ReturnPending(plan, index, blank) => DoReturnPending(db, plan, index, blank)
    case ReturnQueued(plan, index, blank) => DoReturnQueued(db, plan, index, blank)
    case StopTask(plan, index, version) => DoStopTask(db, plan, index, version)
    case StopPlan(plan, version) => DoStopPlan(db, plan, version)
    case BlockForDrift(job, worker) => DoBlockForDrift(db, job, worker)
    case SetAutomation(project, enabled, version, order) => DoSetAutomation(db, project, enabled, version, order, now)
    case Shutdown(instance) => DoShutdown(db, instance, now)
    case Recover(job, run, evidence) => DoRecover(db, job, run, evidence, now)
  }

  /** The state after a transaction: a rejected one leaves the rows as they were. */
  function After(db: Db, o: Outcome, now: nat): Db {
    match o
    case Committed(db') => db'.(clock := now)
    case Rejected => db.(clock := now)
  }

  function Next(db: Db, s: Step, now: nat): Db {
    After(db, Do(db, s, now), now)
  }

  /** What the environment owes a step: the clock moves, a query returned the rows it
      selects, and a worker fails a job with the attempt number it claimed it with. */
  predicate Legal(db: Db, s: Step, now: nat) {
    && now > db.clock
    && (s.SetAutomation? && s.enabled ==> ReadyOrder(db, s.project, s.order))
    && (s.Fail? && s.job < |db.jobs| && InFlight(db.jobs[s.job].status) && HeldBy(db.jobs[s.job], s.worker) ==>
          s.attempt == db.jobs[s.job].attempt)
  }

  predicate Init(db: Db) { db.plans == map[] && db.jobs == [] }

  datatype Event = Event(step: Step, now: nat)

  predicate Follows(states: seq<Db>, events: seq<Event>, i: nat)
    requires i < |events| < |states|
  {
    Legal(states[i], events[i].step, events[i].now) && states[i + 1] == Next(states[i], events[i].step, events[i].now)
  }

  predicate IsRun(states: seq<Db>, events: seq<Event>) {
    && |states| == |events| + 1
    && Init(states[0])
    && forall i | 0 <= i < |events| :: Follows(states, events, i)
  }
}
