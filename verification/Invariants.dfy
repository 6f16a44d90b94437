/** What every step of the protocol keeps: the frontier shape of each plan, the gate
    on started plans, the link between jobs and tasks, conservation of attempts, and
    at most one task job in flight per project. */
module Invariants {
  import opened Lifecycle
  import opened Schedule
  import opened Protocol

  // ---- the invariant ------------------------------------------------------

  predicate Started(p: Plan) {
    Executing(p.status) || p.status == Completed || exists i | 0 <= i < |p.tasks| :: p.tasks[i].status != Pending
  }

  predicate PlanInv(p: Plan, clock: nat) {
    && FrontierShape(p.tasks)
    && (forall i | 0 <= i < |p.tasks| :: p.tasks[i].status == Succeeded ==> Accepted(p.tasks[i]))
    && (forall i | 0 <= i < |p.tasks| :: p.tasks[i].version >= 1)
    && (Started(p) ==> GateOk(p))
    && (p.status == Completed ==> forall i | 0 <= i < |p.tasks| :: p.tasks[i].status == Succeeded)
    && (Executing(p.status) ==> p.startedAt.Some?)
    && (p.startedAt.Some? ==> p.startedAt.value <= clock)
    && p.version >= 1
  }

  /** Attempt accounting of one job. */
  predicate JobInv(j: Job) {
    && j.maxAttempts >= 1 && j.version >= 1
    && j.failures <= j.maxAttempts
    && (j.status == Queued || j.status == RetryWait ==> j.attempt == j.failures < j.maxAttempts)
    && (InFlight(j.status) ==> j.attempt == j.failures + 1 <= j.maxAttempts && j.worker.Some?)
    && (j.status in {Queued, RetryWait, Leased, Running} || Terminal(JobResource, j.status))
  }

  /** A task job names an existing task and was keyed by a version that task has had. */
  predicate JobLinked(plans: map<PlanId, Plan>, j: Job) {
    match j.kind
    case TaskExecution(pid, i) =>
      && pid in plans && i < |plans[pid].tasks|
      && plans[pid].project == j.project
      && j.key.TaskJobKey? && j.key.plan == pid && j.key.index == i
      && j.key.taskVersion <= plans[pid].tasks[i].version
    case PlanGeneration(intake) => j.key.IntakeJobKey?
  }

  predicate UniqueKeysFrom(jobs: seq<Job>, n: nat) {
    forall a, b | n <= a < b < |jobs| :: jobs[a].key != jobs[b].key
  }

  predicate Competing(a: Job, b: Job) {
    && a.kind.TaskExecution? && b.kind.TaskExecution? && a.project == b.project
    && InFlight(a.status) && InFlight(b.status)
  }

  predicate OneInFlight(jobs: seq<Job>) {
    forall a, b | 0 <= a < b < |jobs| :: !Competing(jobs[a], jobs[b])
  }

  predicate JobsInv(db: Db) {
    && (forall k | 0 <= k < |db.jobs| :: JobInv(db.jobs[k]) && JobLinked(db.plans, db.jobs[k]))
    && UniqueKeysFrom(db.jobs, 0)
    && OneInFlight(db.jobs)
  }

  predicate PlansInv(plans: map<PlanId, Plan>, clock: nat) {
    forall q | q in plans :: PlanInv(plans[q], clock)
  }

  /** The invariant of the rows, with every recorded time at most `clock`. */
  predicate RowsOk(db: Db, clock: nat) {
    PlansInv(db.plans, clock) && JobsInv(db)
  }

  predicate Inv(db: Db) { RowsOk(db, db.clock) }

  // ---- how rows may change in one step --------------------------------------

  predicate TaskEvolves(a: Task, b: Task) {
    && b.key == a.key && b.final == a.final && b.deps == a.deps && b.criteria == a.criteria
    && b.version == (if b.status == a.status then a.version else a.version + 1)
    && (a.status == Succeeded ==> b == a)
  }

  predicate PlanEvolves(p: Plan, q: Plan, now: nat) {
    && q.project == p.project && q.executable == p.executable && q.problems == p.problems
    && q.compatibility == p.compatibility && q.baseline == p.baseline && q.createdAt == p.createdAt
    && q.version == (if q.status == p.status then p.version else p.version + 1)
    && (p.status == Completed || p.status == Cancelled ==> q.status == p.status)
    && (Executing(q.status) ==>
          if Executing(p.status) then q.startedAt == p.startedAt else q.startedAt == Some(now))
    && |q.tasks| == |p.tasks|
    && forall i | 0 <= i < |p.tasks| :: TaskEvolves(p.tasks[i], q.tasks[i])
  }

  predicate JobEvolves(a: Job, b: Job) {
    && b.project == a.project && b.kind == a.kind && b.key == a.key && b.maxAttempts == a.maxAttempts
    && b.version == (if b.status == a.status then a.version else a.version + 1)
    && (Terminal(JobResource, a.status) ==> b == a)
    && a.failures <= b.failures
  }

  predicate PlansEvolve(ps: map<PlanId, Plan>, qs: map<PlanId, Plan>, now: nat) {
    && (forall q | q in ps :: q in qs && PlanEvolves(ps[q], qs[q], now))
    && (forall q | q in qs && q !in ps :: !Executing(qs[q].status))
  }

  predicate JobsEvolve(js: seq<Job>, ks: seq<Job>) {
    && |js| <= |ks|
    && forall k | 0 <= k < |js| :: JobEvolves(js[k], ks[k])
  }

  predicate Evolves(db: Db, db': Db, now: nat) {
    PlansEvolve(db.plans, db'.plans, now) && JobsEvolve(db.jobs, db'.jobs)
  }

  /** A job that appeared in this step: queued, linked, and keyed by a version the
      task did not have before. */
  predicate FreshJob(db: Db, plans': map<PlanId, Plan>, j: Job) {
    && j.status == Queued && JobInv(j) && JobLinked(plans', j)
    && (forall k | 0 <= k < |db.jobs| :: db.jobs[k].key != j.key)
  }

  /** No task job is leased or running that was not so before. */
  predicate NoNewFlight(js: seq<Job>, ks: seq<Job>) {
    |js| <= |ks| && forall k | 0 <= k < |ks| :: InFlight(ks[k].status) ==> k < |js| && InFlight(js[k].status)
  }

  predicate StepKeeps(db: Db, db': Db, now: nat) {
    && Evolves(db, db', now)
    && PlansInv(db'.plans, now)
    && (forall k | 0 <= k < |db.jobs| :: JobInv(db'.jobs[k]))
    && (forall k | |db.jobs| <= k < |db'.jobs| :: FreshJob(db, db'.plans, db'.jobs[k]))
    && UniqueKeysFrom(db'.jobs, |db.jobs|)
    && NoNewFlight(db.jobs, db'.jobs)
  }

  lemma LinkedStays(ps: map<PlanId, Plan>, qs: map<PlanId, Plan>, now: nat, j: Job, j': Job)
    requires PlansEvolve(ps, qs, now) && JobEvolves(j, j') && JobLinked(ps, j)
    ensures JobLinked(qs, j')
  {
  }

  lemma StepKeepsInv(db: Db, db': Db, now: nat)
    requires RowsOk(db, now) && StepKeeps(db, db', now)
    ensures Inv(db'.(clock := now))
  {
    var n := |db.jobs|;
    forall k | 0 <= k < |db'.jobs| ensures JobInv(db'.jobs[k]) && JobLinked(db'.plans, db'.jobs[k]) {
      if k < n {
        LinkedStays(db.plans, db'.plans, now, db.jobs[k], db'.jobs[k]);
      }
    }
    forall a, b | 0 <= a < b < |db'.jobs| ensures db'.jobs[a].key != db'.jobs[b].key {
      if b < n {
        assert JobEvolves(db.jobs[a], db'.jobs[a]) && JobEvolves(db.jobs[b], db'.jobs[b]);
      } else if a < n {
        assert FreshJob(db, db'.plans, db'.jobs[b]) && JobEvolves(db.jobs[a], db'.jobs[a]);
      }
    }
    forall a, b | 0 <= a < b < |db'.jobs| ensures !Competing(db'.jobs[a], db'.jobs[b]) {
      if b < n {
        assert JobEvolves(db.jobs[a], db'.jobs[a]) && JobEvolves(db.jobs[b], db'.jobs[b]);
        assert !Competing(db.jobs[a], db.jobs[b]);
      }
    }
  }

  // ---- building blocks ---------------------------------------------------------

  /** A plan row that may replace p in one step. */
  predicate PlanStep(p: Plan, q: Plan, now: nat) {
    PlanEvolves(p, q, now) && PlanInv(q, now)
  }

  lemma PlanKept(p: Plan, now: nat)
    requires PlanInv(p, now)
    ensures PlanStep(p, p, now)
  {
  }

  /** A task is the one task of its plan that may change: it stands at the frontier. */
  predicate AtFrontier(ts: seq<Task>, i: nat) {
    && i < |ts|
    && ts[i].status != Succeeded
    && (forall k | 0 <= k < i :: ts[k].status == Succeeded)
    && (forall k | i < k < |ts| :: ts[k].status == Pending)
  }

  lemma FrontierFound(ts: seq<Task>, i: nat)
    requires FrontierShape(ts) && i < |ts| && ts[i].status != Succeeded
    requires ts[i].status != Pending || i == Frontier(ts)
    ensures AtFrontier(ts, i)
  {
  }

  /** Any row may replace the task at the frontier without breaking the shape. */
  lemma FrontierReplaced(ts: seq<Task>, i: nat, t: Task)
    requires AtFrontier(ts, i)
    ensures FrontierShape(ts[i := t])
  {
  }

  /** Replacing the frontier task and possibly the plan status. */
  lemma FrontierStep(p: Plan, q: Plan, now: nat, i: nat)
    requires PlanInv(p, now) && AtFrontier(p.tasks, i) && GateOk(p)
    requires q == p.(status := q.status, version := q.version, startedAt := q.startedAt, tasks := q.tasks)
    requires |q.tasks| == |p.tasks| && q.tasks == p.tasks[i := q.tasks[i]]
    requires TaskEvolves(p.tasks[i], q.tasks[i])
    requires q.tasks[i].status == Succeeded ==> Accepted(q.tasks[i])
    requires q.version == (if q.status == p.status then p.version else p.version + 1)
    requires p.status == Completed || p.status == Cancelled ==> q.status == p.status
    requires q.status == Completed && p.status != Completed ==>
      forall k | 0 <= k < |q.tasks| :: q.tasks[k].status == Succeeded
    requires Executing(q.status) ==> if Executing(p.status) then q.startedAt == p.startedAt else q.startedAt == Some(now)
    requires q.startedAt == p.startedAt || q.startedAt == Some(now)
    ensures PlanStep(p, q, now)
  {
    FrontierReplaced(p.tasks, i, q.tasks[i]);
    GateStays(p, q);
    forall k | 0 <= k < |p.tasks| ensures TaskEvolves(p.tasks[k], q.tasks[k]) {
    }
  }

  /** The parts of a plan the graph gate reads. */
  predicate SameGraph(p: Plan, q: Plan) {
    && q.executable == p.executable && q.problems == p.problems && q.compatibility == p.compatibility
    && |q.tasks| == |p.tasks|
    && forall i | 0 <= i < |p.tasks| ::
         && q.tasks[i].key == p.tasks[i].key && q.tasks[i].final == p.tasks[i].final
         && q.tasks[i].deps == p.tasks[i].deps && q.tasks[i].criteria == p.tasks[i].criteria
  }

  lemma GateStays(p: Plan, q: Plan)
    requires GateOk(p) && SameGraph(p, q)
    ensures GateOk(q)
  {
  }

  lemma OnePlan(db: Db, pid: PlanId, q: Plan, now: nat)
    requires RowsOk(db, now)
    requires pid in db.plans && PlanStep(db.plans[pid], q, now)
    ensures StepKeeps(db, db.(plans := db.plans[pid := q]), now)
  {
    Unchanged(db, now);
  }

  lemma Unchanged(db: Db, now: nat)
    requires RowsOk(db, now)
    ensures StepKeeps(db, db, now)
  {
  }

  lemma OneJob(db: Db, j: JobId, job: Job, now: nat)
    requires RowsOk(db, now) && j < |db.jobs|
    requires JobEvolves(db.jobs[j], job) && JobInv(job) && (InFlight(job.status) ==> InFlight(db.jobs[j].status))
    ensures StepKeeps(db, db.(jobs := db.jobs[j := job]), now)
  {
    Unchanged(db, now);
  }

  /** Combining a change of the plans with a change of the existing jobs. */
  lemma Combined(db: Db, plans: map<PlanId, Plan>, jobs: seq<Job>, now: nat)
    requires StepKeeps(db, db.(plans := plans), now)
    requires StepKeeps(db, db.(jobs := jobs), now) && |jobs| == |db.jobs|
    ensures StepKeeps(db, db.(plans := plans, jobs := jobs), now)
  {
  }

  lemma CancelledJobs(db: Db, pick: Job -> bool, now: nat)
    requires RowsOk(db, now)
    requires forall j | pick(j) :: j.status in {Queued, RetryWait, Leased, Running}
    ensures StepKeeps(db, db.(jobs := CancelWhere(db.jobs, pick)), now)
  {
    Unchanged(db, now);
  }

  /** Queueing a task creates exactly one new job: its idempotency key is free. */
  lemma TaskQueued(db: Db, pid: PlanId, q: Plan, i: nat, now: nat)
    requires RowsOk(db, now)
    requires pid in db.plans && q.project in db.projects && PlanStep(db.plans[pid], q, now)
    requires i < |q.tasks| && q.tasks[i].version > db.plans[pid].tasks[i].version
    ensures var db' := WithTaskJob(db, pid, q, i, now);
      && StepKeeps(db, db', now)
      && |db'.jobs| == |db.jobs| + 1 && db'.jobs[..|db.jobs|] == db.jobs
  {
    var job := TaskJob(db.projects, pid, q, i, now);
    forall k | 0 <= k < |db.jobs| ensures db.jobs[k].key != job.key {
      assert JobLinked(db.plans, db.jobs[k]);
    }
    OnePlan(db, pid, q, now);
    var db' := WithTaskJob(db, pid, q, i, now);
    assert db'.jobs == db.jobs + [job];
    assert FreshJob(db, db'.plans, job);
  }

  // ---- every step keeps the invariant --------------------------------------------

  lemma SavePlanKeeps(db: Db, pid: PlanId, project: ProjectId, problems: nat, compatibility: bool,
                      tasks: seq<NewTask>, now: nat)
    requires RowsOk(db, now)
    requires DoSavePlan(db, pid, project, problems, compatibility, tasks, now).Committed?
    ensures StepKeeps(db, DoSavePlan(db, pid, project, problems, compatibility, tasks, now).db, now)
  {
    Unchanged(db, now);
  }

  /** The plan row after queueing its next task. */
  lemma QueuedPlanStep(p: Plan, automatic: bool, now: nat)
    requires PlanInv(p, now)
    requires NextTask(p, automatic, None).Chosen?
    requires p.status in {Ready, Blocked, Interrupted, Running}
    requires Retryable(p.tasks[NextTask(p, automatic, None).index].status)
    ensures var k := NextTask(p, automatic, None).index;
      var p1 := if p.status == Running then p else MovePlan(p, Running).(startedAt := Some(now));
      PlanStep(p, MoveTask(p1, k, Queued), now)
  {
    var k := NextTask(p, automatic, None).index;
    var p1 := if p.status == Running then p else MovePlan(p, Running).(startedAt := Some(now));
    FrontierFound(p.tasks, k);
    FrontierStep(p, MoveTask(p1, k, Queued), now, k);
  }

  lemma QueueTaskKeeps(db: Db, pid: PlanId, i: nat, version: nat, now: nat)
    requires RowsOk(db, now)
    requires DoQueueTask(db, pid, i, version, now).Committed?
    ensures StepKeeps(db, DoQueueTask(db, pid, i, version, now).db, now)
  {
    var p := db.plans[pid];
    QueuedPlanStep(p, false, now);
    var p1 := if p.status == Running then p else MovePlan(p, Running).(startedAt := Some(now));
    TaskQueued(db, pid, MoveTask(p1, i, Queued), i, now);
  }

  lemma QueueGenerationKeeps(db: Db, project: ProjectId, intake: nat, v: nat, now: nat)
    requires RowsOk(db, now) && project in db.projects
    ensures StepKeeps(db, DoQueueGeneration(db, project, intake, v, now).db, now)
  {
  }

  lemma JobStepKeeps(db: Db, s: Step, now: nat)
    requires RowsOk(db, now) && Legal(db, s, now) && Do(db, s, now).Committed?
    requires s.MarkRunning? || s.Defer? || s.Release? || s.Complete? || s.Fail? || s.CancelJob?
    ensures StepKeeps(db, Do(db, s, now).db, now)
  {
    hide StepKeeps, PlanInv, DoSavePlan, DoQueuePlanTx, DoQueuePlanAutomatically, DoQueueTask, DoQueueGeneration, DoSetAutomation,
      DoShutdown, DoRecover, DoFinishTask, DoStartTask, DoStopTask, DoStopPlan, DoBlockForDrift;
    Unchanged(db, now);
    var db' := Do(db, s, now).db;
    var j := s.job;
    assert JobInv(db.jobs[j]);
    if db' != db {
      OneJob(db, j, db'.jobs[j], now);
    }
  }

  /** Only the plan status changes, and it does not become executing or completed. */
  lemma StatusStep(p: Plan, q: Plan, now: nat)
    requires PlanInv(p, now)
    requires q == p.(status := q.status, version := q.version)
    requires q.version == (if q.status == p.status then p.version else p.version + 1)
    requires q.status != p.status ==>
      p.status != Completed && p.status != Cancelled && q.status != Completed && !Executing(q.status)
    ensures PlanStep(p, q, now)
  {
  }

  /** Setting a queued task aside at the gate recheck, and blocking the plan. */
  lemma StartBlockedStep(p: Plan, q: Plan, i: nat, now: nat)
    requires PlanInv(p, now) && i < |p.tasks|
    requires var p1 := if p.tasks[i].status == Queued then MoveTask(p, i, Pending) else p;
      q == if p.status == Ready || Executing(p.status) then MovePlan(p1, Blocked) else p1
    ensures PlanStep(p, q, now)
  {
    hide GateOk, PlanStep;
    if p.tasks[i].status == Queued {
      FrontierFound(p.tasks, i);
      assert Started(p);
      FrontierStep(p, q, now, i);
    } else {
      StatusStep(p, q, now);
    }
  }

  lemma StartRunningStep(p: Plan, q: Plan, i: nat, now: nat)
    requires PlanInv(p, now) && i < |p.tasks| && p.tasks[i].status == Queued && p.status == Running
    requires q == MoveTask(p, i, Running) || q == MovePlan(MoveTask(p, i, Running), Validating)
    ensures PlanStep(p, q, now)
  {
    hide GateOk, PlanStep;
    FrontierFound(p.tasks, i);
    assert Started(p);
    FrontierStep(p, q, now, i);
  }

  lemma StartPlanStep(p: Plan, i: nat, now: nat)
    requires PlanInv(p, now) && i < |p.tasks| && StartPlan(p, i).Some?
    ensures PlanStep(p, StartPlan(p, i).value, now)
  {
    hide NextTask, PlanInv, PlanStep;
    var q := StartPlan(p, i).value;
    if NextTask(p, false, Some(i)) != Chosen(i) || p.status != Running {
      StartBlockedStep(p, q, i, now);
    } else {
      StartRunningStep(p, q, i, now);
    }
  }

  lemma StartTaskKeeps(db: Db, pid: PlanId, i: nat, now: nat)
    requires RowsOk(db, now)
    requires DoStartTask(db, pid, i).Committed?
    ensures StepKeeps(db, DoStartTask(db, pid, i).db, now)
  {
    StartPlanStep(db.plans[pid], i, now);
    OnePlan(db, pid, StartPlan(db.plans[pid], i).value, now);
  }

  lemma JudgedAccepted(t: Task)
    ensures Accepted(Judged(t, true))
  {
    forall c | c in t.criteria ensures CriterionMet(BuildResults(t.criteria, Passed), c) {
      BuiltResultFound(t.criteria, Passed, c);
    }
  }

  lemma JudgedStep(p: Plan, i: nat, success: bool, now: nat)
    requires PlanInv(p, now) && i < |p.tasks| && p.tasks[i].status == Running
    ensures AtFrontier(p.tasks, i) && GateOk(p)
    ensures PlanStep(p, JudgedPlan(p, i, success), now)
  {
    FrontierFound(p.tasks, i);
    assert Started(p);
    JudgedAccepted(p.tasks[i]);
    FrontierStep(p, JudgedPlan(p, i, success), now, i);
  }

  /** Finishing the frontier task and queueing its successor in one transaction. */
  lemma FinishedThenQueued(p: Plan, i: nat, k: nat, now: nat)
    requires PlanInv(p, now)
    requires i < |p.tasks| && p.tasks[i].status == Running
    requires NextTask(JudgedPlan(p, i, true), true, None) == Chosen(k) && k < |p.tasks|
    ensures k == i + 1 && PlanStep(p, MoveTask(JudgedPlan(p, i, true), k, Queued), now)
  {
    var p1 := JudgedPlan(p, i, true);
    JudgedStep(p, i, true, now);
    assert forall n | 0 <= n <= i :: p1.tasks[n].status == Succeeded;
    assert i + 1 < |p.tasks| ==> p1.tasks[i + 1].status == Pending;
    QueuedAfter(p, p1, i, now);
  }

  lemma QueuedAfter(p: Plan, p1: Plan, i: nat, now: nat)
    requires i + 1 < |p.tasks| && PlanStep(p, p1, now) && GateOk(p1)
    requires p1 == p.(tasks := p.tasks[i := p1.tasks[i]])
    requires AtFrontier(p1.tasks, i + 1) && p1.tasks[i + 1].status == Pending
    ensures PlanStep(p, MoveTask(p1, i + 1, Queued), now)
  {
    var q := MoveTask(p1, i + 1, Queued);
    FrontierStep(p1, q, now, i + 1);
    forall n | 0 <= n < |p.tasks| ensures TaskEvolves(p.tasks[n], q.tasks[n]) {
      assert TaskEvolves(p.tasks[n], p1.tasks[n]) && TaskEvolves(p1.tasks[n], q.tasks[n]);
      assert n != i ==> p1.tasks[n] == p.tasks[n];
      assert n == i ==> q.tasks[n] == p1.tasks[n];
    }
  }

  lemma SettledStep(p: Plan, i: nat, success: bool, automation: bool, now: nat)
    requires PlanInv(p, now) && i < |p.tasks| && p.tasks[i].status == Running
    requires FinishPlan(p, i, success, automation).Settled?
    ensures PlanStep(p, FinishPlan(p, i, success, automation).plan, now)
  {
    hide GateOk, NextTask, PlanInv, PlanStep, Accepted, FrontierShape;
    var p1 := JudgedPlan(p, i, success);
    var q := FinishPlan(p, i, success, automation).plan;
    JudgedStep(p, i, success, now);
    JudgedAccepted(p.tasks[i]);
    assert q == p1.(status := q.status, version := q.version);
    if q.status == Completed && p.status != Completed {
      assert forall k | 0 <= k < |p.tasks| :: p1.tasks[k].status == Succeeded;
    }
    FrontierStep(p, q, now, i);
  }

  lemma ContinuedMeans(p: Plan, i: nat, success: bool, automation: bool)
    requires i < |p.tasks| && FinishPlan(p, i, success, automation).Continued?
    ensures var f := FinishPlan(p, i, success, automation);
      && success && automation && NextTask(JudgedPlan(p, i, true), true, None) == Chosen(f.next)
      && f.next < |p.tasks| && f.plan == MoveTask(JudgedPlan(p, i, true), f.next, Queued)
  {
  }

  lemma FinishTaskKeeps(db: Db, pid: PlanId, i: nat, success: bool, blank: bool, db': Db, now: nat)
    requires RowsOk(db, now)
    requires DoFinishTask(db, pid, i, success, blank, now) == Committed(db')
    ensures StepKeeps(db, db', now)
  {
    hide StepKeeps, PlanStep, FinishPlan, PlanInv, NextTask;
    Unchanged(db, now);
    var p := db.plans[pid];
    if p.tasks[i].status == Running {
      var automation := db.projects[p.project].automation;
      match FinishPlan(p, i, success, automation) {
        case Settled(q) =>
          SettledStep(p, i, success, automation, now);
          OnePlan(db, pid, q, now);
        case Continued(q, k) =>
          ContinuedMeans(p, i, success, automation);
          FinishedThenQueued(p, i, k, now);
          assert q.tasks[k].version > p.tasks[k].version;
          assert q.project == p.project;
          TaskQueued(db, pid, q, k, now);
      }
    }
  }

  lemma ReturnedStep(p: Plan, i: nat, to: Status, now: nat)
    requires PlanInv(p, now) && i < |p.tasks| && p.tasks[i].status == Running && (to == Pending || to == Queued)
    ensures PlanStep(p, MoveTask(p, i, to), now)
  {
    hide GateOk, PlanStep;
    FrontierFound(p.tasks, i);
    assert Started(p);
    FrontierStep(p, MoveTask(p, i, to), now, i);
  }

  lemma ReturnTaskKeeps(db: Db, pid: PlanId, i: nat, blank: bool, now: nat)
    requires RowsOk(db, now)
    ensures DoReturnPending(db, pid, i, blank).Committed? ==> StepKeeps(db, DoReturnPending(db, pid, i, blank).db, now)
    ensures DoReturnQueued(db, pid, i, blank).Committed? ==> StepKeeps(db, DoReturnQueued(db, pid, i, blank).db, now)
  {
    hide StepKeeps, PlanStep, PlanInv;
    Unchanged(db, now);
    if TaskExists(db, pid, i) && db.plans[pid].tasks[i].status == Running {
      ReturnedStep(db.plans[pid], i, Pending, now);
      ReturnedStep(db.plans[pid], i, Queued, now);
      OnePlan(db, pid, MoveTask(db.plans[pid], i, Pending), now);
      OnePlan(db, pid, MoveTask(db.plans[pid], i, Queued), now);
    }
  }

  lemma StopTaskKeeps(db: Db, pid: PlanId, i: nat, version: nat, now: nat)
    requires RowsOk(db, now)
    requires DoStopTask(db, pid, i, version).Committed?
    ensures StepKeeps(db, DoStopTask(db, pid, i, version).db, now)
  {
    hide StepKeeps, PlanStep, GateOk;
    Unchanged(db, now);
    var p := db.plans[pid];
    if p.tasks[i].status == Queued {
      FrontierFound(p.tasks, i);
      assert Started(p);
      var q := MoveTask(p, i, Pending);
      FrontierStep(p, q, now, i);
      OnePlan(db, pid, q, now);
      var pick := (j: Job) => OfTask(j, pid, i) && Stoppable(j.status);
      CancelledJobs(db, pick, now);
      Combined(db, db.plans[pid := q], CancelWhere(db.jobs, pick), now);
    }
  }

  lemma ResetShape(ts: seq<Task>, pick: Task -> bool)
    requires FrontierShape(ts)
    requires forall t | pick(t) :: ActiveStatus(t.status)
    ensures FrontierShape(ResetWhere(ts, pick))
  {
  }

  /** Putting active tasks back to pending, with a plan status that is not executing. */
  lemma ResetStep(p: Plan, q: Plan, pick: Task -> bool, now: nat)
    requires PlanInv(p, now)
    requires forall t | pick(t) :: ActiveStatus(t.status)
    requires q == p.(status := q.status, version := q.version, tasks := ResetWhere(p.tasks, pick))
    requires q.version == (if q.status == p.status then p.version else p.version + 1)
    requires q.status != p.status ==>
      p.status != Completed && p.status != Cancelled && q.status != Completed && !Executing(q.status)
    ensures PlanStep(p, q, now)
  {
    ResetShape(p.tasks, pick);
    forall k | 0 <= k < |p.tasks|
      ensures TaskEvolves(p.tasks[k], q.tasks[k]) && q.tasks[k].version >= 1
      ensures q.tasks[k].status != Pending ==> q.tasks[k] == p.tasks[k]
    {
      assert pick(p.tasks[k]) ==> ActiveStatus(p.tasks[k].status);
    }
    if Started(q) {
      assert Started(p);
      GateStays(p, q);
    }
  }

  lemma StopPlanKeeps(db: Db, pid: PlanId, version: nat, now: nat)
    requires RowsOk(db, now)
    requires DoStopPlan(db, pid, version).Committed?
    ensures StepKeeps(db, DoStopPlan(db, pid, version).db, now)
  {
    hide StepKeeps, PlanStep, GateOk, FrontierShape;
    var db' := DoStopPlan(db, pid, version).db;
    var q := db'.plans[pid];
    ResetStep(db.plans[pid], q, (t: Task) => t.status == Queued, now);
    OnePlan(db, pid, q, now);
    CancelledJobs(db, (j: Job) => OfPlan(j, pid) && Stoppable(j.status), now);
    Combined(db, db.plans[pid := q], db'.jobs, now);
  }

  /** Moving an executing plan to blocked after its frontier task was set aside. */
  lemma BlockedStep(p: Plan, q: Plan, i: nat, now: nat)
    requires PlanInv(p, now) && i < |p.tasks|
    requires |q.tasks| == |p.tasks|
    requires q.tasks == p.tasks || (p.tasks[i].status !in {Succeeded, Pending} && q.tasks == p.tasks[i := q.tasks[i]])
    requires TaskEvolves(p.tasks[i], q.tasks[i])
    requires q.tasks[i].status == Succeeded ==> p.tasks[i].status == Succeeded
    requires q == p.(status := q.status, version := q.version, tasks := q.tasks)
    requires (q.status == p.status && q.version == p.version) || (Executing(p.status) && q.status == Blocked && q.version == p.version + 1)
    ensures PlanStep(p, q, now)
  {
    if q.tasks == p.tasks {
      StatusStep(p, q, now);
    } else {
      FrontierFound(p.tasks, i);
      assert Started(p);
      FrontierStep(p, q, now, i);
    }
  }

  lemma DriftPlanStep(p: Plan, i: nat, now: nat)
    requires PlanInv(p, now) && i < |p.tasks| && DriftPlan(p, i).Some?
    ensures PlanStep(p, DriftPlan(p, i).value, now)
  {
    hide PlanInv, PlanStep;
    BlockedStep(p, DriftPlan(p, i).value, i, now);
  }

  lemma BlockForDriftKeeps(db: Db, j: JobId, w: Worker, db': Db, now: nat)
    requires RowsOk(db, now)
    requires DoBlockForDrift(db, j, w) == Committed(db')
    ensures StepKeeps(db, db', now)
  {
    hide StepKeeps, PlanStep, PlanInv, DriftPlan;
    Unchanged(db, now);
    var job := db.jobs[j];
    assert JobInv(job);
    if db'.jobs != db.jobs {
      OneJob(db, j, db'.jobs[j], now);
    }
    if job.kind.TaskExecution? {
      var pid, i := job.kind.plan, job.kind.index;
      DriftPlanStep(db.plans[pid], i, now);
      OnePlan(db, pid, db'.plans[pid], now);
      Combined(db, db'.plans, db'.jobs, now);
    }
  }

  lemma StopAutomationKeeps(db: Db, project: ProjectId, now: nat)
    requires RowsOk(db, now)
    requires DoStopAutomation(db, project).Committed?
    ensures StepKeeps(db, DoStopAutomation(db, project).db, now)
  {
    hide StepKeeps, PlanStep, PlanInv, JobInv;
    var db' := DoStopAutomation(db, project).db;
    forall q | q in db.plans ensures PlanStep(db.plans[q], db'.plans[q], now) {
      PlanKept(db.plans[q], now);
      if Paused(db.plans[q], project) {
        ResetStep(db.plans[q], PausedPlan(db.plans[q]), (t: Task) => ActiveStatus(t.status), now);
      }
    }
    PlansStepKeeps(db, db'.plans, now);
    CancelledJobs(db, (j: Job) => j.project == project && AutomationWork(j.status), now);
    Combined(db, db'.plans, db'.jobs, now);
  }

  lemma RecoverPlanStep(p: Plan, i: nat, o: RecoveryOutcome, now: nat)
    requires PlanInv(p, now) && i < |p.tasks| && RecoverPlan(p, i, o).Some?
    ensures PlanStep(p, RecoverPlan(p, i, o).value, now)
  {
    hide PlanInv, PlanStep, GateOk, FrontierShape;
    var q := RecoverPlan(p, i, o).value;
    assert q.tasks == p.tasks || q.tasks == p.tasks[i := q.tasks[i]];
    BlockedStep(p, q, i, now);
  }

  lemma RecoverKeeps(db: Db, j: JobId, run: Option<RunState>, e: Evidence, db': Db, now: nat)
    requires RowsOk(db, now)
    requires DoRecover(db, j, run, e, now) == Committed(db')
    ensures StepKeeps(db, db', now)
  {
    hide StepKeeps, PlanInv, PlanStep, FrontierShape, CandidateActive, CancellationIntent;
    Unchanged(db, now);
    if db' != db {
      var job := db.jobs[j];
      assert JobInv(job) && JobLinked(db.plans, job);
      var job' := db'.jobs[j];
      assert JobEvolves(job, job') && JobInv(job') && !InFlight(job'.status);
      hide JobInv, JobEvolves;
      OneJob(db, j, job', now);
      if db'.plans != db.plans {
        var pid, i := job.kind.plan, job.kind.index;
        var o :| RecoverPlan(db.plans[pid], i, o) == Some(db'.plans[pid]);
        RecoverPlanStep(db.plans[pid], i, o, now);
        OnePlan(db, pid, db'.plans[pid], now);
        Combined(db, db'.plans, db'.jobs, now);
      }
    }
  }

  // ---- claiming -------------------------------------------------------------------

  lemma ClaimKeeps(db: Db, j: JobId, w: Worker, now: nat)
    requires RowsOk(db, now) && DoClaim(db, j, w, now).Committed?
    ensures RowsOk(DoClaim(db, j, w, now).db, now)
    ensures Evolves(db, DoClaim(db, j, w, now).db, now)
  {
    var db' := DoClaim(db, j, w, now).db;
    Unchanged(db, now);
    assert JobInv(db.jobs[j]);
    forall k | 0 <= k < |db.jobs| ensures JobInv(db'.jobs[k]) && JobLinked(db'.plans, db'.jobs[k]) {
      assert JobLinked(db.plans, db.jobs[k]) && JobInv(db.jobs[k]);
    }
    forall a, b | 0 <= a < b < |db'.jobs| ensures !Competing(db'.jobs[a], db'.jobs[b]) {
      assert !Competing(db.jobs[a], db.jobs[b]);
      assert db.jobs[j].kind.TaskExecution? ==> ProjectIdle(db, db.jobs[j].project);
    }
  }

  // ---- shutdown --------------------------------------------------------------------

  lemma ShutdownPlanStep(db: Db, instance: string, pid: PlanId, now: nat)
    requires RowsOk(db, now) && pid in db.plans && ShutdownPlan(db, instance, pid).Some?
    ensures PlanStep(db.plans[pid], ShutdownPlan(db, instance, pid).value, now)
  {
    hide PlanInv, PlanStep;
    var p := db.plans[pid];
    var q := ShutdownPlan(db, instance, pid).value;
    if AnyInterrupts(db, instance, pid) {
      var i :| 0 <= i < |p.tasks| && Interrupts(db, instance, pid, i);
      OnlyOneInterrupted(db, instance, pid, i, now);
      BlockedStep(p, q, i, now);
    } else {
      PlanKept(p, now);
    }
  }

  lemma OnlyOneInterrupted(db: Db, instance: string, pid: PlanId, i: nat, now: nat)
    requires PlansInv(db.plans, now) && pid in db.plans && Interrupts(db, instance, pid, i)
    ensures InterruptedPlan(db, instance, pid) == MoveTask(db.plans[pid], i, Pending)
  {
  }

  lemma ShutdownJobStep(j: Job, instance: string, now: nat)
    requires JobInv(j)
    ensures JobEvolves(j, ShutdownJob(j, instance, now)) && JobInv(ShutdownJob(j, instance, now))
    ensures InFlight(ShutdownJob(j, instance, now).status) ==> InFlight(j.status)
  {
  }

  lemma JobsStepKeeps(db: Db, jobs: seq<Job>, now: nat)
    requires RowsOk(db, now) && |jobs| == |db.jobs|
    requires forall k | 0 <= k < |jobs| ::
      JobEvolves(db.jobs[k], jobs[k]) && JobInv(jobs[k]) && (InFlight(jobs[k].status) ==> InFlight(db.jobs[k].status))
    ensures StepKeeps(db, db.(jobs := jobs), now)
  {
  }

  lemma PlansStepKeeps(db: Db, plans: map<PlanId, Plan>, now: nat)
    requires RowsOk(db, now) && plans.Keys == db.plans.Keys
    requires forall q | q in plans :: PlanStep(db.plans[q], plans[q], now)
    ensures StepKeeps(db, db.(plans := plans), now)
  {
  }

  lemma ShutdownKeeps(db: Db, instance: string, now: nat)
    requires RowsOk(db, now) && DoShutdown(db, instance, now).Committed?
    ensures StepKeeps(db, DoShutdown(db, instance, now).db, now)
  {
    var db' := DoShutdown(db, instance, now).db;
    assert StepKeeps(db, db.(plans := db'.plans), now) by {
      forall q | q in db.plans ensures PlanStep(db.plans[q], db'.plans[q], now) {
        ShutdownPlanStep(db, instance, q, now);
      }
      PlansStepKeeps(db, db'.plans, now);
    }
    assert StepKeeps(db, db.(jobs := db'.jobs), now) by {
      forall k | 0 <= k < |db.jobs| {
        ShutdownJobStep(db.jobs[k], instance, now);
      }
      JobsStepKeeps(db, db'.jobs, now);
    }
    Combined(db, db'.plans, db'.jobs, now);
  }

  // ---- starting automation -----------------------------------------------------------

  /** A step that changes only the plans in `touched` and adds jobs at the end. */
  predicate KeepsWithin(db: Db, db': Db, touched: seq<PlanId>, now: nat) {
    && StepKeeps(db, db', now)
    && (forall k | 0 <= k < |db.jobs| :: db'.jobs[k] == db.jobs[k])
    && (forall q | q in db.plans && q !in touched :: db'.plans[q] == db.plans[q])
    && db'.plans.Keys == db.plans.Keys
  }

  lemma PlansKeptTwice(db: Db, db1: Db, db2: Db, pid: PlanId, rest: seq<PlanId>, now: nat)
    requires KeepsWithin(db, db1, [pid], now) && KeepsWithin(db1, db2, rest, now) && pid !in rest
    ensures PlansEvolve(db.plans, db2.plans, now)
    ensures forall q | q in db.plans && q !in [pid] + rest :: db2.plans[q] == db.plans[q]
  {
    forall q | q in db.plans
      ensures q in db2.plans && PlanEvolves(db.plans[q], db2.plans[q], now)
      ensures q !in [pid] + rest ==> db2.plans[q] == db.plans[q]
    {
      if q == pid {
        assert db2.plans[q] == db1.plans[q];
      } else {
        assert q !in [pid] && db1.plans[q] == db.plans[q];
      }
    }
  }

  lemma JobsKeptTwice(db: Db, db1: Db, db2: Db, pid: PlanId, rest: seq<PlanId>, now: nat)
    requires KeepsWithin(db, db1, [pid], now) && KeepsWithin(db1, db2, rest, now)
    ensures forall k | |db.jobs| <= k < |db2.jobs| :: FreshJob(db, db2.plans, db2.jobs[k])
    ensures UniqueKeysFrom(db2.jobs, |db.jobs|)
  {
    var n, n1 := |db.jobs|, |db1.jobs|;
    forall k | n <= k < |db2.jobs| ensures FreshJob(db, db2.plans, db2.jobs[k]) {
      if k < n1 {
        assert FreshJob(db, db1.plans, db1.jobs[k]);
        LinkedStays(db1.plans, db2.plans, now, db1.jobs[k], db2.jobs[k]);
      } else {
        assert FreshJob(db1, db2.plans, db2.jobs[k]);
        assert forall m | 0 <= m < n :: db1.jobs[m] == db.jobs[m];
      }
    }
    forall a, b | n <= a < b < |db2.jobs| ensures db2.jobs[a].key != db2.jobs[b].key {
      if b < n1 {
        assert db1.jobs[a].key != db1.jobs[b].key;
      } else if a < n1 {
        assert FreshJob(db1, db2.plans, db2.jobs[b]) && db1.jobs[a].key != db2.jobs[b].key;
      }
    }
  }

  lemma KeepsTwice(db: Db, db1: Db, db2: Db, pid: PlanId, rest: seq<PlanId>, now: nat)
    requires RowsOk(db, now) && KeepsWithin(db, db1, [pid], now) && KeepsWithin(db1, db2, rest, now) && pid !in rest
    ensures KeepsWithin(db, db2, [pid] + rest, now)
  {
    PlansKeptTwice(db, db1, db2, pid, rest, now);
    JobsKeptTwice(db, db1, db2, pid, rest, now);
    Unchanged(db, now);
    forall k | 0 <= k < |db.jobs| ensures db2.jobs[k] == db.jobs[k] {
      assert db1.jobs[k] == db.jobs[k];
    }
    assert NoNewFlight(db.jobs, db2.jobs);
  }

  /** What a committed queueing step did. */
  lemma QueuedRows(db: Db, pid: PlanId, version: nat, automatic: bool, db1: Db, now: nat) returns (k: nat)
    requires DoQueuePlanTx(db, pid, version, automatic, now) == Committed(db1)
    ensures pid in db.plans && db.plans[pid].project in db.projects && db.plans[pid].status in {Ready, Blocked}
    ensures NextTask(db.plans[pid], automatic, None) == Chosen(k) && k < |db.plans[pid].tasks|
    ensures Retryable(db.plans[pid].tasks[k].status)
    ensures db1 == WithTaskJob(db, pid, MoveTask(MovePlan(db.plans[pid], Running).(startedAt := Some(now)), k, Queued), k, now)
  {
    hide WithTaskJob, GateOk;
    k := NextTask(db.plans[pid], automatic, None).index;
  }

  lemma QueueOneKeeps(db: Db, pid: PlanId, version: nat, automatic: bool, db1: Db, now: nat)
    requires RowsOk(db, now) && DoQueuePlanTx(db, pid, version, automatic, now) == Committed(db1)
    ensures KeepsWithin(db, db1, [pid], now)
    ensures RowsOk(db1, now)
  {
    hide StepKeeps, PlanStep, GateOk, NextTask, DoQueuePlanTx;
    var k := QueuedRows(db, pid, version, automatic, db1, now);
    var p := db.plans[pid];
    var q := MoveTask(MovePlan(p, Running).(startedAt := Some(now)), k, Queued);
    QueuedPlanStep(p, automatic, now);
    TaskQueued(db, pid, q, k, now);
    StepKeepsInv(db, db1, now);
    assert forall m | 0 <= m < |db.jobs| :: db1.jobs[m] == db1.jobs[..|db.jobs|][m];
  }

  lemma NothingKept(db: Db, now: nat)
    requires RowsOk(db, now)
    ensures KeepsWithin(db, db, [], now)
  {
  }

  lemma QueueThenRest(db: Db, pid: PlanId, db1: Db, rest: seq<PlanId>, db': Db, now: nat)
    requires RowsOk(db, now) && pid in db.plans && pid !in rest
    requires DoQueuePlanTx(db, pid, db.plans[pid].version, true, now) == Committed(db1)
    requires RowsOk(db1, now) ==> KeepsWithin(db1, db', rest, now)
    ensures KeepsWithin(db, db', [pid] + rest, now)
  {
    QueueOneKeeps(db, pid, db.plans[pid].version, true, db1, now);
    KeepsTwice(db, db1, db', pid, rest, now);
  }

  lemma {:induction false} QueueAllKeeps(db: Db, order: seq<PlanId>, db': Db, now: nat)
    requires RowsOk(db, now) && DoQueueAll(db, order, now) == Committed(db')
    requires forall a, b | 0 <= a < b < |order| :: order[a] != order[b]
    ensures KeepsWithin(db, db', order, now)
    decreases |order|
  {
    hide StepKeeps, RowsOk, DoQueuePlanTx;
    if order == [] {
      NothingKept(db, now);
    } else {
      var db1 := QueueAllSplits(db, order, db', now);
      if RowsOk(db1, now) {
        QueueAllKeeps(db1, order[1..], db', now);
      }
      QueueThenRest(db, order[0], db1, order[1..], db', now);
      assert order == [order[0]] + order[1..];
    }
  }

  lemma QueueAllSplits(db: Db, order: seq<PlanId>, db': Db, now: nat) returns (db1: Db)
    requires order != [] && DoQueueAll(db, order, now) == Committed(db')
    ensures order[0] in db.plans
    ensures DoQueuePlanTx(db, order[0], db.plans[order[0]].version, true, now) == Committed(db1)
    ensures DoQueueAll(db1, order[1..], now) == Committed(db')
  {
    db1 := DoQueuePlanTx(db, order[0], db.plans[order[0]].version, true, now).db;
  }

  lemma SameRows(db: Db, db1: Db, db2: Db, now: nat)
    requires db1.plans == db.plans && db1.jobs == db.jobs && StepKeeps(db1, db2, now)
    ensures StepKeeps(db, db2, now)
  {
  }

  lemma SetAutomationKeeps(db: Db, s: Step, now: nat)
    requires RowsOk(db, now) && Legal(db, s, now) && Do(db, s, now).Committed? && s.SetAutomation?
    ensures StepKeeps(db, Do(db, s, now).db, now)
  {
    hide StepKeeps, PlanInv, JobInv;
    var row := db.projects[s.project].(automation := s.enabled, version := s.version + 1);
    var db1 := db.(projects := db.projects[s.project := row]);
    assert RowsOk(db1, now);
    if s.enabled {
      QueueAllKeeps(db1, s.order, Do(db, s, now).db, now);
      SameRows(db, db1, Do(db, s, now).db, now);
    } else {
      StopAutomationKeeps(db1, s.project, now);
      SameRows(db, db1, Do(db, s, now).db, now);
    }
  }

  // ---- the theorems ---------------------------------------------------------------------

  lemma CommittedKeeps(db: Db, s: Step, now: nat)
    requires RowsOk(db, now) && Legal(db, s, now) && Do(db, s, now).Committed? && !s.Claim?
    ensures StepKeeps(db, Do(db, s, now).db, now)
  {
    hide StepKeeps, RowsOk, Legal;
    match s {
      case SavePlan(plan, project, problems, c, tasks) => SavePlanKeeps(db, plan, project, problems, c, tasks, now);
      case QueuePlan(plan, version) => QueueOneKeeps(db, plan, version, false, Do(db, s, now).db, now);
      case QueuePlanAutomatically(plan) =>
        Unchanged(db, now);
        if DoQueuePlanAutomatically(db, plan, now).db != db {
          QueueOneKeeps(db, plan, db.plans[plan].version, true, Do(db, s, now).db, now);
        }
      case QueueTask(plan, index, version) => QueueTaskKeeps(db, plan, index, version, now);
      case QueueGeneration(project, intake, v) => QueueGenerationKeeps(db, project, intake, v, now);
      case MarkRunning(_, _) => JobStepKeeps(db, s, now);
      case Defer(_, _, _) => JobStepKeeps(db, s, now);
      case Release(_, _) => JobStepKeeps(db, s, now);
      case Complete(_, _) => JobStepKeeps(db, s, now);
      case Fail(_, _, _, _, _) => JobStepKeeps(db, s, now);
      case CancelJob(_, _) => JobStepKeeps(db, s, now);
      case StartTask(plan, index) => StartTaskKeeps(db, plan, index, now);
      case FinishTask(plan, index, success, blank) => FinishTaskKeeps(db, plan, index, success, blank, Do(db, s, now).db, now);
      case ReturnPending(plan, index, blank) => ReturnTaskKeeps(db, plan, index, blank, now);
      case ReturnQueued(plan, index, blank) => ReturnTaskKeeps(db, plan, index, blank, now);
      case StopTask(plan, index, version) => StopTaskKeeps(db, plan, index, version, now);
      case StopPlan(plan, version) => StopPlanKeeps(db, plan, version, now);
      case BlockForDrift(job, worker) => BlockForDriftKeeps(db, job, worker, Do(db, s, now).db, now);
      case SetAutomation(_, _, _, _) => SetAutomationKeeps(db, s, now);
      case Shutdown(instance) => ShutdownKeeps(db, instance, now);
      case Recover(job, run, e) => RecoverKeeps(db, job, run, e, Do(db, s, now).db, now);
    }
  }

  /** Every step keeps the invariant and changes each row only as its history allows. */
  lemma NextKeeps(db: Db, s: Step, now: nat)
    requires Inv(db) && Legal(db, s, now)
    ensures Inv(Next(db, s, now)) && Evolves(db, Next(db, s, now), now)
  {
    assert RowsOk(db, now);
    if Do(db, s, now).Rejected? {
      Unchanged(db, now);
    } else if s.Claim? {
      ClaimKeeps(db, s.job, s.worker, now);
    } else {
      CommittedKeeps(db, s, now);
      StepKeepsInv(db, Do(db, s, now).db, now);
    }
  }

  lemma InitKeeps(db: Db)
    requires Init(db)
    ensures Inv(db)
  {
  }

  lemma {:induction false} RunKeeps(states: seq<Db>, events: seq<Event>, n: nat)
    requires IsRun(states, events) && n <= |events|
    ensures Inv(states[n])
  {
    hide Inv, Legal, Next, Evolves, Do;
    if n == 0 {
      InitKeeps(states[0]);
    } else {
      RunKeeps(states, events, n - 1);
      assert Follows(states, events, n - 1);
      NextKeeps(states[n - 1], events[n - 1].step, events[n - 1].now);
    }
  }
}
