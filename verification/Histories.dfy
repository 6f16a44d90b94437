/** What the invariant and the step relation mean for whole runs of the protocol. */
module Histories {
  import opened Lifecycle
  import opened Schedule
  import opened Protocol
  import opened Invariants

  // ---- the shape of reachable plans -----------------------------------------

  /** In every reachable state the tasks of a plan read: succeeded, then at most one task
      in any status, then pending; and a started task of a structured plan has every
      dependency succeeded with passed acceptance. */
  lemma ReachablePlans(states: seq<Db>, events: seq<Event>, n: nat, pid: PlanId)
    requires IsRun(states, events) && n <= |events| && pid in states[n].plans
    ensures var ts := states[n].plans[pid].tasks;
      && (exists k :: SplitsAt(ts, k))
      && (!states[n].plans[pid].compatibility ==>
            forall i, d | 0 <= i < |ts| && ts[i].status != Pending && d in ts[i].deps ::
              && (exists k | 0 <= k < i :: ts[k].key == d)
              && forall k | 0 <= k < |ts| && ts[k].key == d :: ts[k].status == Succeeded && Accepted(ts[k]))
  {
    hide Follows;
    RunKeeps(states, events, n);
    var p := states[n].plans[pid];
    assert PlanInv(p, states[n].clock);
    FrontierShapeReads(p.tasks);
    if !p.compatibility {
      forall i, d | 0 <= i < |p.tasks| && p.tasks[i].status != Pending && d in p.tasks[i].deps
        ensures exists k | 0 <= k < i :: p.tasks[k].key == d
        ensures forall k | 0 <= k < |p.tasks| && p.tasks[k].key == d :: p.tasks[k].status == Succeeded && Accepted(p.tasks[k])
      {
        assert Started(p);
        FrontierMeetsDependencies(p.tasks, i);
        assert DependencyMet(p.tasks, d) && DepsOk(p.tasks, i);
      }
    }
  }

  /** Loading a plan repairs succeeded tasks whose acceptance is still pending; no reachable plan
      has one, so loading changes no row. */
  lemma NothingToRepair(states: seq<Db>, events: seq<Event>, n: nat, pid: PlanId)
    requires IsRun(states, events) && n <= |events| && pid in states[n].plans
    ensures forall i | 0 <= i < |states[n].plans[pid].tasks| ::
      states[n].plans[pid].tasks[i].status == Succeeded ==> states[n].plans[pid].tasks[i].acceptance != AcceptancePending
  {
    hide Follows;
    RunKeeps(states, events, n);
    assert PlanInv(states[n].plans[pid], states[n].clock);
  }

  /** A completed plan has every task succeeded and accepted. */
  lemma CompletedPlansAccepted(states: seq<Db>, events: seq<Event>, n: nat, pid: PlanId)
    requires IsRun(states, events) && n <= |events| && pid in states[n].plans
    requires states[n].plans[pid].status == Completed
    ensures forall i | 0 <= i < |states[n].plans[pid].tasks| ::
      states[n].plans[pid].tasks[i].status == Succeeded && Accepted(states[n].plans[pid].tasks[i])
  {
    hide Follows;
    RunKeeps(states, events, n);
    assert PlanInv(states[n].plans[pid], states[n].clock);
  }

  /** Attempts are conserved: a live job has counted its failed executions and its current
      claim, nothing else; a refund has something to give back; failures stay within bounds. */
  lemma AttemptsConserved(states: seq<Db>, events: seq<Event>, n: nat, j: JobId)
    requires IsRun(states, events) && n <= |events| && j < |states[n].jobs|
    ensures var job := states[n].jobs[j];
      && job.failures <= job.maxAttempts
      && (!Terminal(JobResource, job.status) ==>
            job.attempt == job.failures + (if InFlight(job.status) then 1 else 0))
      && (InFlight(job.status) ==> Refund(job.attempt) + 1 == job.attempt)
  {
    hide Follows;
    RunKeeps(states, events, n);
    assert JobInv(states[n].jobs[j]);
  }

  /** At most one task job of a project is leased or running. */
  lemma OneTaskJobInFlight(states: seq<Db>, events: seq<Event>, n: nat)
    requires IsRun(states, events) && n <= |events|
    ensures forall a, b | 0 <= a < b < |states[n].jobs| :: !Competing(states[n].jobs[a], states[n].jobs[b])
  {
    hide Follows;
    RunKeeps(states, events, n);
  }

  // ---- histories ---------------------------------------------------------------

  predicate TaskLater(a: Task, b: Task) {
    && a.version <= b.version && (a.status != b.status ==> a.version < b.version)
    && (a.status == Succeeded ==> b == a)
  }

  predicate PlanLater(p: Plan, q: Plan) {
    && p.version <= q.version && (p.status != q.status ==> p.version < q.version)
    && (p.status == Completed || p.status == Cancelled ==> q.status == p.status)
    && |p.tasks| == |q.tasks| && forall i | 0 <= i < |p.tasks| :: TaskLater(p.tasks[i], q.tasks[i])
  }

  predicate JobLater(a: Job, b: Job) {
    && a.version <= b.version && (a.status != b.status ==> a.version < b.version)
    && (Terminal(JobResource, a.status) ==> b == a)
  }

  predicate Later(db: Db, db': Db) {
    && (forall q | q in db.plans :: q in db'.plans && PlanLater(db.plans[q], db'.plans[q]))
    && |db.jobs| <= |db'.jobs|
    && forall k | 0 <= k < |db.jobs| :: JobLater(db.jobs[k], db'.jobs[k])
  }

  lemma EvolvesIsLater(a: Db, b: Db, now: nat)
    requires Evolves(a, b, now)
    ensures Later(a, b)
  {
  }

  lemma LaterTrans(a: Db, b: Db, c: Db)
    requires Later(a, b) && Later(b, c)
    ensures Later(a, c)
  {
  }

  lemma LaterSame(db: Db)
    ensures Later(db, db)
  {
  }

  /** One event of a run, opened up. */
  lemma RunStep(states: seq<Db>, events: seq<Event>, n: nat)
    requires IsRun(states, events) && n < |events|
    ensures Inv(states[n]) && Legal(states[n], events[n].step, events[n].now)
    ensures states[n + 1] == Next(states[n], events[n].step, events[n].now)
    ensures Inv(states[n + 1]) && Evolves(states[n], states[n + 1], events[n].now)
  {
    hide Inv, Legal, Next, Evolves, Do;
    RunKeeps(states, events, n);
    assert Follows(states, events, n);
    NextKeeps(states[n], events[n].step, events[n].now);
  }

  lemma HistoryGrows(states: seq<Db>, events: seq<Event>, a: nat, n: nat)
    requires IsRun(states, events) && a <= n < |events| && Later(states[a], states[n])
    ensures Later(states[a], states[n + 1])
  {
    hide Follows, Inv, Legal, Next, Evolves, Later;
    RunStep(states, events, n);
    EvolvesIsLater(states[n], states[n + 1], events[n].now);
    LaterTrans(states[a], states[n], states[n + 1]);
  }

  /** Along every run a succeeded task, a completed or cancelled plan and a terminal job
      never change status again, and a version never falls. */
  lemma {:induction false} HistoryKept(states: seq<Db>, events: seq<Event>, a: nat, b: nat)
    requires IsRun(states, events) && a <= b <= |events|
    ensures Later(states[a], states[b])
    decreases b
  {
    hide Follows;
    assert |states| == |events| + 1;
    hide *;
    if a == b {
      LaterSame(states[a]);
    } else {
      HistoryKept(states, events, a, b - 1);
      HistoryGrows(states, events, a, b - 1);
    }
  }

  /** A whole reconciliation pass, which commits its candidates together, keeps what its
      single steps keep. */
  lemma {:induction false} ReconcileKeeps(db: Db, cs: seq<Candidate>, now: nat)
    requires RowsOk(db, now) && DoReconcile(db, cs, now).Committed?
    ensures RowsOk(DoReconcile(db, cs, now).db, now) && Later(db, DoReconcile(db, cs, now).db)
    decreases |cs|
  {
    hide RowsOk, Later, DoRecover;
    if cs == [] {
      LaterSame(db);
    } else {
      var db1 := DoRecover(db, cs[0].job, cs[0].run, cs[0].evidence, now).db;
      OneRecovered(db, cs[0], db1, now);
      ReconcileKeeps(db1, cs[1..], now);
      LaterTrans(db, db1, DoReconcile(db, cs, now).db);
    }
  }

  lemma OneRecovered(db: Db, c: Candidate, db1: Db, now: nat)
    requires RowsOk(db, now) && DoRecover(db, c.job, c.run, c.evidence, now) == Committed(db1)
    ensures RowsOk(db1, now) && Later(db, db1)
  {
    hide DoRecover, Later;
    RecoverKeeps(db, c.job, c.run, c.evidence, db1, now);
    StepKeepsInv(db, db1, now);
    EvolvesIsLater(db, db1, now);
  }

  predicate TaskCounted(a: Task, b: Task) {
    b.version == a.version + if b.status != a.status then 1 else 0
  }

  predicate PlanCounted(p: Plan, q: Plan) {
    && q.version == p.version + (if q.status != p.status then 1 else 0)
    && |q.tasks| == |p.tasks| && forall i | 0 <= i < |p.tasks| :: TaskCounted(p.tasks[i], q.tasks[i])
  }

  predicate JobCounted(a: Job, b: Job) {
    b.version == a.version + if b.status != a.status then 1 else 0
  }

  /** One step raises the version of a row by one exactly when it changes its status. */
  lemma VersionsCountTransitions(states: seq<Db>, events: seq<Event>, n: nat)
    requires IsRun(states, events) && n < |events|
    ensures forall q | q in states[n].plans ::
      q in states[n + 1].plans && PlanCounted(states[n].plans[q], states[n + 1].plans[q])
    ensures |states[n].jobs| <= |states[n + 1].jobs|
    ensures forall k | 0 <= k < |states[n].jobs| :: JobCounted(states[n].jobs[k], states[n + 1].jobs[k])
  {
    hide Do;
    RunStep(states, events, n);
    hide IsRun, Follows, Inv, Legal, Next;
    RowsCounted(states[n], states[n + 1], events[n].now);
  }

  lemma RowsCounted(db: Db, db': Db, now: nat)
    requires Evolves(db, db', now)
    ensures forall q | q in db.plans :: q in db'.plans && PlanCounted(db.plans[q], db'.plans[q])
    ensures |db.jobs| <= |db'.jobs| && forall k | 0 <= k < |db.jobs| :: JobCounted(db.jobs[k], db'.jobs[k])
  {
  }

  // ---- optimistic versions ---------------------------------------------------------

  datatype Target = PlanRow(plan: PlanId) | TaskRow(plan: PlanId, index: nat)

  /** The row and the version a request names, for the requests that name one. */
  function Expected(s: Step): Option<(Target, nat)> {
    match s
    case QueuePlan(plan, version) => Some((PlanRow(plan), version))
    case StopPlan(plan, version) => Some((PlanRow(plan), version))
    case QueueTask(plan, index, version) => Some((TaskRow(plan, index), version))
    case StopTask(plan, index, version) => Some((TaskRow(plan, index), version))
    case _ => None
  }

  predicate Exists(db: Db, t: Target) {
    match t
    case PlanRow(plan) => plan in db.plans
    case TaskRow(plan, index) => TaskExists(db, plan, index)
  }

  function VersionOf(db: Db, t: Target): nat
    requires Exists(db, t)
  {
    match t
    case PlanRow(plan) => db.plans[plan].version
    case TaskRow(plan, index) => db.plans[plan].tasks[index].version
  }

  predicate Applies(db: Db, e: Event, t: Target) {
    && Exists(db, t) && Exists(Next(db, e.step, e.now), t)
    && VersionOf(Next(db, e.step, e.now), t) != VersionOf(db, t)
  }

  lemma AppliedAtVersion(db: Db, e: Event, t: Target, v: nat)
    requires Inv(db) && Expected(e.step) == Some((t, v)) && v > 0 && Applies(db, e, t)
    ensures VersionOf(db, t) == v
  {
    hide NextTask, GateOk, PlanInv, JobInv;
  }

  lemma LaterVersion(db: Db, db': Db, t: Target)
    requires Later(db, db') && Exists(db, t)
    ensures Exists(db', t) && VersionOf(db, t) <= VersionOf(db', t)
  {
  }

  /** Of several requests that name the same row at the same version, at most one applies. */
  lemma AtMostOneApplies(states: seq<Db>, events: seq<Event>, a: nat, b: nat, t: Target, v: nat)
    requires IsRun(states, events) && a < |events| && b < |events| && v > 0
    requires Expected(events[a].step) == Some((t, v)) && Applies(states[a], events[a], t)
    requires Expected(events[b].step) == Some((t, v)) && Applies(states[b], events[b], t)
    ensures a == b
  {
    hide *;
    if a != b {
      var x, y := if a < b then a else b, if a < b then b else a;
      AppliedRaises(states, events, x, t, v);
      AppliedRaises(states, events, y, t, v);
      VersionsRise(states, events, x + 1, y, t);
    }
  }

  /** Before an applied request the row has the version it names, after it a higher one. */
  lemma AppliedRaises(states: seq<Db>, events: seq<Event>, x: nat, t: Target, v: nat)
    requires IsRun(states, events) && x < |events| && v > 0
    requires Expected(events[x].step) == Some((t, v)) && Applies(states[x], events[x], t)
    ensures |states| == |events| + 1
    ensures Exists(states[x], t) && VersionOf(states[x], t) == v
    ensures Exists(states[x + 1], t) && VersionOf(states[x + 1], t) > v
  {
    hide Do;
    RunStep(states, events, x);
    HistoryKept(states, events, x, x + 1);
    hide Follows, Inv, Next, Later, Do, Legal, Evolves, IsRun;
    AppliedAtVersion(states[x], events[x], t, v);
    LaterVersion(states[x], states[x + 1], t);
  }

  lemma VersionsRise(states: seq<Db>, events: seq<Event>, x: nat, y: nat, t: Target)
    requires IsRun(states, events) && x <= y <= |events| && Exists(states[x], t)
    ensures Exists(states[y], t) && VersionOf(states[x], t) <= VersionOf(states[y], t)
  {
    hide Follows;
    HistoryKept(states, events, x, y);
    hide Follows, IsRun, Later;
    LaterVersion(states[x], states[y], t);
  }

  // ---- plan ownership ------------------------------------------------------------------

  lemma OwnerStays(db: Db, s: Step, now: nat, project: ProjectId, pid: PlanId)
    requires Inv(db) && Legal(db, s, now) && IsOwner(db, project, pid)
    requires pid in Next(db, s, now).plans && Contender(Next(db, s, now).plans[pid], project)
    ensures IsOwner(Next(db, s, now), project, pid)
  {
    hide Do;
    NextKeeps(db, s, now);
    hide Next;
    PlanInvAt(db, pid, db.clock);
    OwnerEvolves(db, Next(db, s, now), now, project, pid);
  }

  lemma OwnerEvolves(db: Db, db': Db, now: nat, project: ProjectId, pid: PlanId)
    requires Evolves(db, db', now) && IsOwner(db, project, pid) && PlanInv(db.plans[pid], db.clock) && now > db.clock
    requires pid in db'.plans && Contender(db'.plans[pid], project)
    ensures IsOwner(db', project, pid)
  {
  }

  /** The event claims a task job of the project for a plan other than `pid`. */
  predicate ClaimsOther(db: Db, e: Event, project: ProjectId, pid: PlanId) {
    && e.step.Claim? && Do(db, e.step, e.now).Committed?
    && var job := db.jobs[e.step.job];
    && job.kind.TaskExecution? && job.project == project && job.kind.plan != pid
  }

  lemma ClaimedFromOwner(db: Db, e: Event, project: ProjectId, pid: PlanId)
    requires IsOwner(db, project, pid)
    ensures !ClaimsOther(db, e, project, pid)
  {
    if e.step.Claim? && DoClaim(db, e.step.job, e.step.worker, e.now).Committed? {
      var job := db.jobs[e.step.job];
      if job.kind.TaskExecution? && job.project == project {
        var q := job.kind.plan;
        BeforeAsymmetric(db.plans[pid], pid, db.plans[q], q);
      }
    }
  }

  predicate StaysContender(states: seq<Db>, a: nat, b: nat, project: ProjectId, pid: PlanId)
    requires a <= b < |states|
  {
    forall k | a <= k <= b :: pid in states[k].plans && Contender(states[k].plans[pid], project)
  }

  lemma OwnerKeepsTurn(states: seq<Db>, events: seq<Event>, n: nat, project: ProjectId, pid: PlanId)
    requires IsRun(states, events) && n < |events| && IsOwner(states[n], project, pid)
    requires pid in states[n + 1].plans && Contender(states[n + 1].plans[pid], project)
    ensures IsOwner(states[n + 1], project, pid) && !ClaimsOther(states[n], events[n], project, pid)
  {
    hide IsOwner, Inv, Legal, Contender, Do, Evolves, ClaimsOther;
    RunStep(states, events, n);
    hide IsRun, Next;
    OwnerStays(states[n], events[n].step, events[n].now, project, pid);
    ClaimedFromOwner(states[n], events[n], project, pid);
  }

  /** Once a plan owns its project's turn it keeps it while it is executing with unfinished
      tasks: no task job of another plan of the project is claimed in between. */
  lemma {:induction false} OwnerNeverPreempted(states: seq<Db>, events: seq<Event>, a: nat, b: nat,
                                               project: ProjectId, pid: PlanId)
    requires IsRun(states, events) && a <= b <= |events|
    requires IsOwner(states[a], project, pid) && StaysContender(states, a, b, project, pid)
    ensures IsOwner(states[b], project, pid)
    ensures forall k | a <= k < b :: !ClaimsOther(states[k], events[k], project, pid)
    decreases b
  {
    hide Follows;
    assert |states| == |events| + 1;
    if a == b {
    } else {
      assert StaysContender(states, a, b - 1, project, pid);
      assert pid in states[b].plans && Contender(states[b].plans[pid], project);
      hide *;
      OwnerNeverPreempted(states, events, a, b - 1, project, pid);
      OwnerKeepsTurn(states, events, b - 1, project, pid);
    }
  }

  // ---- automatic continuation --------------------------------------------------------------

  /** What a success at the frontier leaves: everything up to it succeeded and accepted, and
      the rest pending. */
  lemma JudgedShape(p: Plan, i: nat, now: nat)
    requires PlanInv(p, now) && i < |p.tasks| && p.tasks[i].status == Running
    ensures var ts := JudgedPlan(p, i, true).tasks;
      && GateOk(JudgedPlan(p, i, true)) && FrontierShape(ts) && Frontier(ts) == i + 1
      && (forall k | 0 <= k <= i :: ts[k].status == Succeeded && Accepted(ts[k]))
      && (forall k | i < k < |ts| :: ts[k].status == Pending && ts[k] == p.tasks[k])
  {
    hide GraphOk, CriteriaOk, DepsOk;
    var q := JudgedPlan(p, i, true);
    JudgedStep(p, i, true, now);
    GateStays(p, q);
    assert forall k | 0 <= k < |p.tasks| && k != i :: q.tasks[k] == p.tasks[k];
    FrontierAt(q.tasks, i + 1);
  }

  /** After a success at the frontier the gate lets the plan go on. */
  lemma FinishChoice(p: Plan, i: nat, now: nat)
    requires PlanInv(p, now) && i < |p.tasks| && p.tasks[i].status == Running
    ensures NextTask(JudgedPlan(p, i, true), true, None) == if i + 1 == |p.tasks| then AllDone else Chosen(i + 1)
    ensures i + 1 < |p.tasks| ==> p.tasks[i + 1].status == Pending
  {
    JudgedShape(p, i, now);
    hide GraphOk, PlanInv, FrontierShape, Judged, Accepted;
    var q := JudgedPlan(p, i, true);
    if i + 1 < |p.tasks| && !p.compatibility {
      FrontierMeetsDependencies(q.tasks, i + 1);
    }
  }

  lemma ContinuedPlan(p: Plan, i: nat, now: nat)
    requires PlanInv(p, now) && i < |p.tasks| && p.tasks[i].status == Running && Executing(p.status)
    ensures var p1 := JudgedPlan(p, i, true);
      FinishPlan(p, i, true, true) ==
        if i + 1 == |p.tasks| then Settled(MovePlan(p1, Completed)) else Continued(MoveTask(p1, i + 1, Queued), i + 1)
  {
    hide NextTask, PlanInv;
    FinishChoice(p, i, now);
  }

  /** The plan row after a success of task i that continued automatically. */
  predicate WentOn(p: Plan, q: Plan, i: nat)
    requires i < |p.tasks|
  {
    && |q.tasks| == |p.tasks|
    && q.tasks[i].status == Succeeded && Accepted(q.tasks[i])
    && if i + 1 == |p.tasks| then q.status == Completed
       else q.status == p.status && p.tasks[i + 1].status == Pending && q.tasks[i + 1].status == Queued
  }

  /** The jobs after it: one more, for the next task, unless there is none. */
  predicate JobAdded(db: Db, db': Db, pid: PlanId, i: nat) {
    && |db'.jobs| == |db.jobs| + 1 && db'.jobs[..|db.jobs|] == db.jobs
    && OfTask(db'.jobs[|db.jobs|], pid, i) && db'.jobs[|db.jobs|].status == Queued
  }

  /** With automation on, finishing a task of an executing plan either completes the plan
      or queues exactly the next task with a new job: the scheduling gate cannot block it. */
  lemma ContinuationNeverStuck(db: Db, pid: PlanId, i: nat, now: nat)
    requires Inv(db) && now > db.clock && TaskExists(db, pid, i)
    requires Executing(db.plans[pid].status) && db.plans[pid].tasks[i].status == Running
    requires db.plans[pid].project in db.projects && db.projects[db.plans[pid].project].automation
    ensures var o := DoFinishTask(db, pid, i, true, false, now);
      && o.Committed? && pid in o.db.plans && WentOn(db.plans[pid], o.db.plans[pid], i)
      && if i + 1 == |db.plans[pid].tasks| then o.db.jobs == db.jobs else JobAdded(db, o.db, pid, i + 1)
  {
    PlanInvAt(db, pid, now);
    var p := db.plans[pid];
    FinishChoice(p, i, now);
    RowsWentOn(p, i);
    FinishOutcome(db, pid, i, now);
    hide NextTask, PlanInv, Inv, WithTaskJob, JobAdded, WentOn, DoFinishTask, JudgedPlan;
    if i + 1 < |p.tasks| {
      NextJobAdded(db, pid, i, now);
    }
  }

  lemma RowsWentOn(p: Plan, i: nat)
    requires i < |p.tasks| && (i + 1 < |p.tasks| ==> p.tasks[i + 1].status == Pending)
    ensures var p1 := JudgedPlan(p, i, true);
      WentOn(p, if i + 1 == |p.tasks| then MovePlan(p1, Completed) else MoveTask(p1, i + 1, Queued), i)
  {
    hide Accepted;
    JudgedAccepted(p.tasks[i]);
  }

  lemma FinishOutcome(db: Db, pid: PlanId, i: nat, now: nat)
    requires Inv(db) && now > db.clock && TaskExists(db, pid, i)
    requires Executing(db.plans[pid].status) && db.plans[pid].tasks[i].status == Running
    requires db.plans[pid].project in db.projects && db.projects[db.plans[pid].project].automation
    ensures var p1 := JudgedPlan(db.plans[pid], i, true);
      DoFinishTask(db, pid, i, true, false, now) == Committed(
        if i + 1 == |db.plans[pid].tasks| then db.(plans := db.plans[pid := MovePlan(p1, Completed)])
        else WithTaskJob(db, pid, MoveTask(p1, i + 1, Queued), i + 1, now))
  {
    PlanInvAt(db, pid, now);
    hide Inv, PlanInv, WithTaskJob, FinishPlan, JudgedPlan;
    ContinuedPlan(db.plans[pid], i, now);
  }

  /** Queueing the next task adds its job. */
  lemma NextJobAdded(db: Db, pid: PlanId, i: nat, now: nat)
    requires Inv(db) && now > db.clock && TaskExists(db, pid, i) && i + 1 < |db.plans[pid].tasks|
    requires db.plans[pid].tasks[i].status == Running && db.plans[pid].project in db.projects
    ensures var q := MoveTask(JudgedPlan(db.plans[pid], i, true), i + 1, Queued);
      var db' := WithTaskJob(db, pid, q, i + 1, now);
      JobAdded(db, db', pid, i + 1) && db'.plans == db.plans[pid := q]
  {
  }

  lemma PlanInvAt(db: Db, pid: PlanId, now: nat)
    requires Inv(db) && now >= db.clock && pid in db.plans
    ensures PlanInv(db.plans[pid], now)
  {
  }

  lemma QueuedTaskChosen(p: Plan, i: nat, clock: nat)
    requires PlanInv(p, clock) && i < |p.tasks| && p.tasks[i].status == Queued
    ensures NextTask(p, false, Some(i)) == Chosen(i)
  {
    hide GraphOk, CriteriaOk, DepsOk;
    assert Started(p);
    FrontierFound(p.tasks, i);
    FrontierAt(p.tasks, i);
    if !p.compatibility {
      FrontierMeetsDependencies(p.tasks, i);
    }
  }

  /** The plan row after task i started: the task runs, and its plan validates when it is the last. */
  predicate WentRunning(p: Plan, q: Plan, i: nat) {
    && i < |p.tasks| == |q.tasks| && q.tasks[i].status == Running
    && q.status == if p.tasks[i].final then Validating else Running
  }

  /** The gate recheck when a worker starts a task lets every queued task of a running
      plan through. */
  lemma QueuedTaskStarts(db: Db, pid: PlanId, i: nat)
    requires Inv(db) && TaskExists(db, pid, i)
    requires db.plans[pid].status == Running && db.plans[pid].tasks[i].status == Queued && db.plans[pid].baseline
    ensures var o := DoStartTask(db, pid, i);
      o.Committed? && pid in o.db.plans && WentRunning(db.plans[pid], o.db.plans[pid], i)
  {
    PlanInvAt(db, pid, db.clock);
    hide NextTask, PlanInv, Inv;
    QueuedTaskChosen(db.plans[pid], i, db.clock);
  }
}
