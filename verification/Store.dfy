/** The transactions as they change the rows in place. Each method runs one transaction:
    it reads and rewrites the rows step by step through the lifecycle gate, and either
    commits or restores the rows it found. Its contract is the protocol step. */
module Stores {
  import opened Lifecycle
  import opened Schedule
  import opened Scheduling
  import opened Protocol
  import opened Invariants

  // ---- tasks set aside by a shutdown ------------------------------------------------

  predicate RunsTask(plans: map<PlanId, Plan>, pid: PlanId, i: nat) {
    pid in plans && i < |plans[pid].tasks| && plans[pid].tasks[i].status == Running
  }

  /** A plan with its running tasks among `owned` back to pending. */
  function SetAside(p: Plan, pid: PlanId, owned: seq<(PlanId, nat)>): (q: Plan)
    ensures |q.tasks| == |p.tasks|
  {
    p.(tasks := seq(|p.tasks|, i requires 0 <= i < |p.tasks| =>
      if (pid, i) in owned && p.tasks[i].status == Running then Moved(p.tasks[i], Pending) else p.tasks[i]))
  }

  function AllAside(plans: map<PlanId, Plan>, owned: seq<(PlanId, nat)>): map<PlanId, Plan> {
    map q | q in plans :: SetAside(plans[q], q, owned)
  }

  /** One of the first n owned jobs runs a task of plan q. */
  predicate ChangedBy(plans: map<PlanId, Plan>, owned: seq<(PlanId, nat)>, n: nat, q: PlanId)
    requires n <= |owned|
  {
    exists m | 0 <= m < n :: owned[m].0 == q && RunsTask(plans, q, owned[m].1)
  }

  lemma NothingAside(plans: map<PlanId, Plan>)
    ensures AllAside(plans, []) == plans
    ensures forall owned, q :: !ChangedBy(plans, owned, 0, q)
  {
    forall q | q in plans ensures SetAside(plans[q], q, []) == plans[q] {
      assert SetAside(plans[q], q, []).tasks == plans[q].tasks;
    }
  }

  lemma OtherPlanAside(p: Plan, q: PlanId, owned: seq<(PlanId, nat)>, pid: PlanId, i: nat)
    requires q != pid
    ensures SetAside(p, q, owned + [(pid, i)]) == SetAside(p, q, owned)
  {
  }

  lemma SamePlanAside(p: Plan, pid: PlanId, owned: seq<(PlanId, nat)>, i: nat)
    ensures var was := SetAside(p, pid, owned);
      SetAside(p, pid, owned + [(pid, i)]) ==
        if i < |p.tasks| && was.tasks[i].status == Running then MoveTask(was, i, Pending) else was
  {
  }

  /** What the gate finds when the turn of an owned job comes, and what it leaves. */
  lemma OneMoreAside(plans: map<PlanId, Plan>, owned: seq<(PlanId, nat)>, n: nat)
    requires n < |owned|
    ensures var (pid, i), was := owned[n], AllAside(plans, owned[..n]);
      && (Unfit(plans, pid, i) <==> Unfit(was, pid, i))
      && AllAside(plans, owned[..n + 1]) ==
           (if RunsTask(was, pid, i) then was[pid := MoveTask(was[pid], i, Pending)] else was)
      && (forall q :: ChangedBy(plans, owned, n + 1, q) <==>
            (ChangedBy(plans, owned, n, q) || (q == pid && RunsTask(was, pid, i))))
  {
    hide SetAside;
    var (pid, i) := owned[n];
    var was := AllAside(plans, owned[..n]);
    assert owned[..n + 1] == owned[..n] + [owned[n]];
    forall q | q in plans && q != pid {
      OtherPlanAside(plans[q], q, owned[..n], pid, i);
    }
    if pid in plans {
      SamePlanAside(plans[pid], pid, owned[..n], i);
      if i < |plans[pid].tasks| {
        TaskAside(plans[pid], pid, owned[..n], i);
      }
    }
    assert RunsTask(plans, pid, i) ==> RunsTask(was, pid, i) || (pid, i) in owned[..n];
    forall q ensures ChangedBy(plans, owned, n + 1, q) <==>
      (ChangedBy(plans, owned, n, q) || (q == pid && RunsTask(was, pid, i)))
    {
      if q == pid && RunsTask(plans, pid, i) {
        assert owned[n].0 == q && RunsTask(plans, q, owned[n].1);
      }
    }
  }

  lemma TaskAside(p: Plan, pid: PlanId, owned: seq<(PlanId, nat)>, i: nat)
    requires i < |p.tasks|
    ensures SetAside(p, pid, owned).tasks[i].status ==
      if (pid, i) in owned && p.tasks[i].status == Running then Pending else p.tasks[i].status
  {
  }

  /** The tasks of the owned jobs are what the shutdown of the instance works on. */
  lemma OwnedTasks(db: Db, instance: string, owned: seq<(PlanId, nat)>)
    requires forall pid: PlanId, i: nat :: (pid, i) in owned <==> OwnsTask(db.jobs, instance, pid, i)
    ensures AllAside(db.plans, owned).Keys == db.plans.Keys
    ensures forall q | q in db.plans :: AllAside(db.plans, owned)[q] == InterruptedPlan(db, instance, q)
    ensures forall q | q in db.plans && !AnyInterrupts(db, instance, q) :: InterruptedPlan(db, instance, q) == db.plans[q]
    ensures forall q :: ChangedBy(db.plans, owned, |owned|, q) <==> q in db.plans && AnyInterrupts(db, instance, q)
    ensures (forall m | 0 <= m < |owned| :: !Unfit(db.plans, owned[m].0, owned[m].1)) <==>
      !UnfitOwned(db, instance)
  {
    hide Unfit, Owned;
    forall q | q in db.plans ensures AllAside(db.plans, owned)[q] == InterruptedPlan(db, instance, q) {
      assert AllAside(db.plans, owned)[q].tasks == InterruptedPlan(db, instance, q).tasks;
    }
    forall q | q in db.plans && !AnyInterrupts(db, instance, q)
      ensures InterruptedPlan(db, instance, q) == db.plans[q]
    {
      assert InterruptedPlan(db, instance, q).tasks == db.plans[q].tasks;
    }
    OwnedChanges(db, instance, owned);
    OwnedUnfit(db, instance, owned);
  }

  lemma OwnedChanges(db: Db, instance: string, owned: seq<(PlanId, nat)>)
    requires forall pid: PlanId, i: nat :: (pid, i) in owned <==> OwnsTask(db.jobs, instance, pid, i)
    ensures forall q :: ChangedBy(db.plans, owned, |owned|, q) <==> q in db.plans && AnyInterrupts(db, instance, q)
  {
    hide Owned, OwnsTask;
    forall q | q in db.plans && AnyInterrupts(db, instance, q) ensures ChangedBy(db.plans, owned, |owned|, q) {
      var i :| 0 <= i < |db.plans[q].tasks| && Interrupts(db, instance, q, i);
      assert (q, i) in owned;
      var m :| 0 <= m < |owned| && owned[m] == (q, i);
      assert RunsTask(db.plans, q, i);
    }
    forall q | ChangedBy(db.plans, owned, |owned|, q) ensures q in db.plans && AnyInterrupts(db, instance, q) {
      var m :| 0 <= m < |owned| && owned[m].0 == q && RunsTask(db.plans, q, owned[m].1);
      assert owned[m] == (q, owned[m].1) && owned[m] in owned;
      assert Interrupts(db, instance, q, owned[m].1);
    }
  }

  lemma OwnedUnfit(db: Db, instance: string, owned: seq<(PlanId, nat)>)
    requires forall pid: PlanId, i: nat :: (pid, i) in owned <==> OwnsTask(db.jobs, instance, pid, i)
    ensures (exists m | 0 <= m < |owned| :: Unfit(db.plans, owned[m].0, owned[m].1)) <==> UnfitOwned(db, instance)
  {
    hide Unfit, Owned;
    if m :| 0 <= m < |owned| && Unfit(db.plans, owned[m].0, owned[m].1) {
      var (pid, i) := owned[m];
      assert owned[m] in owned && OwnsTask(db.jobs, instance, pid, i);
      var k :| 0 <= k < |db.jobs| && Owned(db.jobs[k], instance) && OfTask(db.jobs[k], pid, i);
      assert UnfitOwned(db, instance);
    }
    if UnfitOwned(db, instance) {
      var k :| 0 <= k < |db.jobs| && Owned(db.jobs[k], instance) && db.jobs[k].kind.TaskExecution?
        && Unfit(db.plans, db.jobs[k].kind.plan, db.jobs[k].kind.index);
      var pid, i := db.jobs[k].kind.plan, db.jobs[k].kind.index;
      assert OfTask(db.jobs[k], pid, i) && OwnsTask(db.jobs, instance, pid, i);
      assert (pid, i) in owned;
      var m :| 0 <= m < |owned| && owned[m] == (pid, i);
      assert Unfit(db.plans, owned[m].0, owned[m].1);
    }
  }

  // ---- pausing and queueing plans ----------------------------------------------------

  function PausedIn(plans: map<PlanId, Plan>, done: set<PlanId>): map<PlanId, Plan> {
    map q | q in plans :: if q in done then PausedPlan(plans[q]) else plans[q]
  }

  function PausedPlans(plans: map<PlanId, Plan>, project: ProjectId): map<PlanId, Plan> {
    PausedIn(plans, set q | q in plans && Paused(plans[q], project))
  }

  lemma NothingPaused(plans: map<PlanId, Plan>)
    ensures PausedIn(plans, {}) == plans
  {
  }

  lemma OneMorePaused(plans: map<PlanId, Plan>, done: set<PlanId>, q: PlanId)
    requires q in plans && q !in done
    ensures q in PausedIn(plans, done) && PausedIn(plans, done)[q] == plans[q]
    ensures PausedIn(plans, done + {q}) == PausedIn(plans, done)[q := PausedPlan(plans[q])]
  {
  }

  lemma QueueTouchesOne(db: Db, pid: PlanId, version: nat, now: nat)
    requires DoQueuePlanTx(db, pid, version, true, now).Committed?
    ensures var db' := DoQueuePlanTx(db, pid, version, true, now).db;
      db'.plans.Keys == db.plans.Keys && forall q | q in db.plans && q != pid :: db'.plans[q] == db.plans[q]
  {
    hide NextTask, InsertJob, TaskJob;
  }

  // ---- candidates of a recovery pass ---------------------------------------------------

  /** The task and plan columns the reconciliation query joins to a job. */
  function TaskStatusOf(db: Db, job: Job): Option<Status> {
    if job.kind.TaskExecution? && TaskExists(db, job.kind.plan, job.kind.index)
    then Some(db.plans[job.kind.plan].tasks[job.kind.index].status) else None
  }

  function PlanStatusOf(db: Db, job: Job): Option<Status> {
    if job.kind.TaskExecution? && TaskExists(db, job.kind.plan, job.kind.index)
    then Some(db.plans[job.kind.plan].status) else None
  }

  function ReadRow(db: Db, j: JobId): (Job, Option<Status>, Option<Status>)
    requires j < |db.jobs|
  {
    (db.jobs[j], TaskStatusOf(db, db.jobs[j]), PlanStatusOf(db, db.jobs[j]))
  }

  /** Distinct jobs in flight: the rows a reconciliation pass looks at. */
  predicate Candidates(db: Db, cs: seq<Candidate>) {
    && (forall n | 0 <= n < |cs| :: cs[n].job < |db.jobs|
          && (InFlight(db.jobs[cs[n].job].status) || db.jobs[cs[n].job].status == Cancelling))
    && (forall a, b | 0 <= a < b < |cs| :: cs[a].job != cs[b].job)
  }

  /** What was read of a job and its plan in `was` still holds in `db`. */
  predicate AsRead(was: Db, db: Db, j: JobId) {
    && j < |was.jobs| && j < |db.jobs| && db.jobs[j] == was.jobs[j]
    && (was.jobs[j].kind.TaskExecution? ==>
          var pid := was.jobs[j].kind.plan;
          pid in was.plans && pid in db.plans && db.plans[pid] == was.plans[pid])
  }

  predicate Untouched(was: Db, db: Db, cs: seq<Candidate>, n: nat) {
    forall m | n <= m < |cs| :: AsRead(was, db, cs[m].job)
  }

  lemma CandidatesUntouched(db: Db, cs: seq<Candidate>)
    requires Inv(db) && Candidates(db, cs)
    ensures Untouched(db, db, cs, 0)
  {
    forall m | 0 <= m < |cs| ensures AsRead(db, db, cs[m].job) {
      assert JobLinked(db.plans, db.jobs[cs[m].job]);
    }
  }

  lemma StillAsRead(was: Db, db: Db, cs: seq<Candidate>, n: nat)
    requires n < |cs| && Candidates(was, cs) && Untouched(was, db, cs, n)
    ensures cs[n].job < |was.jobs| && cs[n].job < |db.jobs| && ReadRow(was, cs[n].job) == ReadRow(db, cs[n].job)
    ensures InFlight(db.jobs[cs[n].job].status) || db.jobs[cs[n].job].status == Cancelling
  {
    assert AsRead(was, db, cs[n].job);
  }

  lemma RecoverTouches(db: Db, c: Candidate, now: nat)
    requires c.job < |db.jobs| && DoRecover(db, c.job, c.run, c.evidence, now).Committed?
    ensures var db' := DoRecover(db, c.job, c.run, c.evidence, now).db;
      && |db'.jobs| == |db.jobs| && (forall k | 0 <= k < |db.jobs| && k != c.job :: db'.jobs[k] == db.jobs[k])
      && forall q | q in db.plans && !OfPlan(db.jobs[c.job], q) :: q in db'.plans && db'.plans[q] == db.plans[q]
  {
    hide RecoverPlan, CandidateActive, CancellationIntent;
  }

  /** Two candidates never share a plan: at most one task job of a project is in flight. */
  lemma PlansApart(db: Db, a: JobId, b: JobId)
    requires Inv(db) && a < |db.jobs| && b < |db.jobs| && a != b
    requires InFlight(db.jobs[a].status) && InFlight(db.jobs[b].status) && db.jobs[a].kind.TaskExecution?
    ensures !OfPlan(db.jobs[b], db.jobs[a].kind.plan)
  {
    assert JobLinked(db.plans, db.jobs[a]) && JobLinked(db.plans, db.jobs[b]);
    var x, y := if a < b then a else b, if a < b then b else a;
    assert !Competing(db.jobs[x], db.jobs[y]);
  }

  lemma OthersUntouched(was: Db, db: Db, cs: seq<Candidate>, n: nat, now: nat)
    requires Inv(was) && n < |cs| && Candidates(was, cs) && Untouched(was, db, cs, n)
    requires cs[n].job < |db.jobs| && DoRecover(db, cs[n].job, cs[n].run, cs[n].evidence, now).Committed?
    ensures Untouched(was, DoRecover(db, cs[n].job, cs[n].run, cs[n].evidence, now).db, cs, n + 1)
  {
    hide DoRecover;
    var db' := DoRecover(db, cs[n].job, cs[n].run, cs[n].evidence, now).db;
    RecoverTouches(db, cs[n], now);
    assert AsRead(was, db, cs[n].job);
    forall m | n < m < |cs| ensures AsRead(was, db', cs[m].job) {
      assert AsRead(was, db, cs[m].job);
      assert JobInv(was.jobs[cs[n].job]) && JobInv(was.jobs[cs[m].job]);
      if was.jobs[cs[m].job].kind.TaskExecution? {
        PlansApart(was, cs[m].job, cs[n].job);
      }
    }
  }

  // ---- choosing and changing rows ------------------------------------------------------

  function JobsWhere(jobs: seq<Job>, pick: Job -> bool): set<JobId> {
    set k | 0 <= k < |jobs| && pick(jobs[k])
  }

  predicate ClaimedBefore(a: Job, b: Job) {
    a.priority < b.priority || (a.priority == b.priority && a.createdAt < b.createdAt)
  }

  /** Job j is claimable outside the locked projects and nothing claimable there comes before it. */
  predicate FirstClaimable(db: Db, j: JobId, locked: set<ProjectId>, now: nat) {
    && Claimable(db, j, now) && db.jobs[j].project !in locked
    && forall m | 0 <= m < |db.jobs| && Claimable(db, m, now) && db.jobs[m].project !in locked ::
         || db.jobs[j].priority < db.jobs[m].priority
         || (db.jobs[j].priority == db.jobs[m].priority && db.jobs[j].createdAt <= db.jobs[m].createdAt)
  }

  function KeepJob(j: Job): Job { j }
  function KeepTask(t: Task): Task { t }
  function KeepPlan(p: Plan): Plan { p }

  /** A plan whose task i moved to a status and had columns set. */
  function WithTask(p: Plan, i: nat, to: Status, fields: Task -> Task): Plan
    requires i < |p.tasks|
  {
    p.(tasks := p.tasks[i := fields(Moved(p.tasks[i], to))])
  }

  /** 1 << n */
  method ShiftedOne(n: nat) returns (r: nat)
    ensures r == PowerOfTwo(n)
  {
    r := 1;
    for k := 0 to n
      invariant r == PowerOfTwo(k)
    {
      r := 2 * r;
    }
  }

  // ---- the store ----------------------------------------------------------------------

  class Store {
    var clock: nat
    var projects: map<ProjectId, Project>
    var plans: map<PlanId, Plan>
    var jobs: seq<Job>

    function State(): Db
      reads this
    {
      Db(clock, projects, plans, jobs)
    }

    constructor (projects: map<ProjectId, Project>)
      ensures Init(State()) && this.projects == projects && clock == 0
    {
      clock := 0;
      this.projects := projects;
      plans := map[];
      jobs := [];
    }

    // ---- transaction brackets ------------------------------------------------

    /** The end of a transaction: commit, or roll back to the rows it began with. */
    method Close(begun: Db, ok: bool, now: nat)
      modifies this
      ensures State() == (if ok then old(State()) else begun).(clock := now)
    {
      if !ok {
        projects, plans, jobs := begun.projects, begun.plans, begun.jobs;
      }
      clock := now;
    }

    // ---- the gate ----------------------------------------------------------------

    method TransitionJob(j: JobId, q: Request, fields: Job -> Job) returns (v: Verdict)
      modifies this`jobs
      ensures j >= |old(jobs)| ==> v == Refused(NotFound)
      ensures j < |old(jobs)| ==>
        v == Gate(JobResource, old(jobs)[j].status, old(jobs)[j].version, old(jobs)[j].worker, q)
      ensures jobs == if v.Applied? then old(jobs)[j := fields(MoveJob(old(jobs)[j], q.status))] else old(jobs)
    {
      if j >= |jobs| {
        return Refused(NotFound);
      }
      v := Gate(JobResource, jobs[j].status, jobs[j].version, jobs[j].worker, q);
      if v.Applied? {
        jobs := jobs[j := fields(MoveJob(jobs[j], q.status))];
      }
    }

    method TransitionTask(pid: PlanId, i: nat, q: Request, fields: Task -> Task) returns (v: Verdict)
      modifies this`plans
      ensures !TaskExists(old(State()), pid, i) ==> v == Refused(NotFound)
      ensures TaskExists(old(State()), pid, i) ==>
        v == Gate(TaskResource, old(plans)[pid].tasks[i].status, old(plans)[pid].tasks[i].version, None, q)
      ensures plans ==
        if v.Applied? then old(plans)[pid := WithTask(old(plans)[pid], i, q.status, fields)] else old(plans)
    {
      if pid !in plans || i >= |plans[pid].tasks| {
        return Refused(NotFound);
      }
      var t := plans[pid].tasks[i];
      v := Gate(TaskResource, t.status, t.version, None, q);
      if v.Applied? {
        plans := plans[pid := WithTask(plans[pid], i, q.status, fields)];
      }
    }

    method TransitionPlan(pid: PlanId, q: Request, fields: Plan -> Plan) returns (v: Verdict)
      modifies this`plans
      ensures pid !in old(plans) ==> v == Refused(NotFound)
      ensures pid in old(plans) ==> v == Gate(PlanResource, old(plans)[pid].status, old(plans)[pid].version, None, q)
      ensures plans ==
        if v.Applied? then old(plans)[pid := fields(MovePlan(old(plans)[pid], q.status))] else old(plans)
    {
      if pid !in plans {
        return Refused(NotFound);
      }
      v := Gate(PlanResource, plans[pid].status, plans[pid].version, None, q);
      if v.Applied? {
        plans := plans[pid := fields(MovePlan(plans[pid], q.status))];
      }
    }

    // ---- job outcomes ----------------------------------------------------------------

    method MarkJobRunning(j: JobId, w: Worker, now: nat) returns (ok: bool)
      modifies this
      ensures ok <==> DoMarkRunning(old(State()), j, w).Committed?
      ensures State() == After(old(State()), DoMarkRunning(old(State()), j, w), now)
    {
      var begun := State();
      var v := TransitionJob(j, Request(Running, {Leased}, worker := Some(w), mismatch := NotFound), KeepJob);
      ok := !v.Refused?;
      Close(begun, ok, now);
    }

    method DeferJobForWorkspace(j: JobId, w: Worker, delay: int, now: nat) returns (ok: bool)
      modifies this
      ensures var d := if delay < 0 then 0 else delay;
        && (ok <==> DoDefer(old(State()), j, w, d, now).Committed?)
        && State() == After(old(State()), DoDefer(old(State()), j, w, d, now), now)
    {
      var begun := State();
      var wait := if delay < 0 then 0 else delay;
      var v := TransitionJob(j,
        Request(Queued, {Leased, Running}, worker := Some(w), nonContract := true, mismatch := NotFound),
        (r: Job) => r.(worker := None, runAfter := now + wait, attempt := Refund(r.attempt)));
      ok := !v.Refused?;
      Close(begun, ok, now);
    }

    method ReleaseLeasedJob(j: JobId, w: Worker, now: nat) returns (ok: bool)
      modifies this
      ensures ok <==> DoRelease(old(State()), j, w, now).Committed?
      ensures State() == After(old(State()), DoRelease(old(State()), j, w, now), now)
    {
      var begun := State();
      var v := TransitionJob(j, Request(Queued, {Leased}, worker := Some(w), mismatch := NotFound),
        (r: Job) => r.(worker := None, runAfter := now, attempt := Refund(r.attempt)));
      ok := !v.Refused?;
      Close(begun, ok, now);
    }

    method CompleteJob(j: JobId, w: Worker, now: nat) returns (ok: bool)
      modifies this
      ensures ok <==> DoComplete(old(State()), j, w).Committed?
      ensures State() == After(old(State()), DoComplete(old(State()), j, w), now)
    {
      var begun := State();
      var v := TransitionJob(j,
        Request(Succeeded, {Running}, worker := Some(w), ignoreTerminal := true, mismatch := NotFound), KeepJob);
      ok := !v.Refused?;
      Close(begun, ok, now);
    }

    /** The caller passes the snapshot of the job it claimed. */
    method FailJob(j: JobId, snapshot: Job, w: Worker, retryable: bool, blank: bool, now: nat) returns (ok: bool)
      requires j < |jobs| ==> snapshot.maxAttempts == jobs[j].maxAttempts
      modifies this
      ensures ok <==> DoFail(old(State()), j, snapshot.attempt, w, retryable, blank, now).Committed?
      ensures State() == After(old(State()), DoFail(old(State()), j, snapshot.attempt, w, retryable, blank, now), now)
    {
      var begun := State();
      var status, runAfter := Failed, now;
      if retryable && snapshot.attempt < snapshot.maxAttempts {
        status := RetryWait;
        var delay := ShiftedOne(if snapshot.attempt < 6 then snapshot.attempt else 6);
        runAfter := now + delay;
      }
      // the failure counter is the history variable of the row, not a stored column
      var v := TransitionJob(j,
        Request(status, {Leased, Running}, worker := Some(w), nonContract := true, ignoreTerminal := true,
                mismatch := NotFound, blankReason := blank),
        (r: Job) => r.(runAfter := runAfter, failures := r.failures + 1));
      ok := !v.Refused?;
      Close(begun, ok, now);
    }

    method CancelJob(j: JobId, w: Worker, now: nat) returns (ok: bool)
      modifies this
      ensures ok <==> DoCancelJob(old(State()), j, w).Committed?
      ensures State() == After(old(State()), DoCancelJob(old(State()), j, w), now)
    {
      var begun := State();
      var v := TransitionJob(j,
        Request(Cancelled, {Leased, Running}, worker := Some(w), nonContract := true, ignoreTerminal := true,
                mismatch := NotFound), KeepJob);
      ok := !v.Refused?;
      Close(begun, ok, now);
    }

    // ---- claiming -----------------------------------------------------------------------

    method HasUnfinishedTask(p: Plan) returns (found: bool)
      ensures found <==> exists i | 0 <= i < |p.tasks| :: p.tasks[i].status != Succeeded
    {
      found := false;
      for i := 0 to |p.tasks|
        invariant found <==> exists k | 0 <= k < i :: p.tasks[k].status != Succeeded
      {
        if p.tasks[i].status != Succeeded {
          found := true;
        }
      }
    }

    /** The plan that owns the project's turn: the first contender in owner order. */
    method FindOwner(project: ProjectId) returns (owner: Option<PlanId>)
      ensures owner.None? ==> forall q :: !IsOwner(State(), project, q)
      ensures owner.Some? ==> IsOwner(State(), project, owner.value)
    {
      owner := None;
      var rest := plans.Keys;
      while rest != {}
        invariant rest <= plans.Keys
        invariant owner.None? ==> forall q | q in plans && q !in rest :: !Contender(plans[q], project)
        invariant owner.Some? ==>
          && owner.value in plans && owner.value !in rest && Contender(plans[owner.value], project)
          && forall q | q in plans && q !in rest && q != owner.value && Contender(plans[q], project) ::
               Before(plans[owner.value], owner.value, plans[q], q)
        decreases |rest|
      {
        var q :| q in rest;
        rest := rest - {q};
        var p := plans[q];
        var unfinished := HasUnfinishedTask(p);
        if p.project == project && Executing(p.status) && p.executable && unfinished {
          if owner.None? || Before(p, q, plans[owner.value], owner.value) {
            if owner.Some? {
              BeforeOrders(plans, q, owner.value);
            }
            owner := Some(q);
          } else {
            BeforeOrders(plans, owner.value, q);
          }
        }
      }
    }

    method ProjectBusy(project: ProjectId) returns (busy: bool)
      ensures busy <==> !ProjectIdle(State(), project)
    {
      busy := false;
      for k := 0 to |jobs|
        invariant busy <==> exists m | 0 <= m < k ::
          jobs[m].project == project && jobs[m].kind.TaskExecution? && InFlight(jobs[m].status)
      {
        if jobs[k].project == project && jobs[k].kind.TaskExecution? && InFlight(jobs[k].status) {
          busy := true;
        }
      }
    }

    method Eligible(j: JobId, now: nat) returns (yes: bool)
      requires j < |jobs|
      ensures yes <==> Claimable(State(), j, now)
    {
      var job := jobs[j];
      if job.status != Queued && job.status != RetryWait {
        return false;
      }
      if job.runAfter > now || job.project !in projects || !projects[job.project].automation {
        return false;
      }
      if job.kind.PlanGeneration? {
        return true;
      }
      var busy := ProjectBusy(job.project);
      var owner := FindOwner(job.project);
      if owner.Some? {
        OnlyOwner(State(), job.project, owner.value, job.kind.plan);
      }
      yes := !busy && owner == Some(job.kind.plan) && job.kind.index < |plans[job.kind.plan].tasks|;
    }

    /** Claims the first eligible job by priority, then age, passing over the projects
        another transaction has locked. */
    method ClaimJob(w: Worker, locked: set<ProjectId>, now: nat) returns (claimed: Option<JobId>)
      modifies this
      ensures claimed.None? ==>
        && State() == old(State()).(clock := now)
        && forall j | 0 <= j < |old(jobs)| && Claimable(old(State()), j, now) :: old(jobs)[j].project in locked
      ensures claimed.Some? ==>
        && FirstClaimable(old(State()), claimed.value, locked, now)
        && State() == After(old(State()), DoClaim(old(State()), claimed.value, w, now), now)
    {
      var begun := State();
      claimed := None;
      for j := 0 to |jobs|
        invariant State() == begun
        invariant claimed.None? ==>
          forall m | 0 <= m < j && Claimable(begun, m, now) :: jobs[m].project in locked
        invariant claimed.Some? ==>
          && claimed.value < j && Claimable(begun, claimed.value, now) && jobs[claimed.value].project !in locked
          && forall m | 0 <= m < j && Claimable(begun, m, now) && jobs[m].project !in locked ::
               !ClaimedBefore(jobs[m], jobs[claimed.value])
      {
        var eligible := Eligible(j, now);
        if eligible && jobs[j].project !in locked && (claimed.None? || ClaimedBefore(jobs[j], jobs[claimed.value])) {
          claimed := Some(j);
        }
      }
      if claimed.Some? {
        var v := TransitionJob(claimed.value, Request(Leased, {Queued, RetryWait}, mismatch := NotFound),
          (r: Job) => r.(worker := Some(w), attempt := r.attempt + 1));
        assert v.Applied?;
      }
      Close(begun, true, now);
    }

    // ---- plan and task queueing -----------------------------------------------------------

    /** saveGeneratedPlan, after validation: the lowered tasks are stored one by one. */
    method SaveGeneratedPlan(pid: PlanId, project: ProjectId, problems: nat, compatibility: bool,
                             tasks: seq<NewTask>, now: nat) returns (ok: bool)
      modifies this
      ensures ok <==> DoSavePlan(old(State()), pid, project, problems, compatibility, tasks, now).Committed?
      ensures State() ==
        After(old(State()), DoSavePlan(old(State()), pid, project, problems, compatibility, tasks, now), now)
    {
      var begun := State();
      if pid in plans || project !in projects {
        Close(begun, false, now);
        return false;
      }
      var executable := problems == 0;
      var rows: seq<Task> := [];
      if executable {
        rows := BuildTasks(tasks);
      }
      plans := plans[pid := Plan(project, Generating, 1, executable, problems, compatibility, false, now, None, rows)];
      ok := ReadyPlan(pid, executable);
      Close(begun, ok, now);
    }

    method BuildTasks(tasks: seq<NewTask>) returns (rows: seq<Task>)
      ensures rows == StoredTasks(tasks)
    {
      hide StoredTask;
      rows := [];
      for i := 0 to |tasks|
        invariant |rows| == i && forall k | 0 <= k < i :: rows[k] == StoredTask(tasks[k])
      {
        rows := rows + [StoredTask(tasks[i])];
      }
    }

    /** Moves an inserted plan out of `generating` and captures its baseline. */
    method ReadyPlan(pid: PlanId, executable: bool) returns (ok: bool)
      requires pid in plans && plans[pid].status == Generating && !plans[pid].baseline
      modifies this`plans
      ensures ok && plans == old(plans)[pid :=
        MovePlan(old(plans)[pid], if executable then Ready else Blocked).(baseline := executable)]
    {
      var v := TransitionPlan(pid,
        Request(if executable then Ready else Blocked, {Generating}, nonContract := !executable), KeepPlan);
      if executable {
        plans := plans[pid := plans[pid].(baseline := true)];
      }
      ok := !v.Refused?;
    }

    /** insertJob for a task whose row was just queued. */
    method InsertTaskJob(pid: PlanId, i: nat, now: nat)
      requires TaskExists(State(), pid, i) && plans[pid].project in projects
      modifies this`jobs
      ensures jobs == InsertJob(old(jobs), TaskJob(projects, pid, plans[pid], i, now))
    {
      var p := plans[pid];
      var max := projects[p.project].maxRetries;
      if max < 0 {
        max := 0;
      }
      var job := Job(p.project, TaskExecution(pid, i), TaskJobKey(pid, i, p.tasks[i].version), Queued, 1, 0,
                     max + 1, 100, now, now, None, 0);
      jobs := InsertJob(jobs, job);
    }

    /** queuePlanTx; the caller closes the transaction. */
    method QueuePlanTx(pid: PlanId, version: nat, automatic: bool, now: nat) returns (ok: bool)
      modifies this
      ensures ok <==> DoQueuePlanTx(old(State()), pid, version, automatic, now).Committed?
      ensures ok ==> State() == DoQueuePlanTx(old(State()), pid, version, automatic, now).db
    {
      hide NextTask, GateOk, WithTaskJob;
      if pid !in plans || plans[pid].project !in projects {
        return false;
      }
      var state := plans[pid];
      if state.version != version {
        return false;
      }
      var allowed := if automatic then {Ready} else {Ready, Blocked};
      if state.status !in allowed {
        return false;
      }
      var next := NextPlanTask(state, automatic, None);
      if !next.Chosen? || !Retryable(state.tasks[next.index].status) || !state.baseline {
        return false;
      }
      ok := RunPlan(pid, next.index, version, allowed, now);
    }

    /** The writes of queuePlanTx, once its guards passed. */
    method RunPlan(pid: PlanId, k: nat, version: nat, allowed: set<Status>, now: nat) returns (ok: bool)
      requires TaskExists(State(), pid, k) && plans[pid].project in projects
      requires plans[pid].status in allowed && allowed <= {Ready, Blocked} && plans[pid].version == version
      requires Retryable(plans[pid].tasks[k].status)
      modifies this`plans, this`jobs
      ensures ok && State() == WithTaskJob(old(State()), pid,
        MoveTask(MovePlan(old(plans[pid]), Running).(startedAt := Some(now)), k, Queued), k, now)
    {
      hide InsertJob, TaskJob;
      var state := plans[pid];
      var v := TransitionPlan(pid, Request(Running, allowed, version := version, nonContract := true),
        (p: Plan) => p.(startedAt := Some(now)));
      if v.Refused? {
        return false;
      }
      var u := TransitionTask(pid, k,
        Request(Queued, {state.tasks[k].status}, nonContract := true, allowTerminal := true), KeepTask);
      if u.Refused? {
        return false;
      }
      assert plans == old(plans)[pid := MoveTask(MovePlan(state, Running).(startedAt := Some(now)), k, Queued)];
      InsertTaskJob(pid, k, now);
      ok := true;
    }

    method QueuePlan(pid: PlanId, version: nat, now: nat) returns (ok: bool)
      modifies this
      ensures ok <==> DoQueuePlanTx(old(State()), pid, version, false, now).Committed?
      ensures State() == After(old(State()), DoQueuePlanTx(old(State()), pid, version, false, now), now)
    {
      var begun := State();
      ok := QueuePlanTx(pid, version, false, now);
      Close(begun, ok, now);
    }

    method QueuePlanAutomatically(pid: PlanId, now: nat) returns (ok: bool)
      modifies this
      ensures ok <==> DoQueuePlanAutomatically(old(State()), pid, now).Committed?
      ensures State() == After(old(State()), DoQueuePlanAutomatically(old(State()), pid, now), now)
    {
      var begun := State();
      ok := true;
      if pid in plans && plans[pid].project in projects && projects[plans[pid].project].automation
        && plans[pid].status in {Ready, Blocked}
      {
        ok := QueuePlanTx(pid, plans[pid].version, true, now);
      }
      Close(begun, ok, now);
    }

    method QueueTaskTx(pid: PlanId, i: nat, version: nat, now: nat) returns (ok: bool)
      modifies this
      ensures ok <==> DoQueueTask(old(State()), pid, i, version, now).Committed?
      ensures ok ==> State() == DoQueueTask(old(State()), pid, i, version, now).db
    {
      hide NextTask, GateOk, WithTaskJob;
      if pid !in plans || i >= |plans[pid].tasks| || plans[pid].project !in projects {
        return false;
      }
      var state := plans[pid];
      if state.tasks[i].version != version || state.status !in {Running, Ready, Blocked, Interrupted} {
        return false;
      }
      var next := NextPlanTask(state, false, None);
      if next != Chosen(i) || !Retryable(state.tasks[i].status) || !state.baseline {
        return false;
      }
      ok := RetryTask(pid, i, version, now);
    }

    /** The writes of QueueTask, once its guards passed. */
    method RetryTask(pid: PlanId, i: nat, version: nat, now: nat) returns (ok: bool)
      requires TaskExists(State(), pid, i) && plans[pid].project in projects
      requires Retryable(plans[pid].tasks[i].status) && plans[pid].tasks[i].version == version
      modifies this`plans, this`jobs
      ensures ok && State() == WithTaskJob(old(State()), pid, MoveTask(
        if old(plans[pid]).status == Running then old(plans[pid])
        else MovePlan(old(plans[pid]), Running).(startedAt := Some(now)), i, Queued), i, now)
    {
      hide InsertJob, TaskJob;
      var state := plans[pid];
      var u := TransitionTask(pid, i,
        Request(Queued, {state.tasks[i].status}, version := version, nonContract := true, allowTerminal := true),
        KeepTask);
      if u.Refused? {
        return false;
      }
      if state.status != Running {
        var v := TransitionPlan(pid, Request(Running, {state.status}, nonContract := true, allowTerminal := true),
          (p: Plan) => p.(startedAt := Some(now)));
        if v.Refused? {
          return false;
        }
      }
      assert plans == old(plans)[pid := MoveTask(
        if state.status == Running then state else MovePlan(state, Running).(startedAt := Some(now)), i, Queued)];
      InsertTaskJob(pid, i, now);
      ok := true;
    }

    method QueueTask(pid: PlanId, i: nat, version: nat, now: nat) returns (ok: bool)
      modifies this
      ensures ok <==> DoQueueTask(old(State()), pid, i, version, now).Committed?
      ensures State() == After(old(State()), DoQueueTask(old(State()), pid, i, version, now), now)
    {
      var begun := State();
      ok := QueueTaskTx(pid, i, version, now);
      Close(begun, ok, now);
    }

    // ---- task execution ---------------------------------------------------------------------

    /** blockQueuedTaskForSchedulingTx */
    method BlockQueuedTask(pid: PlanId, i: nat) returns (ok: bool)
      requires TaskExists(State(), pid, i)
      modifies this`plans
      ensures ok && plans == old(plans)[pid :=
        var p := old(plans)[pid];
        var p1 := if p.tasks[i].status == Queued then MoveTask(p, i, Pending) else p;
        if p.status == Ready || Executing(p.status) then MovePlan(p1, Blocked) else p1]
    {
      var state := plans[pid];
      if state.tasks[i].status == Queued {
        var u := TransitionTask(pid, i, Request(Pending, {Queued}), KeepTask);
        if u.Refused? {
          return false;
        }
      }
      if state.status in {Ready, Running, Validating, Blocked} {
        var v := TransitionPlan(pid, Request(Blocked, {state.status}, nonContract := true, ignoreTerminal := true),
          KeepPlan);
        if v.Refused? {
          return false;
        }
      }
      ok := true;
    }

    method StartTaskTx(pid: PlanId, i: nat) returns (ok: bool)
      modifies this`plans
      ensures ok <==> DoStartTask(old(State()), pid, i).Committed?
      ensures ok ==> State() == DoStartTask(old(State()), pid, i).db
    {
      if pid !in plans || i >= |plans[pid].tasks| {
        return false;
      }
      hide NextTask, GateOk;
      var state := plans[pid];
      var next := NextPlanTask(state, false, Some(i));
      if next != Chosen(i) || state.status != Running {
        ok := BlockQueuedTask(pid, i);
        return;
      }
      if state.tasks[i].status != Queued || !state.baseline {
        return false;
      }
      ok := BeginTask(pid, i);
    }

    /** The writes of StartTask, once its guards passed. */
    method BeginTask(pid: PlanId, i: nat) returns (ok: bool)
      requires TaskExists(State(), pid, i) && plans[pid].tasks[i].status == Queued && plans[pid].status == Running
      modifies this`plans
      ensures ok && plans == old(plans)[pid :=
        var p1 := MoveTask(old(plans)[pid], i, Running);
        if old(plans)[pid].tasks[i].final then MovePlan(p1, Validating) else p1]
    {
      var u := TransitionTask(pid, i, Request(Running, {Queued}, mismatch := NotFound), KeepTask);
      if u.Refused? {
        return false;
      }
      if plans[pid].tasks[i].final {
        var v := TransitionPlan(pid, Request(Validating, {Running}), KeepPlan);
        if v.Refused? {
          return false;
        }
      }
      ok := true;
    }

    /** Starts a task, or commits what blocking it leaves; `ok` is false when nothing is committed. */
    method StartTask(pid: PlanId, i: nat, now: nat) returns (ok: bool)
      modifies this
      ensures ok <==> DoStartTask(old(State()), pid, i).Committed?
      ensures State() == After(old(State()), DoStartTask(old(State()), pid, i), now)
    {
      var begun := State();
      ok := StartTaskTx(pid, i);
      Close(begun, ok, now);
    }

    /** The part of finishTask after the task row moved to succeeded. */
    method ContinuePlan(pid: PlanId, now: nat) returns (ok: bool)
      requires pid in plans && plans[pid].project in projects
      modifies this
      ensures var f := ContinuedFrom(old(plans[pid]), old(projects[plans[pid].project].automation));
        && (ok <==> !f.FinishRefused?)
        && (ok ==> State() == Finished(old(State()), pid, f, now))
    {
      hide NextTask, GateOk, InsertJob, TaskJob;
      var state := plans[pid];
      if state.status == Cancelled || state.status == Completed {
        return true;
      }
      if !projects[state.project].automation {
        ok := EndPlan(pid, Cancelled, true);
        return;
      }
      var next := NextPlanTask(state, true, None);
      match next {
        case Refusal => ok := BlockAfterGate(pid);
        case AllDone => ok := EndPlan(pid, Completed, false);
        case Chosen(k) =>
          ok := QueueNext(pid, k);
          InsertTaskJob(pid, k, now);
      }
    }

    /** Moves an executing plan to its end; terminal plans are left alone. */
    method EndPlan(pid: PlanId, to: Status, nonContract: bool) returns (ok: bool)
      requires pid in plans && ((to == Cancelled && nonContract) || to == Completed)
      requires plans[pid].status != to
      modifies this`plans
      ensures var f := MoveUnlessTerminal(old(plans)[pid], to);
        (ok <==> !f.FinishRefused?) && (ok ==> plans == old(plans)[pid := f.plan])
    {
      var v := TransitionPlan(pid, Request(to, {Running, Validating}, nonContract := nonContract, ignoreTerminal := true),
        KeepPlan);
      ok := !v.Refused?;
    }

    /** blockPlanAfterSchedulingGateTx */
    method BlockAfterGate(pid: PlanId) returns (ok: bool)
      requires pid in plans
      modifies this`plans
      ensures ok && plans == old(plans)[pid :=
        var p := old(plans)[pid];
        if p.status == Blocked || Terminal(PlanResource, p.status) then p else MovePlan(p, Blocked)]
    {
      var v := TransitionPlan(pid, Request(Blocked, {plans[pid].status}, nonContract := true, ignoreTerminal := true),
        KeepPlan);
      ok := !v.Refused?;
    }

    method QueueNext(pid: PlanId, k: nat) returns (ok: bool)
      requires TaskExists(State(), pid, k) && plans[pid].tasks[k].status == Pending
      modifies this`plans
      ensures ok && plans == old(plans)[pid := MoveTask(old(plans)[pid], k, Queued)]
    {
      var u := TransitionTask(pid, k, Request(Queued, {Pending}), KeepTask);
      ok := !u.Refused?;
    }

    /** Moves a running task to its end and stores its acceptance. */
    method JudgeTask(pid: PlanId, i: nat, success: bool, blank: bool) returns (ok: bool)
      requires TaskExists(State(), pid, i) && plans[pid].tasks[i].status == Running
      modifies this`plans
      ensures ok <==> !blank
      ensures ok ==> plans == old(plans)[pid := JudgedPlan(old(plans)[pid], i, success)]
    {
      var acceptance := if success then Passed else AcceptanceFailed;
      var items := BuildAcceptanceResult(plans[pid].tasks[i].criteria, acceptance);
      var u := TransitionTask(pid, i,
        Request(if success then Succeeded else Failed, {Running}, ignoreTerminal := true, blankReason := blank),
        (r: Task) => r.(acceptance := acceptance, results := items));
      ok := !u.Refused?;
    }

    /** The writes of finishTask for a task that is running. */
    method FinishRunning(pid: PlanId, i: nat, success: bool, blank: bool, now: nat) returns (ok: bool)
      requires TaskExists(State(), pid, i) && plans[pid].project in projects && plans[pid].tasks[i].status == Running
      modifies this
      ensures var f := FinishPlan(old(plans)[pid], i, success, old(projects[plans[pid].project].automation));
        && (ok <==> !blank && !f.FinishRefused?)
        && (ok ==> State() == Finished(old(State()), pid, f, now))
    {
      hide ContinuedFrom, BlockExecuting, InsertJob, TaskJob;
      ok := JudgeTask(pid, i, success, blank);
      if ok {
        assert plans[pid].project == old(plans)[pid].project;
        if success {
          ok := ContinuePlan(pid, now);
        } else {
          ok := BlockPlan(pid);
        }
      }
    }

    method FinishTask(pid: PlanId, i: nat, success: bool, blank: bool, now: nat) returns (ok: bool)
      modifies this
      ensures ok <==> DoFinishTask(old(State()), pid, i, success, blank, now).Committed?
      ensures State() == After(old(State()), DoFinishTask(old(State()), pid, i, success, blank, now), now)
    {
      hide FinishPlan, WithTaskJob;
      var begun := State();
      if pid !in plans || i >= |plans[pid].tasks| || plans[pid].project !in projects {
        ok := false;
      } else if plans[pid].tasks[i].status != Running {
        var s := plans[pid].tasks[i].status;
        ok := Terminal(TaskResource, s) || s == Pending;
      } else {
        ok := FinishRunning(pid, i, success, blank, now);
      }
      Close(begun, ok, now);
    }

    method ReturnTaskPending(pid: PlanId, i: nat, blank: bool, now: nat) returns (ok: bool)
      modifies this
      ensures ok <==> DoReturnPending(old(State()), pid, i, blank).Committed?
      ensures State() == After(old(State()), DoReturnPending(old(State()), pid, i, blank), now)
    {
      var begun := State();
      var v := TransitionTask(pid, i,
        Request(Pending, {Running}, nonContract := true, ignoreTerminal := true, blankReason := blank), KeepTask);
      // a status mismatch is swallowed: the task is no longer this worker's to return
      ok := !v.Refused? || v.error == InvalidTransition;
      Close(begun, ok, now);
    }

    method ReturnTaskQueuedForRetry(pid: PlanId, i: nat, blank: bool, now: nat) returns (ok: bool)
      modifies this
      ensures ok <==> DoReturnQueued(old(State()), pid, i, blank).Committed?
      ensures State() == After(old(State()), DoReturnQueued(old(State()), pid, i, blank), now)
    {
      var begun := State();
      var v := TransitionTask(pid, i,
        Request(Queued, {Running}, nonContract := true, ignoreTerminal := true, blankReason := blank), KeepTask);
      ok := !v.Refused?;
      Close(begun, ok, now);
    }

    // ---- stopping work -------------------------------------------------------------------

    /** Cancels the jobs a query selects, in the order it returned them. */
    method CancelJobs(pick: Job -> bool, request: Status -> Request)
      requires forall j | pick(j) ::
        && request(j.status).status == Cancelled
        && Gate(JobResource, j.status, j.version, j.worker, request(j.status)) == Applied
      modifies this`jobs
      ensures jobs == CancelWhere(old(jobs), pick)
    {
      var rows: seq<JobId> := [];
      for k := 0 to |jobs|
        invariant forall m | 0 <= m < |jobs| :: m in rows <==> m < k && pick(jobs[m])
        invariant forall a | 0 <= a < |rows| :: rows[a] < k
        invariant forall a, b | 0 <= a < b < |rows| :: rows[a] < rows[b]
      {
        if pick(jobs[k]) {
          rows := rows + [k];
        }
      }
      ghost var was := jobs;
      for n := 0 to |rows|
        invariant |jobs| == |was|
        invariant forall k | 0 <= k < |was| ::
          jobs[k] == if k in rows[..n] then MoveJob(was[k], Cancelled) else was[k]
      {
        assert rows[n] in rows && rows[n] !in rows[..n];
        assert forall k :: k in rows[..n + 1] <==> k in rows[..n] || k == rows[n];
        var v := TransitionJob(rows[n], request(jobs[rows[n]].status), KeepJob);
      }
      assert rows[..|rows|] == rows;
    }

    /** Puts the tasks of a plan that a query selects back to pending. */
    method ResetTasks(pid: PlanId, pick: Task -> bool, q: Request)
      requires pid in plans && q.status == Pending
      requires forall t | pick(t) :: Gate(TaskResource, t.status, t.version, None, q) == Applied
      modifies this`plans
      ensures plans == old(plans)[pid := old(plans[pid]).(tasks := ResetWhere(old(plans[pid]).tasks, pick))]
    {
      hide Gate;
      ghost var was := plans[pid];
      for k := 0 to |plans[pid].tasks|
        invariant pid in plans && plans == old(plans)[pid := was.(tasks := plans[pid].tasks)]
        invariant |plans[pid].tasks| == |was.tasks|
        invariant forall m | 0 <= m < k :: plans[pid].tasks[m] == ResetWhere(was.tasks, pick)[m]
        invariant forall m | k <= m < |was.tasks| :: plans[pid].tasks[m] == was.tasks[m]
      {
        if pick(plans[pid].tasks[k]) {
          var v := TransitionTask(pid, k, q, KeepTask);
        }
      }
      assert plans[pid].tasks == ResetWhere(was.tasks, pick);
    }

    /** Stops a task; `active` are the jobs whose process the caller still has to signal. */
    method StopTask(pid: PlanId, i: nat, version: nat, now: nat) returns (ok: bool, active: set<JobId>)
      modifies this
      ensures ok <==> DoStopTask(old(State()), pid, i, version).Committed?
      ensures State() == After(old(State()), DoStopTask(old(State()), pid, i, version), now)
      ensures ok ==> active == JobsWhere(old(jobs), (j: Job) => OfTask(j, pid, i) && InFlight(j.status))
    {
      var begun := State();
      ok, active := false, {};
      if pid in plans && i < |plans[pid].tasks| {
        var t := plans[pid].tasks[i];
        if t.version == version && ActiveStatus(t.status) {
          ok := true;
          active := JobsWhere(jobs, (j: Job) => OfTask(j, pid, i) && InFlight(j.status));
          if t.status == Queued {
            CancelJobs((j: Job) => OfTask(j, pid, i) && Stoppable(j.status),
              (s: Status) => Request(Cancelled, {Queued, RetryWait, Leased}, nonContract := true, ignoreTerminal := true));
            var v := TransitionTask(pid, i, Request(Pending, {Queued}, version := version), KeepTask);
            ok := !v.Refused?;
          }
        }
      }
      Close(begun, ok, now);
    }

    /** The jobs and tasks of a plan that is being stopped. */
    method StopPlanWork(pid: PlanId) returns (active: set<JobId>)
      requires pid in plans
      modifies this`jobs, this`plans
      ensures jobs == CancelWhere(old(jobs), (j: Job) => OfPlan(j, pid) && Stoppable(j.status))
      ensures plans == old(plans)[pid :=
        old(plans)[pid].(tasks := ResetWhere(old(plans)[pid].tasks, (t: Task) => t.status == Queued))]
      ensures active == JobsWhere(old(jobs), (j: Job) => OfPlan(j, pid) && j.status == Running)
    {
      active := JobsWhere(jobs, (j: Job) => OfPlan(j, pid) && j.status == Running);
      CancelJobs((j: Job) => OfPlan(j, pid) && Stoppable(j.status),
        (s: Status) => Request(Cancelled, {Queued, RetryWait, Leased}, nonContract := true, ignoreTerminal := true));
      ResetTasks(pid, (t: Task) => t.status == Queued, Request(Pending, {Queued}));
    }

    /** The plan row of a plan that is being stopped. */
    method StopPlanRow(pid: PlanId, version: nat) returns (ok: bool)
      modifies this`plans
      ensures ok <==> DoStopPlan(old(State()), pid, version).Committed?
      ensures ok ==> pid in old(plans) && plans == old(plans)[pid := if Terminal(PlanResource, old(plans)[pid].status)
        then old(plans)[pid] else MovePlan(old(plans)[pid], Cancelled)]
    {
      hide CancelWhere, ResetWhere;
      var v := TransitionPlan(pid, Request(Cancelled, {Ready, Running, Validating, Blocked}, version := version,
        nonContract := true, ignoreTerminal := true), KeepPlan);
      ok := !v.Refused?;
    }

    method StopPlan(pid: PlanId, version: nat, now: nat) returns (ok: bool, active: set<JobId>)
      modifies this
      ensures ok <==> DoStopPlan(old(State()), pid, version).Committed?
      ensures State() == After(old(State()), DoStopPlan(old(State()), pid, version), now)
      ensures ok ==> active == JobsWhere(old(jobs), (j: Job) => OfPlan(j, pid) && j.status == Running)
    {
      hide CancelWhere, ResetWhere, JobsWhere;
      var begun := State();
      active := {};
      ok := StopPlanRow(pid, version);
      if ok {
        active := StopPlanWork(pid);
      }
      Close(begun, ok, now);
    }

    method SetTaskAside(pid: PlanId, i: nat) returns (ok: bool)
      modifies this`plans
      ensures ok <==> TaskExists(old(State()), pid, i) && DriftPlan(old(plans)[pid], i).Some?
      ensures ok ==> plans == old(plans)[pid := DriftPlan(old(plans[pid]), i).value]
    {
      var u := TransitionTask(pid, i,
        Request(Pending, {Queued, Running, Failed}, nonContract := true, allowTerminal := true), KeepTask);
      if u.Refused? {
        return false;
      }
      var v := TransitionPlan(pid, Request(Blocked, {Running, Validating}, ignoreTerminal := true), KeepPlan);
      ok := !v.Refused?;
    }

    method BlockTaskJobForDrift(j: JobId, w: Worker, now: nat) returns (ok: bool)
      modifies this
      ensures ok <==> DoBlockForDrift(old(State()), j, w).Committed?
      ensures State() == After(old(State()), DoBlockForDrift(old(State()), j, w), now)
    {
      hide DriftPlan;
      var begun := State();
      ok := false;
      var v := TransitionJob(j, Request(Failed, {Leased, Running}, worker := Some(w), nonContract := true,
        ignoreTerminal := true, mismatch := NotFound), KeepJob);
      if !v.Refused? {
        match jobs[j].kind {
          case PlanGeneration(_) => ok := true;
          case TaskExecution(pid, i) =>
            ok := SetTaskAside(pid, i);
        }
      }
      Close(begun, ok, now);
    }

    // ---- automation ------------------------------------------------------------------------

    method QueueGeneration(project: ProjectId, intake: nat, intakeVersion: nat, now: nat) returns (ok: bool)
      modifies this
      ensures ok <==> DoQueueGeneration(old(State()), project, intake, intakeVersion, now).Committed?
      ensures State() == After(old(State()), DoQueueGeneration(old(State()), project, intake, intakeVersion, now), now)
    {
      var begun := State();
      ok := project in projects;
      if ok {
        jobs := InsertJob(jobs,
          NewJob(projects, PlanGeneration(intake), IntakeJobKey(intake, intakeVersion), project, now));
      }
      Close(begun, ok, now);
    }

    /** Puts every plan with active work back to ready, and its active tasks back to pending. */
    method PausePlans(project: ProjectId) returns (ok: bool)
      modifies this`plans
      ensures ok <==> forall q | q in old(plans) && Paused(old(plans)[q], project) :: Pausable(old(plans)[q].status)
      ensures ok ==> plans == PausedPlans(old(plans), project)
    {
      hide Paused, PausedPlan, Pausable, PausedIn;
      var all := set q | q in plans && Paused(plans[q], project);
      var rest := all;
      NothingPaused(plans);
      assert all - rest == {};
      while rest != {}
        invariant rest <= all && plans == PausedIn(old(plans), all - rest)
        invariant forall q | q in all && q !in rest :: Pausable(old(plans)[q].status)
        decreases |rest|
      {
        var q :| q in rest;
        OneMorePaused(old(plans), all - rest, q);
        ok := PausePlan(q);
        if !ok {
          return;
        }
        assert all - (rest - {q}) == all - rest + {q};
        rest := rest - {q};
      }
      assert all - rest == all;
      ok := true;
    }

    method PausePlan(q: PlanId) returns (ok: bool)
      requires q in plans
      modifies this`plans
      ensures ok <==> Pausable(old(plans[q]).status)
      ensures ok ==> plans == old(plans)[q := PausedPlan(old(plans[q]))]
    {
      var v := TransitionPlan(q, Request(Ready, {Ready, Running, Validating, Completed, Failed, Cancelled},
        nonContract := true, ignoreTerminal := true), KeepPlan);
      if v.Refused? {
        return false;
      }
      ResetTasks(q, (t: Task) => ActiveStatus(t.status),
        Request(Pending, {Queued, Running}, nonContract := true, ignoreTerminal := true));
      ok := true;
    }

    /** Queues the ready plans of a project at the versions a query read. */
    method QueueReadyPlans(order: seq<PlanId>, now: nat) returns (ok: bool)
      requires forall a, b | 0 <= a < b < |order| :: order[a] != order[b]
      requires forall q | q in order :: q in plans
      modifies this
      ensures ok <==> DoQueueAll(old(State()), order, now).Committed?
      ensures ok ==> State() == DoQueueAll(old(State()), order, now).db
    {
      hide DoQueuePlanTx;
      ghost var begun := State();
      var versions := seq(|order|, k requires 0 <= k < |order| reads this requires order[k] in plans => plans[order[k]].version);
      for n := 0 to |order|
        invariant DoQueueAll(begun, order, now) == DoQueueAll(State(), order[n..], now)
        invariant forall m | n <= m < |order| :: order[m] in plans && plans[order[m]] == begun.plans[order[m]]
      {
        ghost var before := State();
        assert order[n..][0] == order[n] && order[n..][1..] == order[n + 1..];
        var queued := QueuePlanTx(order[n], versions[n], true, now);
        if !queued {
          return false;
        }
        QueueTouchesOne(before, order[n], versions[n], now);
      }
      ok := true;
    }

    /** `order` lists the ready plans of the project as the query returned them. */
    method SetAutomation(project: ProjectId, enabled: bool, version: nat, order: seq<PlanId>, now: nat)
      returns (ok: bool)
      requires enabled ==> ReadyOrder(State(), project, order)
      modifies this
      ensures ok <==> DoSetAutomation(old(State()), project, enabled, version, order, now).Committed?
      ensures State() == After(old(State()), DoSetAutomation(old(State()), project, enabled, version, order, now), now)
    {
      hide DoQueueAll, Paused, PausedPlan;
      var begun := State();
      ok := false;
      if project in projects && projects[project].version == version {
        projects := projects[project := projects[project].(automation := enabled, version := version + 1)];
        if enabled {
          ok := QueueReadyPlans(order, now);
        } else {
          CancelJobs((j: Job) => j.project == project && AutomationWork(j.status),
            (s: Status) => Request(Cancelled, {s}, nonContract := true, ignoreTerminal := true));
          ok := PausePlans(project);
        }
      }
      Close(begun, ok, now);
    }

    // ---- shutdown -----------------------------------------------------------------------------

    /** Requeues the generation jobs and cancels the task jobs of an instance; returns the tasks
        those jobs were for. */
    method ReleaseOwnedJobs(instance: string, now: nat) returns (owned: seq<(PlanId, nat)>)
      modifies this`jobs
      ensures |jobs| == |old(jobs)|
      ensures forall k | 0 <= k < |jobs| :: jobs[k] == ShutdownJob(old(jobs)[k], instance, now)
      ensures forall pid: PlanId, i: nat :: (pid, i) in owned <==> OwnsTask(old(jobs), instance, pid, i)
    {
      owned := [];
      for k := 0 to |jobs|
        invariant |jobs| == |old(jobs)|
        invariant forall m | 0 <= m < k :: jobs[m] == ShutdownJob(old(jobs)[m], instance, now)
        invariant forall m | k <= m < |jobs| :: jobs[m] == old(jobs)[m]
        invariant forall pid: PlanId, i: nat :: (pid, i) in owned <==>
          exists m | 0 <= m < k :: Owned(old(jobs)[m], instance) && OfTask(old(jobs)[m], pid, i)
      {
        var job := jobs[k];
        if Owned(job, instance) {
          match job.kind {
            case PlanGeneration(_) =>
              var v := TransitionJob(k, Request(Queued, {job.status}, nonContract := true, ignoreTerminal := true),
                (r: Job) => r.(worker := None, runAfter := now, attempt := Refund(r.attempt)));
            case TaskExecution(pid, i) =>
              owned := owned + [(pid, i)];
              var v := TransitionJob(k, Request(Cancelled, {job.status}, nonContract := true, ignoreTerminal := true),
                (r: Job) => r.(worker := None));
          }
        }
      }
    }

    /** Puts the running tasks among `owned` back to pending; `changed` are their plans. */
    method InterruptTasks(owned: seq<(PlanId, nat)>) returns (ok: bool, changed: set<PlanId>)
      modifies this`plans
      ensures ok <==> forall m | 0 <= m < |owned| :: !Unfit(old(plans), owned[m].0, owned[m].1)
      ensures ok ==> plans == AllAside(old(plans), owned)
      ensures ok ==> forall q :: q in changed <==> ChangedBy(old(plans), owned, |owned|, q)
    {
      hide AllAside, ChangedBy;
      changed := {};
      NothingAside(plans);
      for n := 0 to |owned|
        invariant plans == AllAside(old(plans), owned[..n])
        invariant forall m | 0 <= m < n :: !Unfit(old(plans), owned[m].0, owned[m].1)
        invariant forall q :: q in changed <==> ChangedBy(old(plans), owned, n, q)
      {
        var (pid, i) := owned[n];
        OneMoreAside(old(plans), owned, n);
        var v := TransitionTask(pid, i, Request(Pending, {Running}, nonContract := true, ignoreTerminal := true), KeepTask);
        if v.Refused? {
          return false, changed;
        }
        if v.Applied? {
          changed := changed + {pid};
        }
      }
      assert owned[..|owned|] == owned;
      ok := true;
    }

    method BlockPlan(q: PlanId) returns (ok: bool)
      requires q in plans
      modifies this`plans
      ensures ok <==> BlockExecuting(old(plans)[q]).Some?
      ensures ok ==> plans == old(plans)[q := BlockExecuting(old(plans)[q]).value]
    {
      var v := TransitionPlan(q, Request(Blocked, {Running, Validating}, ignoreTerminal := true), KeepPlan);
      ok := !v.Refused?;
    }

    method BlockPlans(changed: set<PlanId>) returns (ok: bool)
      requires changed <= plans.Keys
      modifies this`plans
      ensures ok <==> forall q | q in changed :: BlockExecuting(old(plans)[q]).Some?
      ensures ok ==> plans.Keys == old(plans).Keys
      ensures ok ==> forall q | q in plans ::
        plans[q] == if q in changed then BlockExecuting(old(plans)[q]).value else old(plans)[q]
    {
      hide BlockExecuting;
      var rest := changed;
      while rest != {}
        invariant rest <= changed && plans.Keys == old(plans).Keys
        invariant forall q | q in changed && q !in rest :: BlockExecuting(old(plans)[q]).Some?
        invariant forall q | q in plans ::
          plans[q] == if q in changed && q !in rest then BlockExecuting(old(plans)[q]).value else old(plans)[q]
        decreases |rest|
      {
        var q :| q in rest;
        ok := BlockPlan(q);
        if !ok {
          return;
        }
        rest := rest - {q};
      }
      ok := true;
    }

    method ReconcileInstanceShutdown(instance: string, now: nat) returns (ok: bool)
      modifies this
      ensures ok <==> DoShutdown(old(State()), instance, now).Committed?
      ensures State() == After(old(State()), DoShutdown(old(State()), instance, now), now)
    {
      hide AllAside, ChangedBy, Unfit, InterruptedPlan, AnyInterrupts, BlockExecuting, ShutdownJob, Owned;
      var begun := State();
      var owned := ReleaseOwnedJobs(instance, now);
      OwnedTasks(begun, instance, owned);
      var changed;
      ok, changed := InterruptTasks(owned);
      if ok {
        ok := BlockPlans(changed);
        assert ok <==> forall q | q in begun.plans :: ShutdownPlan(begun, instance, q).Some?;
      }
      assert ok <==> !ShutdownRefused(begun, instance);
      assert ok ==> plans == DoShutdown(begun, instance, now).db.plans;
      assert ok ==> jobs == DoShutdown(begun, instance, now).db.jobs;
      Close(begun, ok, now);
    }

    // ---- recovery -------------------------------------------------------------------------------

    /** convergeRecoveredTask: the task and the plan of a lost job, from the statuses the pass read. */
    method ConvergeTask(pid: PlanId, i: nat, o: RecoveryOutcome) returns (ok: bool)
      requires TaskExists(State(), pid, i)
      modifies this`plans
      ensures ok <==> RecoverPlan(old(plans)[pid], i, o).Some?
      ensures ok ==> plans == old(plans)[pid := RecoverPlan(old(plans)[pid], i, o).value]
    {
      var planStatus := plans[pid].status;
      if Terminal(TaskResource, plans[pid].tasks[i].status) {
        return true;
      }
      var u := TransitionTask(pid, i, Request(OutcomeTaskStatus(o), {Queued, Running, Cancelling},
        nonContract := true, ignoreTerminal := true), KeepTask);
      if u.Refused? {
        return false;
      }
      if o == UserCancelled || !Executing(planStatus) {
        return true;
      }
      var v := TransitionPlan(pid, Request(Blocked, {Running, Validating, Cancelling},
        nonContract := true, ignoreTerminal := true), KeepPlan);
      ok := !v.Refused?;
    }

    /** One candidate of the pass. `job`, `task` and `plan` are what the pass read before its loop. */
    method RecoverCandidate(c: Candidate, job: Job, task: Option<Status>, plan: Option<Status>, now: nat)
      returns (ok: bool)
      requires c.job < |jobs| && job == jobs[c.job] && task == TaskStatusOf(State(), job) && plan == PlanStatusOf(State(), job)
      requires InFlight(job.status) || job.status == Cancelling
      modifies this`plans, this`jobs
      ensures ok <==> DoRecover(old(State()), c.job, c.run, c.evidence, now).Committed?
      ensures ok ==> State() == DoRecover(old(State()), c.job, c.run, c.evidence, now).db
    {
      hide RecoverPlan, CandidateActive, CancellationIntent;
      if CandidateActive(c.run, c.evidence) {
        return true;
      }
      var intent := CancellationIntent(job.status, task, plan, c.run, c.evidence);
      if !intent && c.run.None? && task != Some(Running) && task != Some(Cancelling) {
        ok := RequeueUnstarted(c.job, now);
        return;
      }
      var o := ChooseOutcome(c.run, intent);
      ok := EndLostJob(c.job, o);
      if ok && task.Some? {
        ok := ConvergeTask(job.kind.plan, job.kind.index, o);
      }
    }

    method RequeueUnstarted(j: JobId, now: nat) returns (ok: bool)
      requires j < |jobs| && (InFlight(jobs[j].status) || jobs[j].status == Cancelling)
      modifies this`jobs
      ensures ok && jobs == old(jobs)[j := Requeue(old(jobs)[j], now)]
    {
      var v := TransitionJob(j, Request(Queued, {Leased, Running, Cancelling}, nonContract := true, ignoreTerminal := true),
        (r: Job) => r.(worker := None, runAfter := now, attempt := Refund(r.attempt)));
      ok := !v.Refused?;
    }

    method EndLostJob(j: JobId, o: RecoveryOutcome) returns (ok: bool)
      requires j < |jobs| && (InFlight(jobs[j].status) || jobs[j].status == Cancelling)
      modifies this`jobs
      ensures ok && jobs == old(jobs)[j := MoveJob(old(jobs)[j], OutcomeStatus(o)).(worker := None)]
    {
      var v := TransitionJob(j,
        Request(OutcomeStatus(o), {Leased, Running, Cancelling}, nonContract := true, ignoreTerminal := true),
        (r: Job) => r.(worker := None));
      ok := !v.Refused?;
    }

    /** Recovers the lost jobs among the candidates, whose rows are all read before the first
        change: no candidate changes what was read for another. */
    method ReconcileRuntimeState(cs: seq<Candidate>, now: nat) returns (ok: bool)
      requires Inv(State()) && Candidates(State(), cs)
      modifies this
      ensures ok <==> DoReconcile(old(State()), cs, now).Committed?
      ensures State() == After(old(State()), DoReconcile(old(State()), cs, now), now)
    {
      hide Inv, DoRecover, TaskStatusOf, PlanStatusOf, Candidates;
      var begun := State();
      var rows := ReadCandidates(cs);
      ok := true;
      CandidatesUntouched(begun, cs);
      for n := 0 to |cs|
        invariant DoReconcile(begun, cs, now) == DoReconcile(State(), cs[n..], now)
        invariant Untouched(begun, State(), cs, n)
      {
        ghost var before := State();
        assert cs[n..][0] == cs[n] && cs[n..][1..] == cs[n + 1..];
        StillAsRead(begun, before, cs, n);
        ok := RecoverCandidate(cs[n], rows[n].0, rows[n].1, rows[n].2, now);
        if !ok {
          break;
        }
        OthersUntouched(begun, before, cs, n, now);
      }
      Close(begun, ok, now);
    }

    method ReadCandidates(cs: seq<Candidate>) returns (rows: seq<(Job, Option<Status>, Option<Status>)>)
      requires Candidates(State(), cs)
      ensures |rows| == |cs|
      ensures forall n | 0 <= n < |cs| :: cs[n].job < |jobs| && rows[n] == ReadRow(State(), cs[n].job)
    {
      rows := [];
      for n := 0 to |cs|
        invariant |rows| == n && forall m | 0 <= m < n :: rows[m] == ReadRow(State(), cs[m].job)
      {
        rows := rows + [ReadRow(State(), cs[n].job)];
      }
    }
  }
}
