/** When the two clean-up transactions commit: a recovery pass over lost jobs, and the shutdown of
    a backend instance. */
module Recovery {
  import opened Lifecycle
  import opened Schedule
  import opened Protocol
  import opened Invariants
  import opened Stores
  import WorkerPool

  // ---- the statuses of reachable rows -------------------------------------------

  predicate TaskWord(s: Status) { s in {Pending, Queued, Running, Succeeded, Failed, Interrupted, Cancelled} }

  predicate PlanWord(s: Status) { s in {Ready, Running, Validating, Blocked, Completed, Cancelled} }

  /** Plans and tasks have the statuses the steps write, and a running task stands in a plan that
      executes, is blocked or has ended. */
  predicate Housed(p: Plan) {
    && PlanWord(p.status)
    && forall i | 0 <= i < |p.tasks| ::
      && TaskWord(p.tasks[i].status)
      && (p.tasks[i].status == Running ==> Executing(p.status) || p.status == Blocked || Terminal(PlanResource, p.status))
  }

  predicate AllHoused(db: Db) { forall q | q in db.plans :: Housed(db.plans[q]) }

  lemma OneHoused(db: Db, pid: PlanId, p: Plan)
    requires AllHoused(db) && Housed(p)
    ensures AllHoused(db.(plans := db.plans[pid := p]))
  {
  }

  lemma TaskMoved(p: Plan, i: nat, to: Status)
    requires Housed(p) && i < |p.tasks| && TaskWord(to)
    requires to == Running ==> Executing(p.status)
    ensures Housed(MoveTask(p, i, to))
  {
    hide Terminal;
  }

  lemma PlanMoved(p: Plan, to: Status, at: Option<nat>)
    requires Housed(p) && (Executing(to) || to == Blocked || to == Completed || to == Cancelled)
    ensures Housed(MovePlan(p, to)) && Housed(MovePlan(p, to).(startedAt := at))
  {
  }

  lemma QueueTxHouses(db: Db, pid: PlanId, version: nat, automatic: bool, now: nat)
    requires AllHoused(db) && DoQueuePlanTx(db, pid, version, automatic, now).Committed?
    ensures AllHoused(DoQueuePlanTx(db, pid, version, automatic, now).db)
  {
    hide NextTask, InsertJob, TaskJob, Housed;
    var p := db.plans[pid];
    PlanMoved(p, Running, Some(now));
    TaskMoved(MovePlan(p, Running).(startedAt := Some(now)), NextTask(p, automatic, None).index, Queued);
  }

  lemma {:induction false} QueueAllHouses(db: Db, order: seq<PlanId>, now: nat)
    requires AllHoused(db) && DoQueueAll(db, order, now).Committed?
    ensures AllHoused(DoQueueAll(db, order, now).db)
    decreases |order|
  {
    hide DoQueuePlanTx, AllHoused;
    if order == [] {
    } else {
      QueueTxHouses(db, order[0], db.plans[order[0]].version, true, now);
      QueueAllHouses(DoQueuePlanTx(db, order[0], db.plans[order[0]].version, true, now).db, order[1..], now);
    }
  }

  lemma QueueTaskHouses(db: Db, pid: PlanId, i: nat, version: nat, now: nat)
    requires AllHoused(db) && DoQueueTask(db, pid, i, version, now).Committed?
    ensures AllHoused(DoQueueTask(db, pid, i, version, now).db)
  {
    hide NextTask, InsertJob, TaskJob, Housed;
    var p := db.plans[pid];
    PlanMoved(p, Running, Some(now));
    TaskMoved(if p.status == Running then p else MovePlan(p, Running).(startedAt := Some(now)), i, Queued);
  }

  lemma SaveHouses(db: Db, s: Step, now: nat)
    requires AllHoused(db) && Do(db, s, now).Committed? && s.SavePlan?
    ensures AllHoused(Do(db, s, now).db)
  {
  }

  lemma StartHouses(db: Db, pid: PlanId, i: nat)
    requires AllHoused(db) && DoStartTask(db, pid, i).Committed?
    ensures AllHoused(DoStartTask(db, pid, i).db)
  {
    hide NextTask, Housed, AllHoused;
    var p := db.plans[pid];
    assert Housed(p) by { HousedAt(db, pid); }
    if NextTask(p, false, Some(i)) != Chosen(i) || p.status != Running {
      var p1 := if p.tasks[i].status == Queued then MoveTask(p, i, Pending) else p;
      if p.tasks[i].status == Queued {
        TaskMoved(p, i, Pending);
      }
      PlanMoved(p1, Blocked, None);
    } else {
      TaskMoved(p, i, Running);
      PlanMoved(MoveTask(p, i, Running), Validating, None);
    }
    OneHoused(db, pid, StartPlan(p, i).value);
  }

  lemma HousedAt(db: Db, pid: PlanId)
    requires AllHoused(db) && pid in db.plans
    ensures Housed(db.plans[pid])
  {
  }

  lemma JudgedHouses(p: Plan, i: nat, success: bool)
    requires Housed(p) && i < |p.tasks|
    ensures Housed(JudgedPlan(p, i, success))
  {
    hide BuildResults, Terminal;
  }

  lemma FinishHouses(db: Db, pid: PlanId, i: nat, success: bool, blank: bool, now: nat)
    requires AllHoused(db) && DoFinishTask(db, pid, i, success, blank, now).Committed?
    ensures AllHoused(DoFinishTask(db, pid, i, success, blank, now).db)
  {
    hide NextTask, Housed, InsertJob, TaskJob, JudgedPlan;
    var p := db.plans[pid];
    JudgedHouses(p, i, success);
    var q := JudgedPlan(p, i, success);
    PlanMoved(q, Blocked, None);
    PlanMoved(q, Completed, None);
    PlanMoved(q, Cancelled, None);
    match NextTask(q, true, None) {
      case Chosen(k) => TaskMoved(q, k, Queued);
      case _ =>
    }
  }

  lemma ReturnHouses(db: Db, s: Step, now: nat)
    requires AllHoused(db) && Do(db, s, now).Committed?
    requires s.ReturnPending? || s.ReturnQueued? || s.StopTask?
    ensures AllHoused(Do(db, s, now).db)
  {
    hide Housed, Terminal;
    var p := db.plans[s.plan];
    TaskMoved(p, s.index, Pending);
    TaskMoved(p, s.index, Queued);
  }

  lemma ResetHouses(p: Plan, q: Plan, pick: Task -> bool)
    requires Housed(p) && q.status == p.status && q.tasks == ResetWhere(p.tasks, pick)
    ensures Housed(q)
  {
    hide Terminal;
  }

  lemma StopPlanHouses(db: Db, pid: PlanId, version: nat)
    requires AllHoused(db) && DoStopPlan(db, pid, version).Committed?
    ensures AllHoused(DoStopPlan(db, pid, version).db)
  {
    hide Housed;
    var p := db.plans[pid];
    PlanMoved(p, Cancelled, None);
    var q := DoStopPlan(db, pid, version).db.plans[pid];
    ResetHouses(if Terminal(PlanResource, p.status) then p else MovePlan(p, Cancelled), q, (t: Task) => t.status == Queued);
  }

  lemma BlockHouses(p: Plan)
    requires Housed(p) && BlockExecuting(p).Some?
    ensures Housed(BlockExecuting(p).value)
  {
    PlanMoved(p, Blocked, None);
  }

  lemma DriftHouses(db: Db, j: JobId, w: Worker)
    requires AllHoused(db) && DoBlockForDrift(db, j, w).Committed?
    ensures AllHoused(DoBlockForDrift(db, j, w).db)
  {
    hide Housed, BlockExecuting, Terminal;
    var job := db.jobs[j];
    if job.kind.TaskExecution? {
      var p, i := db.plans[job.kind.plan], job.kind.index;
      TaskMoved(p, i, Pending);
      if BlockExecuting(p).Some? {
        BlockHouses(p);
      }
      if BlockExecuting(MoveTask(p, i, Pending)).Some? {
        BlockHouses(MoveTask(p, i, Pending));
      }
    }
  }

  lemma PausedHouses(p: Plan)
    requires Housed(p)
    ensures Housed(PausedPlan(p))
  {
  }

  lemma AutomationHouses(db: Db, project: ProjectId, enabled: bool, version: nat, order: seq<PlanId>, now: nat)
    requires AllHoused(db) && DoSetAutomation(db, project, enabled, version, order, now).Committed?
    ensures AllHoused(DoSetAutomation(db, project, enabled, version, order, now).db)
  {
    hide Housed, PausedPlan, DoQueueAll;
    var db1 := db.(projects := db.projects[project := db.projects[project].(automation := enabled, version := version + 1)]);
    if enabled {
      QueueAllHouses(db1, order, now);
    } else {
      forall q | q in db.plans {
        PausedHouses(db.plans[q]);
      }
    }
  }

  lemma InterruptedHouses(db: Db, instance: string, q: PlanId)
    requires q in db.plans && Housed(db.plans[q]) && ShutdownPlan(db, instance, q).Some?
    ensures Housed(ShutdownPlan(db, instance, q).value)
  {
    hide Interrupts, AnyInterrupts, Terminal;
    assert Housed(InterruptedPlan(db, instance, q));
    if AnyInterrupts(db, instance, q) {
      BlockHouses(InterruptedPlan(db, instance, q));
    }
  }

  lemma ShutdownHouses(db: Db, instance: string, now: nat)
    requires AllHoused(db) && DoShutdown(db, instance, now).Committed?
    ensures AllHoused(DoShutdown(db, instance, now).db)
  {
    hide Housed, ShutdownPlan, UnfitOwned;
    forall q | q in db.plans ensures Housed(ShutdownPlan(db, instance, q).value) {
      InterruptedHouses(db, instance, q);
    }
  }

  lemma RecoverPlanHouses(p: Plan, i: nat, o: RecoveryOutcome)
    requires Housed(p) && i < |p.tasks| && RecoverPlan(p, i, o).Some?
    ensures Housed(RecoverPlan(p, i, o).value)
  {
    hide Housed, Terminal;
    TaskMoved(p, i, OutcomeTaskStatus(o));
    PlanMoved(p, Blocked, None);
    PlanMoved(MoveTask(p, i, OutcomeTaskStatus(o)), Blocked, None);
  }

  lemma RecoverHouses(db: Db, j: JobId, run: Option<RunState>, e: Evidence, now: nat)
    requires AllHoused(db) && DoRecover(db, j, run, e, now).Committed?
    ensures AllHoused(DoRecover(db, j, run, e, now).db)
  {
    hide Housed, RecoverPlan, CandidateActive, CancellationIntent;
    forall p: Plan, i: nat, o | Housed(p) && i < |p.tasks| && RecoverPlan(p, i, o).Some? {
      RecoverPlanHouses(p, i, o);
    }
  }

  lemma StepHouses(db: Db, s: Step, now: nat)
    requires AllHoused(db)
    ensures AllHoused(Next(db, s, now))
  {
    hide AllHoused, DoSavePlan, DoQueuePlanTx, DoQueueTask, DoStartTask, DoFinishTask, DoReturnPending, DoReturnQueued,
      DoStopTask, DoStopPlan, DoBlockForDrift, DoSetAutomation, DoShutdown, DoRecover, DoClaim, DoMarkRunning, DoDefer,
      DoRelease, DoComplete, DoFail, DoCancelJob, DoQueueGeneration;
    if Do(db, s, now).Committed? {
      var db1 := Do(db, s, now).db;
      match s {
        case SavePlan(_, _, _, _, _) => SaveHouses(db, s, now);
        case QueuePlan(pid, version) => QueueTxHouses(db, pid, version, false, now);
        case QueuePlanAutomatically(pid) =>
          if db1 != db {
            QueueTxHouses(db, pid, db.plans[pid].version, true, now);
          }
        case QueueTask(pid, i, version) => QueueTaskHouses(db, pid, i, version, now);
        case StartTask(pid, i) => StartHouses(db, pid, i);
        case FinishTask(pid, i, success, blank) => FinishHouses(db, pid, i, success, blank, now);
        case ReturnPending(_, _, _) => ReturnHouses(db, s, now);
        case ReturnQueued(_, _, _) => ReturnHouses(db, s, now);
        case StopTask(_, _, _) => ReturnHouses(db, s, now);
        case StopPlan(pid, version) => StopPlanHouses(db, pid, version);
        case BlockForDrift(j, w) => DriftHouses(db, j, w);
        case SetAutomation(project, enabled, version, order) => AutomationHouses(db, project, enabled, version, order, now);
        case Shutdown(instance) => ShutdownHouses(db, instance, now);
        case Recover(j, run, e) => RecoverHouses(db, j, run, e, now);
        case _ => SamePlans(db, s, now);
      }
      SameHoused(db1, Next(db, s, now));
    } else {
      SameHoused(db, Next(db, s, now));
    }
  }

  /** The transactions that work on jobs alone. */
  lemma SamePlans(db: Db, s: Step, now: nat)
    requires AllHoused(db) && Do(db, s, now).Committed?
    requires s.QueueGeneration? || s.Claim? || s.MarkRunning? || s.Defer? || s.Release? || s.Complete? || s.Fail? || s.CancelJob?
    ensures AllHoused(Do(db, s, now).db)
  {
    hide Claimable, InsertJob, RetryDelay, Housed, DoSavePlan, DoQueuePlanTx, DoQueueTask, DoStartTask, DoFinishTask,
      DoStopPlan, DoBlockForDrift, DoSetAutomation, DoShutdown, DoRecover;
  }

  lemma SameHoused(db: Db, db1: Db)
    requires AllHoused(db) && db1.plans == db.plans
    ensures AllHoused(db1)
  {
  }

  lemma {:induction false} RunHouses(states: seq<Db>, events: seq<Event>, n: nat)
    requires IsRun(states, events) && n <= |events|
    ensures AllHoused(states[n])
  {
    hide Next, Housed;
    if n == 0 {
    } else {
      RunHouses(states, events, n - 1);
      assert Follows(states, events, n - 1);
      StepHouses(states[n - 1], events[n - 1].step, events[n - 1].now);
    }
  }

  // ---- when a recovery pass commits -----------------------------------------------

  /** A lost job that recovery can neither end nor requeue: its task is back to pending, but there
      is a cancellation on record or its run had started. */
  predicate Stuck(row: (Job, Option<Status>, Option<Status>), run: Option<RunState>, e: Evidence) {
    && !CandidateActive(run, e)
    && row.1 == Some(Pending)
    && (CancellationIntent(row.0.status, row.1, row.2, run, e) || (run.Some? && run.value.started))
  }

  lemma RecoverRefused(db: Db, c: Candidate, now: nat)
    requires c.job < |db.jobs| && (InFlight(db.jobs[c.job].status) || db.jobs[c.job].status == Cancelling)
    requires AllHoused(db)
    ensures DoRecover(db, c.job, c.run, c.evidence, now).Rejected? <==> Stuck(ReadRow(db, c.job), c.run, c.evidence)
  {
    hide CandidateActive, CancellationIntent;
  }

  lemma {:induction false} PassCommits(was: Db, db: Db, cs: seq<Candidate>, n: nat, now: nat)
    requires Inv(was) && AllHoused(db) && Candidates(was, cs) && n <= |cs| && Untouched(was, db, cs, n)
    requires forall m | n <= m < |cs| :: cs[m].job < |was.jobs|
    ensures DoReconcile(db, cs[n..], now).Committed? <==>
      forall m | n <= m < |cs| :: !Stuck(ReadRow(was, cs[m].job), cs[m].run, cs[m].evidence)
    decreases |cs| - n
  {
    hide Inv, DoRecover, ReadRow, Stuck, Untouched, AllHoused, Candidates;
    if n == |cs| {
    } else {
      StillAsRead(was, db, cs, n);
      RecoverRefused(db, cs[n], now);
      assert cs[n..][0] == cs[n] && cs[n..][1..] == cs[n + 1..];
      var o := DoRecover(db, cs[n].job, cs[n].run, cs[n].evidence, now);
      if o.Committed? {
        OthersUntouched(was, db, cs, n, now);
        RecoverHouses(db, cs[n].job, cs[n].run, cs[n].evidence, now);
        PassCommits(was, o.db, cs, n + 1, now);
      }
    }
  }

  /** In every reachable state a recovery pass commits exactly when none of its candidates is stuck;
      a single stuck job undoes the pass for all others. */
  lemma ReconcileCommits(states: seq<Db>, events: seq<Event>, n: nat, cs: seq<Candidate>, now: nat)
    requires IsRun(states, events) && n <= |events| && Candidates(states[n], cs)
    ensures DoReconcile(states[n], cs, now).Committed? <==>
      forall m | 0 <= m < |cs| :: !Stuck(ReadRow(states[n], cs[m].job), cs[m].run, cs[m].evidence)
  {
    hide Inv, Stuck, ReadRow, Untouched, AllHoused, Follows;
    RunKeeps(states, events, n);
    RunHouses(states, events, n);
    CandidatesUntouched(states[n], cs);
    PassCommits(states[n], states[n], cs, 0, now);
    assert cs[0..] == cs;
  }

  // ---- what ends a job in flight ---------------------------------------------------------

  /** A transaction that may take job j out of flight. */
  predicate MayEnd(db: Db, s: Step, j: JobId)
    requires j < |db.jobs|
  {
    var job := db.jobs[j];
    || ((s.Defer? || s.Release? || s.Complete? || s.Fail? || s.CancelJob? || s.BlockForDrift?)
        && s.job == j && HeldBy(job, s.worker))
    || (s.StopTask? && OfTask(job, s.plan, s.index) && job.status == Leased)
    || (s.StopPlan? && OfPlan(job, s.plan) && job.status == Leased)
    || (s.SetAutomation? && !s.enabled && job.project == s.project)
    || (s.Shutdown? && Owned(job, s.instance))
    || (s.Recover? && s.job == j && !CandidateActive(s.run, s.evidence) && !Stuck(ReadRow(db, j), s.run, s.evidence))
  }

  lemma QueueTxGrows(db: Db, pid: PlanId, version: nat, now: nat)
    requires DoQueuePlanTx(db, pid, version, true, now).Committed?
    ensures WorkerPool.JobsGrow(db.jobs, DoQueuePlanTx(db, pid, version, true, now).db.jobs)
  {
    hide NextTask, TaskJob;
  }

  lemma {:induction false} QueueAllGrows(db: Db, order: seq<PlanId>, now: nat)
    requires DoQueueAll(db, order, now).Committed?
    ensures WorkerPool.JobsGrow(db.jobs, DoQueueAll(db, order, now).db.jobs)
    decreases |order|
  {
    hide DoQueuePlanTx;
    if order == [] {
    } else {
      QueueTxGrows(db, order[0], db.plans[order[0]].version, now);
      QueueAllGrows(DoQueuePlanTx(db, order[0], db.plans[order[0]].version, true, now).db, order[1..], now);
    }
  }

  lemma OwnStepEnds(db: Db, s: Step, now: nat, j: JobId)
    requires j < |db.jobs| && Do(db, s, now).Committed?
    requires s.Claim? || s.MarkRunning? || s.Defer? || s.Release? || s.Complete? || s.Fail? || s.CancelJob? || s.BlockForDrift?
    requires InFlight(db.jobs[j].status)
    ensures j < |Do(db, s, now).db.jobs| && (InFlight(Do(db, s, now).db.jobs[j].status) || MayEnd(db, s, j))
  {
    hide DriftPlan, RetryDelay, IsOwner, ProjectIdle, Stuck, CandidateActive, DoSavePlan, DoQueuePlanTx,
      DoQueuePlanAutomatically, DoQueueTask, DoQueueGeneration, DoStartTask, DoFinishTask, DoReturnPending, DoReturnQueued,
      DoStopTask, DoStopPlan, DoSetAutomation, DoShutdown, DoRecover;
  }

  lemma StopEnds(db: Db, s: Step, now: nat, j: JobId)
    requires j < |db.jobs| && Do(db, s, now).Committed?
    requires s.StopTask? || s.StopPlan? || s.Shutdown? || (s.SetAutomation? && !s.enabled)
    requires InFlight(db.jobs[j].status)
    ensures j < |Do(db, s, now).db.jobs| && (InFlight(Do(db, s, now).db.jobs[j].status) || MayEnd(db, s, j))
  {
    hide ShutdownPlan, ShutdownRefused, MoveTask, PausedPlan, Paused, Stuck, CandidateActive, DoSavePlan, DoQueuePlanTx,
      DoQueuePlanAutomatically, DoQueueTask, DoQueueGeneration, DoStartTask, DoFinishTask, DoReturnPending, DoReturnQueued,
      DoBlockForDrift, DoRecover, DoClaim, DoFail, DoQueueAll;
  }

  lemma RecoverEnds(db: Db, c: Candidate, now: nat, j: JobId)
    requires j < |db.jobs| && AllHoused(db) && DoRecover(db, c.job, c.run, c.evidence, now).Committed?
    requires InFlight(db.jobs[j].status)
    ensures var db' := DoRecover(db, c.job, c.run, c.evidence, now).db;
      j < |db'.jobs| && (InFlight(db'.jobs[j].status) || MayEnd(db, Step.Recover(c.job, c.run, c.evidence), j))
  {
    hide RecoverPlan, CandidateActive, CancellationIntent, Stuck, ReadRow, AllHoused;
    if c.job < |db.jobs| {
      RecoverTouches(db, c, now);
      if c.job == j {
        RecoverRefused(db, c, now);
      }
    }
  }

  lemma GrowthEndsNothing(js: seq<Job>, ks: seq<Job>, j: JobId)
    requires WorkerPool.JobsGrow(js, ks) && j < |js|
    ensures j < |ks| && ks[j] == js[j]
  {
  }

  /** In every run a job leaves flight only by its own worker, by a stop while it is leased, by
      switching automation off, by the shutdown of its worker's instance, or by a recovery that
      takes it for lost and does not find it stuck. */
  lemma FlightEnds(states: seq<Db>, events: seq<Event>, n: nat, j: JobId)
    requires IsRun(states, events) && n < |events| && j < |states[n].jobs| && InFlight(states[n].jobs[j].status)
    ensures j < |states[n + 1].jobs|
    ensures InFlight(states[n + 1].jobs[j].status) || MayEnd(states[n], events[n].step, j)
  {
    hide AllHoused, MayEnd, Do, WorkerPool.JobsGrow, DoSetAutomation, DoRecover;
    RunHouses(states, events, n);
    assert Follows(states, events, n);
    var db, s, now := states[n], events[n].step, events[n].now;
    if Do(db, s, now).Committed? {
      if s.Recover? {
        RecoverStep(db, s, now);
        RecoverEnds(db, Candidate(s.job, s.run, s.evidence), now, j);
      } else if s.StopTask? || s.StopPlan? || s.Shutdown? || (s.SetAutomation? && !s.enabled) {
        StopEnds(db, s, now, j);
      } else if s.SetAutomation? {
        SwitchOnGrows(db, s, now);
        GrowthEndsNothing(db.jobs, Do(db, s, now).db.jobs, j);
      } else if s.Claim? || s.MarkRunning? || s.Defer? || s.Release? || s.Complete? || s.Fail? || s.CancelJob? || s.BlockForDrift? {
        OwnStepEnds(db, s, now, j);
      } else {
        WorkerPool.QueueingGrows(db, s, now);
        GrowthEndsNothing(db.jobs, Do(db, s, now).db.jobs, j);
      }
    }
  }

  lemma RecoverStep(db: Db, s: Step, now: nat)
    requires s.Recover?
    ensures Do(db, s, now) == DoRecover(db, s.job, s.run, s.evidence, now)
  {
  }

  lemma SwitchOnGrows(db: Db, s: Step, now: nat)
    requires s.SetAutomation? && s.enabled && Do(db, s, now).Committed?
    ensures WorkerPool.JobsGrow(db.jobs, Do(db, s, now).db.jobs)
  {
    hide DoQueueAll, WorkerPool.JobsGrow;
    var db1 := db.(projects := db.projects[s.project := db.projects[s.project].(automation := true, version := s.version + 1)]);
    QueueAllGrows(db1, s.order, now);
  }

  // ---- when a shutdown commits ---------------------------------------------------------

  /** An owned job whose task was not started yet. */
  predicate Unstarted(db: Db, instance: string, k: JobId) {
    k < |db.jobs| && Owned(db.jobs[k], instance) && TaskStatusOf(db, db.jobs[k]) == Some(Queued)
  }

  lemma UnfitIsQueued(db: Db, instance: string)
    requires JobsInv(db) && AllHoused(db)
    ensures UnfitOwned(db, instance) <==> exists k: JobId :: Unstarted(db, instance, k)
  {
    forall k | 0 <= k < |db.jobs| && db.jobs[k].kind.TaskExecution?
      ensures Unfit(db.plans, db.jobs[k].kind.plan, db.jobs[k].kind.index) <==> TaskStatusOf(db, db.jobs[k]) == Some(Queued)
    {
      assert JobLinked(db.plans, db.jobs[k]);
      assert Housed(db.plans[db.jobs[k].kind.plan]);
    }
    if k: JobId :| Unstarted(db, instance, k) {
      assert Owned(db.jobs[k], instance) && db.jobs[k].kind.TaskExecution?;
    }
    if UnfitOwned(db, instance) {
      var k :| 0 <= k < |db.jobs| && Owned(db.jobs[k], instance) && db.jobs[k].kind.TaskExecution?
        && Unfit(db.plans, db.jobs[k].kind.plan, db.jobs[k].kind.index);
      assert Unstarted(db, instance, k);
    }
  }

  lemma HousedCanBlock(db: Db, instance: string, q: PlanId)
    requires q in db.plans && Housed(db.plans[q])
    ensures ShutdownPlan(db, instance, q).Some?
  {
    hide Terminal, OwnsTask;
  }

  /** In every reachable state the shutdown of an instance commits exactly when every task of the
      jobs it holds has been started. */
  lemma ShutdownCommits(states: seq<Db>, events: seq<Event>, n: nat, instance: string, now: nat)
    requires IsRun(states, events) && n <= |events|
    ensures DoShutdown(states[n], instance, now).Committed? <==> !exists k: JobId :: Unstarted(states[n], instance, k)
  {
    hide UnfitOwned, ShutdownPlan, Unstarted, Housed, ShutdownJob, Follows;
    RunKeeps(states, events, n);
    RunHouses(states, events, n);
    UnfitIsQueued(states[n], instance);
    forall q | q in states[n].plans ensures ShutdownPlan(states[n], instance, q).Some? {
      HousedCanBlock(states[n], instance, q);
    }
  }

  // ---- when automation can be switched off ---------------------------------------------

  /** A blocked plan with a task that is queued or running. */
  predicate BlockedAtWork(p: Plan, project: ProjectId) {
    p.project == project && p.status == Blocked && exists i | 0 <= i < |p.tasks| :: ActiveStatus(p.tasks[i].status)
  }

  lemma PauseRefused(p: Plan, project: ProjectId)
    requires Housed(p)
    ensures Paused(p, project) && !Pausable(p.status) <==> BlockedAtWork(p, project)
  {
  }

  /** In every reachable state switching automation off at the current version commits exactly when
      no blocked plan of the project has a task at work. */
  lemma SwitchOffCommits(states: seq<Db>, events: seq<Event>, n: nat, project: ProjectId, version: nat,
                         order: seq<PlanId>, now: nat)
    requires IsRun(states, events) && n <= |events|
    requires project in states[n].projects && states[n].projects[project].version == version
    ensures DoSetAutomation(states[n], project, false, version, order, now).Committed? <==>
      forall q | q in states[n].plans :: !BlockedAtWork(states[n].plans[q], project)
  {
    hide Housed, Paused, Pausable, BlockedAtWork, PausedPlan, Follows;
    RunHouses(states, events, n);
    forall q | q in states[n].plans {
      PauseRefused(states[n].plans[q], project);
    }
  }

  // ---- a pass that never commits, and a shutdown that does not ---------------------------

  const SOLE := Worker("a", 1)
  const NEW_TASK := NewTask("A", true, [], [])

  function PlanRow(status: Status, version: nat, startedAt: Option<nat>, task: Status, taskVersion: nat): Plan {
    Plan(0, status, version, true, 0, true, true, 1, startedAt, [StoredTask(NEW_TASK).(status := task, version := taskVersion)])
  }

  function JobRow(status: Status, version: nat, attempt: nat, worker: Option<Worker>): Job {
    Job(0, TaskExecution(0, 0), TaskJobKey(0, 0, 2), status, version, attempt, 1, 100, 2, 2, worker, 0)
  }

  function Rows(clock: nat, plan: Plan, jobs: seq<Job>): Db {
    Db(clock, map[0 := Project(true, 1, 0)], map[0 := plan], jobs)
  }

  /** A plan is saved and queued, its task's job is claimed and marked running, and the plan is
      stopped before the worker starts the task. */
  function StoppedEarly(): seq<Event> {
    [ Event(SavePlan(0, 0, 0, true, [NEW_TASK]), 1),
      Event(QueuePlan(0, 2), 2),
      Event(Claim(0, SOLE), 3),
      Event(Step.MarkRunning(0, SOLE), 4),
      Event(StopPlan(0, 3), 5) ]
  }

  function StoppedEarlyStates(): seq<Db> {
    [ Db(0, map[0 := Project(true, 1, 0)], map[], []),
      Rows(1, PlanRow(Ready, 2, None, Pending, 1), []),
      Rows(2, PlanRow(Running, 3, Some(2), Queued, 2), [JobRow(Queued, 1, 0, None)]),
      Rows(3, PlanRow(Running, 3, Some(2), Queued, 2), [JobRow(Leased, 2, 1, Some(SOLE))]),
      Rows(4, PlanRow(Running, 3, Some(2), Queued, 2), [JobRow(Running, 3, 1, Some(SOLE))]),
      Rows(5, PlanRow(Cancelled, 4, Some(2), Pending, 3), [JobRow(Running, 3, 1, Some(SOLE))]) ]
  }

  lemma PlanSaved()
    ensures Follows(StoppedEarlyStates(), StoppedEarly(), 0)
  {
    assert StoredTasks([NEW_TASK]) == [StoredTask(NEW_TASK)];
  }

  lemma FirstChosen()
    ensures NextTask(PlanRow(Ready, 2, None, Pending, 1), false, None) == Chosen(0)
  {
    FrontierAt(PlanRow(Ready, 2, None, Pending, 1).tasks, 0);
  }

  lemma RowQueued()
    ensures MoveTask(MovePlan(PlanRow(Ready, 2, None, Pending, 1), Running).(startedAt := Some(2)), 0, Queued)
      == PlanRow(Running, 3, Some(2), Queued, 2)
    ensures WithTaskJob(Rows(1, PlanRow(Ready, 2, None, Pending, 1), []), 0, PlanRow(Running, 3, Some(2), Queued, 2), 0, 2)
      == Rows(1, PlanRow(Running, 3, Some(2), Queued, 2), [JobRow(Queued, 1, 0, None)])
  {
    var p := PlanRow(Running, 3, Some(2), Queued, 2);
    assert TaskJob(map[0 := Project(true, 1, 0)], 0, p, 0, 2) == JobRow(Queued, 1, 0, None);
    assert map[0 := PlanRow(Ready, 2, None, Pending, 1)][0 := p] == map[0 := p];
    assert [] + [JobRow(Queued, 1, 0, None)] == [JobRow(Queued, 1, 0, None)];
  }

  lemma PlanQueued()
    ensures Follows(StoppedEarlyStates(), StoppedEarly(), 1)
  {
    FirstChosen();
    RowQueued();
    hide NextTask, WithTaskJob, MoveTask, MovePlan;
    var db := Rows(1, PlanRow(Ready, 2, None, Pending, 1), []);
    assert DoQueuePlanTx(db, 0, 2, false, 2)
      == Committed(Rows(1, PlanRow(Running, 3, Some(2), Queued, 2), [JobRow(Queued, 1, 0, None)]));
  }

  lemma JobClaimed()
    ensures Follows(StoppedEarlyStates(), StoppedEarly(), 2)
  {
    var db := StoppedEarlyStates()[2];
    assert db.plans[0].tasks[0].status != Succeeded;
    assert IsOwner(db, 0, 0);
  }

  lemma JobMarked()
    ensures Follows(StoppedEarlyStates(), StoppedEarly(), 3)
  {
  }

  lemma PlanStopped()
    ensures Follows(StoppedEarlyStates(), StoppedEarly(), 4)
  {
    var db := StoppedEarlyStates()[4];
    assert CancelWhere(db.jobs, (j: Job) => OfPlan(j, 0) && Stoppable(j.status)) == db.jobs;
    assert ResetWhere(db.plans[0].tasks, (t: Task) => t.status == Queued) == PlanRow(Cancelled, 4, Some(2), Pending, 3).tasks;
  }

  lemma StoppedEarlyRun()
    ensures IsRun(StoppedEarlyStates(), StoppedEarly())
  {
    hide Do;
    PlanSaved();
    PlanQueued();
    JobClaimed();
    JobMarked();
    PlanStopped();
    hide Follows;
  }

  /** If the worker is then lost, no recovery pass over its job ever commits: whatever the evidence,
      it is refused unless it takes the job for active. */
  lemma PassNeverCommits(run: Option<RunState>, e: Evidence, cs: seq<Candidate>, now: nat)
    requires !CandidateActive(run, e) && Candidate(0, run, e) in cs && Candidates(StoppedEarlyStates()[5], cs)
    ensures IsRun(StoppedEarlyStates(), StoppedEarly()) && DoReconcile(StoppedEarlyStates()[5], cs, now) == Rejected
  {
    hide Follows;
    StoppedEarlyRun();
    var db := StoppedEarlyStates()[5];
    assert ReadRow(db, 0) == (db.jobs[0], Some(Pending), Some(Status.Cancelled));
    assert Stuck(ReadRow(db, 0), run, e);
    hide CandidateActive, Stuck, Candidates, DoReconcile, ReadRow;
    ReconcileCommits(StoppedEarlyStates(), StoppedEarly(), 5, cs, now);
  }

  /** Just before, with the task still queued, the instance cannot be shut down either. */
  lemma ShutdownOfUnstarted(now: nat)
    ensures IsRun(StoppedEarlyStates(), StoppedEarly())
    ensures DoShutdown(StoppedEarlyStates()[3], "a", now) == DoShutdown(StoppedEarlyStates()[4], "a", now) == Rejected
  {
    hide Follows;
    StoppedEarlyRun();
    assert Unstarted(StoppedEarlyStates()[3], "a", 0) && Unstarted(StoppedEarlyStates()[4], "a", 0);
    hide Unstarted;
    ShutdownCommits(StoppedEarlyStates(), StoppedEarly(), 3, "a", now);
    ShutdownCommits(StoppedEarlyStates(), StoppedEarly(), 4, "a", now);
  }

  // ---- automation that cannot be switched off ------------------------------------------------

  /** The same plan, started twice, as two workers on one job do. */
  function StartedTwice(): seq<Event> {
    StoppedEarly()[..4] + [Event(StartTask(0, 0), 5), Event(StartTask(0, 0), 6)]
  }

  function StartedTwiceStates(): seq<Db> {
    StoppedEarlyStates()[..5] +
    [ Rows(5, PlanRow(Validating, 4, Some(2), Running, 3), [JobRow(Running, 3, 1, Some(SOLE))]),
      Rows(6, PlanRow(Blocked, 5, Some(2), Running, 3), [JobRow(Running, 3, 1, Some(SOLE))]) ]
  }

  lemma SameStart(i: nat)
    requires i < 4 && Follows(StoppedEarlyStates(), StoppedEarly(), i)
    ensures Follows(StartedTwiceStates(), StartedTwice(), i)
  {
    hide Next, Legal, Rows;
  }

  lemma StartChosen()
    ensures NextTask(PlanRow(Running, 3, Some(2), Queued, 2), false, Some(0)) == Chosen(0)
  {
    FrontierAt(PlanRow(Running, 3, Some(2), Queued, 2).tasks, 0);
  }

  lemma StartPlans()
    ensures StartPlan(PlanRow(Running, 3, Some(2), Queued, 2), 0) == Some(PlanRow(Validating, 4, Some(2), Running, 3))
    ensures StartPlan(PlanRow(Validating, 4, Some(2), Running, 3), 0) == Some(PlanRow(Blocked, 5, Some(2), Running, 3))
  {
    StartChosen();
    hide NextTask;
    var p := PlanRow(Running, 3, Some(2), Queued, 2);
    assert MoveTask(p, 0, Running).tasks == PlanRow(Running, 3, Some(2), Running, 3).tasks;
  }

  lemma TaskStarted()
    ensures Follows(StartedTwiceStates(), StartedTwice(), 4) && Follows(StartedTwiceStates(), StartedTwice(), 5)
  {
    StartPlans();
    hide StartPlan;
  }

  lemma StartedTwiceRun()
    ensures IsRun(StartedTwiceStates(), StartedTwice())
  {
    hide Do;
    PlanSaved();
    PlanQueued();
    JobClaimed();
    JobMarked();
    TaskStarted();
    hide Follows;
    SameStart(0);
    SameStart(1);
    SameStart(2);
    SameStart(3);
  }

  /** The second start blocks the plan and leaves its task running; automation cannot be switched off
      then. */
  lemma SwitchOffRefused(order: seq<PlanId>, now: nat)
    ensures IsRun(StartedTwiceStates(), StartedTwice())
    ensures DoSetAutomation(StartedTwiceStates()[6], 0, false, 1, order, now) == Rejected
  {
    hide Do;
    StartedTwiceRun();
    var db := StartedTwiceStates()[6];
    assert ActiveStatus(db.plans[0].tasks[0].status) && BlockedAtWork(db.plans[0], 0);
    hide BlockedAtWork;
    SwitchOffCommits(StartedTwiceStates(), StartedTwice(), 6, 0, 1, order, now);
  }
}
