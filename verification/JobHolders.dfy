/** Who holds a job and who executes it: how the two come apart, and what a worker can still do
    to a job it no longer holds. */
module JobHolders {
  import opened Lifecycle
  import opened Protocol
  import opened Invariants
  import opened WorkerPool

  /** Worker w executes a job that some other worker has been given. */
  predicate Intrudes(s: System, w: Worker) {
    && w in s.workers && s.workers[w].Working? && s.workers[w].job < |s.db.jobs|
    && var job := s.db.jobs[s.workers[w].job];
       InFlight(job.status) && !HeldBy(job, w)
  }

  /** A replay: w moves a job to running that already runs for another worker. */
  predicate Replays(s: System, m: Move, w: Worker)
    requires Possible(s, m)
  {
    && m == Move.MarkRunning(w) && s.workers[w].job < |s.db.jobs|
    && var job := s.db.jobs[s.workers[w].job];
       job.status == Running && !HeldBy(job, w)
  }

  /** Another worker claims the job that w still executes. */
  predicate Overtakes(s: System, m: Move, now: nat, w: Worker)
    requires Possible(s, m)
  {
    && m.ClaimJob? && m.worker != w && w in s.workers && s.workers[w].Working? && s.workers[w].job == m.job
    && Claimable(s.db, m.job, now)
  }

  // ---- how a worker comes to intrude ---------------------------------------------------

  lemma MarkingIntrudes(s: System, w: Worker, now: nat)
    requires Possible(s, Move.MarkRunning(w))
    ensures Intrudes(NextSystem(s, Move.MarkRunning(w), now), w) <==> Replays(s, Move.MarkRunning(w), w)
  {
  }

  lemma ClaimIntrudes(s: System, m: Move, now: nat, w: Worker)
    requires Possible(s, m) && m.ClaimJob? && !Intrudes(s, w)
    ensures Intrudes(NextSystem(s, m, now), w) <==> Overtakes(s, m, now, w)
  {
    hide IsOwner, ProjectIdle;
  }

  lemma OthersDoNotIntrude(s: System, m: Move, now: nat, w: Worker)
    requires SystemInv(s) && Possible(s, m) && now > s.db.clock && !m.ClaimJob? && m != Move.MarkRunning(w)
    requires Intrudes(NextSystem(s, m, now), w)
    ensures Intrudes(s, w)
  {
    hide Inv, Legal, Next;
    if StepOf(s, m).Some? {
      MoveIsLegal(s, m, now);
      StepKeepsFlight(s.db, StepOf(s, m).value, now);
    }
  }

  /** In every run a worker comes to execute a job of another worker in exactly two ways: as a replay,
      which the transaction answers before it looks at the worker, or because the other worker
      claims the job while it is still executed. */
  lemma IntrusionBegins(states: seq<System>, os: seq<Occurrence>, n: nat, w: Worker)
    requires IsSystemRun(states, os) && n < |os| && !Intrudes(states[n], w)
    ensures Possible(states[n], os[n].move)
    ensures Intrudes(states[n + 1], w) <==>
      Replays(states[n], os[n].move, w) || Overtakes(states[n], os[n].move, os[n].now, w)
  {
    hide Intrudes, Replays, Overtakes, NextSystem, Possible, SystemInv;
    SystemRunKeeps(states, os, n);
    assert MovesAt(states, os, n);
    var s, m, now := states[n], os[n].move, os[n].now;
    OneWay(s, m, now, w);
    if m == Move.MarkRunning(w) {
      MarkingIntrudes(s, w, now);
    } else if m.ClaimJob? {
      ClaimIntrudes(s, m, now, w);
    } else if Intrudes(states[n + 1], w) {
      OthersDoNotIntrude(s, m, now, w);
    }
  }

  lemma OneWay(s: System, m: Move, now: nat, w: Worker)
    requires Possible(s, m)
    ensures Replays(s, m, w) ==> m == Move.MarkRunning(w)
    ensures Overtakes(s, m, now, w) ==> m.ClaimJob?
  {
  }

  // ---- what an intruder can change --------------------------------------------------------

  /** A worker's own move. */
  predicate OwnMove(m: Move) { m.MarkRunning? || m.ReleaseLease? || m.Resolve? }

  /** The transactions of one worker on one job. */
  predicate OwnStep(step: Step) {
    step.MarkRunning? || step.Release? || step.Complete? || step.BlockForDrift? || step.Defer? || step.CancelJob? || step.Fail?
  }

  lemma OwnStepChanges(db: Db, step: Step, now: nat, k: nat)
    requires OwnStep(step) && k < |db.jobs|
    ensures var db' := Next(db, step, now);
      && |db'.jobs| == |db.jobs|
      && (db'.jobs[k] != db.jobs[k] ==> k == step.job && HeldBy(db.jobs[k], step.worker))
      && (db'.plans != db.plans ==> step.BlockForDrift?)
  {
    hide DriftPlan, RetryDelay, DoSavePlan, DoQueuePlanTx, DoQueuePlanAutomatically, DoQueueTask, DoQueueGeneration,
      DoStartTask, DoFinishTask, DoReturnPending, DoReturnQueued, DoStopTask, DoStopPlan, DoSetAutomation, DoShutdown,
      DoRecover, DoClaim;
  }

  /** Whatever a worker does with its job, a row changes only when it is that job and the worker
      holds it, and only a drift report reaches plans. So a worker that does not hold its job ends
      without an effect on any job. */
  lemma OnlyHolderChanges(s: System, m: Move, now: nat, k: nat)
    requires Possible(s, m) && OwnMove(m) && k < |s.db.jobs|
    ensures var db' := NextSystem(s, m, now).db;
      && |db'.jobs| == |s.db.jobs|
      && (db'.jobs[k] != s.db.jobs[k] ==> k == s.workers[m.worker].job && HeldBy(s.db.jobs[k], m.worker))
      && (db'.plans != s.db.plans ==> m.Resolve? && m.resolution.Drifted?)
  {
    hide Next;
    OwnStepChanges(s.db, StepOf(s, m).value, now, k);
  }

  // ---- two workers on one job -----------------------------------------------------------------

  const FIRST := Worker("a", 1)
  const SECOND := Worker("a", 2)
  const LOST := Evidence(false, false, false, false, false, false, false, false, false)

  /** The row of a generation job of project 0. */
  function GenerationJob(status: Status, version: nat, attempt: nat, runAfter: nat, worker: Option<Worker>): Job {
    Job(0, PlanGeneration(7), IntakeJobKey(7, 1), status, version, attempt, 1, 100, 1, runAfter, worker, 0)
  }

  function WithJob(clock: nat, job: Job, first: Position, second: Position): System {
    System(Db(clock, map[0 := Project(true, 1, 0)], map[], [job]), map[FIRST := first, SECOND := second], {})
  }

  function Beginning(): System {
    System(Db(0, map[0 := Project(true, 1, 0)], map[], []), map[FIRST := Idle, SECOND := Idle], {})
  }

  /** The first worker claims the job and is then held up; recovery takes the job back, the second
      worker claims and starts it, and the first one goes on. */
  function TakenOver(): seq<Occurrence> {
    [ Occurrence(Elsewhere(QueueGeneration(0, 7, 1)), 1),
      Occurrence(CheckDraining(FIRST), 2),
      Occurrence(ClaimJob(FIRST, 0), 3),
      Occurrence(TakeLock(FIRST), 4),
      Occurrence(Elsewhere(Recover(0, None, LOST)), 5),
      Occurrence(CheckDraining(SECOND), 6),
      Occurrence(ClaimJob(SECOND, 0), 7),
      Occurrence(TakeLock(SECOND), 8),
      Occurrence(Move.MarkRunning(SECOND), 9),
      Occurrence(Move.MarkRunning(FIRST), 10) ]
  }

  function TakenOverStates(): seq<System> {
    var queued := GenerationJob(Queued, 1, 0, 1, None);
    var leased := GenerationJob(Leased, 2, 1, 1, Some(FIRST));
    var requeued := GenerationJob(Queued, 3, 0, 5, None);
    var again := GenerationJob(Leased, 4, 1, 5, Some(SECOND));
    var running := GenerationJob(Running, 5, 1, 5, Some(SECOND));
    [ Beginning(),
      WithJob(1, queued, Idle, Idle),
      WithJob(1, queued, Checked, Idle),
      WithJob(3, leased, Claimed(0), Idle),
      WithJob(3, leased, Locked(0), Idle),
      WithJob(5, requeued, Locked(0), Idle),
      WithJob(5, requeued, Locked(0), Checked),
      WithJob(7, again, Locked(0), Claimed(0)),
      WithJob(7, again, Locked(0), Locked(0)),
      WithJob(9, running, Locked(0), Working(0, running)),
      WithJob(10, running, Working(0, running), Working(0, running)) ]
  }

  lemma BothWait(clock: nat, job: Job, second: Position, now: nat)
    requires now > clock
    ensures Moves(WithJob(clock, job, Idle, second), Occurrence(CheckDraining(FIRST), now), WithJob(clock, job, Checked, second))
    ensures Moves(WithJob(clock, job, Locked(0), Idle), Occurrence(CheckDraining(SECOND), now), WithJob(clock, job, Locked(0), Checked))
  {
  }

  lemma BothLock(clock: nat, job: Job, now: nat)
    requires now > clock
    ensures Moves(WithJob(clock, job, Claimed(0), Idle), Occurrence(TakeLock(FIRST), now), WithJob(clock, job, Locked(0), Idle))
    ensures Moves(WithJob(clock, job, Locked(0), Claimed(0)), Occurrence(TakeLock(SECOND), now), WithJob(clock, job, Locked(0), Locked(0)))
  {
  }

  lemma JobQueued()
    ensures Moves(Beginning(), TakenOver()[0], WithJob(1, GenerationJob(Queued, 1, 0, 1, None), Idle, Idle))
  {
  }

  lemma BothClaim(clock: nat, v: nat, runAfter: nat, now: nat)
    requires now > clock && runAfter <= now
    ensures Moves(WithJob(clock, GenerationJob(Queued, v, 0, runAfter, None), Checked, Idle), Occurrence(ClaimJob(FIRST, 0), now),
                  WithJob(now, GenerationJob(Leased, v + 1, 1, runAfter, Some(FIRST)), Claimed(0), Idle))
    ensures Moves(WithJob(clock, GenerationJob(Queued, v, 0, runAfter, None), Locked(0), Checked), Occurrence(ClaimJob(SECOND, 0), now),
                  WithJob(now, GenerationJob(Leased, v + 1, 1, runAfter, Some(SECOND)), Locked(0), Claimed(0)))
  {
  }

  lemma JobTaken(clock: nat, v: nat, runAfter: nat, now: nat)
    requires now > clock
    ensures Moves(WithJob(clock, GenerationJob(Leased, v, 1, runAfter, Some(FIRST)), Locked(0), Idle),
                  Occurrence(Elsewhere(Recover(0, None, LOST)), now),
                  WithJob(now, GenerationJob(Queued, v + 1, 0, now, None), Locked(0), Idle))
  {
  }

  lemma BothMark(clock: nat, v: nat, runAfter: nat, now: nat)
    requires now > clock
    ensures var running := GenerationJob(Running, v + 1, 1, runAfter, Some(SECOND));
      && Moves(WithJob(clock, GenerationJob(Leased, v, 1, runAfter, Some(SECOND)), Locked(0), Locked(0)),
               Occurrence(Move.MarkRunning(SECOND), now), WithJob(now, running, Locked(0), Working(0, running)))
      && Moves(WithJob(clock, running, Locked(0), Working(0, running)),
               Occurrence(Move.MarkRunning(FIRST), now), WithJob(now, running, Working(0, running), Working(0, running)))
  {
  }

  lemma TakenOverMoves(i: nat)
    requires i < 10
    ensures MovesAt(TakenOverStates(), TakenOver(), i)
  {
    hide Moves, GenerationJob, WithJob, Beginning, Do;
    JobQueued();
    BothWait(1, GenerationJob(Queued, 1, 0, 1, None), Idle, 2);
    BothClaim(1, 1, 1, 3);
    BothLock(3, GenerationJob(Leased, 2, 1, 1, Some(FIRST)), 4);
    JobTaken(3, 2, 1, 5);
    BothWait(5, GenerationJob(Queued, 3, 0, 5, None), Idle, 6);
    BothClaim(5, 3, 5, 7);
    BothLock(7, GenerationJob(Leased, 4, 1, 5, Some(SECOND)), 8);
    BothMark(7, 4, 5, 9);
    BothMark(9, 4, 5, 10);
  }

  /** Two workers execute the same job. */
  lemma TwoWorkersOneJob()
    ensures IsSystemRun(TakenOverStates(), TakenOver())
    ensures var s := TakenOverStates()[10];
      s.workers[FIRST].Working? && s.workers[SECOND].Working? && s.workers[FIRST].job == s.workers[SECOND].job == 0
      && HeldBy(s.db.jobs[0], SECOND) && Intrudes(s, FIRST)
  {
    hide MovesAt;
    forall i | 0 <= i < |TakenOver()| ensures MovesAt(TakenOverStates(), TakenOver(), i) {
      TakenOverMoves(i);
    }
  }
}
