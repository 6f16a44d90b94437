/** The rows the scheduler works on and the graph gate every queueing step passes. */
module Schedule {
  import opened Lifecycle
  import opened Text

  type PlanId = nat
  type ProjectId = nat

  datatype Acceptance = AcceptancePending | Passed | AcceptanceFailed | Skipped | ManualConfirmation

  datatype CriterionResult = CriterionResult(key: string, status: Acceptance)

  /** A row of plan_tasks. */
  datatype Task = Task(
    key: string,
    final: bool,
    deps: seq<string>,
    criteria: seq<string>,
    status: Status,
    version: nat,
    acceptance: Acceptance,
    results: seq<CriterionResult>)

  /** A row of plans together with its tasks in the order the scheduler loads them. */
  datatype Plan = Plan(
    project: ProjectId,
    status: Status,
    version: nat,
    executable: bool,
    problems: nat,
    compatibility: bool,
    baseline: bool,
    createdAt: nat,
    startedAt: Option<nat>,
    tasks: seq<Task>)

  // ---- acceptance -------------------------------------------------------

  predicate AcceptancePassed(a: Acceptance) { a == Passed || a == Skipped }

  /** The stored result of a criterion; a later entry replaces an earlier one. */
  function ResultOf(results: seq<CriterionResult>, key: string): Option<Acceptance> {
    if results == [] then None
    else if results[|results| - 1].key == key then Some(results[|results| - 1].status)
    else ResultOf(results[..|results| - 1], key)
  }

  predicate CriterionMet(results: seq<CriterionResult>, key: string) {
    var r := ResultOf(results, key);
    r.Some? && AcceptancePassed(r.value)
  }

  /** No acceptance blocker: the task's status passed and so did every criterion. */
  predicate Accepted(t: Task) {
    AcceptancePassed(t.acceptance) && forall k | k in t.criteria :: CriterionMet(t.results, k)
  }

  /** The result stored for a task whose acceptance ended in `status`. */
  function BuildResults(criteria: seq<string>, status: Acceptance): (r: seq<CriterionResult>)
    ensures |r| == |criteria|
    ensures forall i | 0 <= i < |r| :: r[i] == CriterionResult(criteria[i], status)
  {
    seq(|criteria|, i requires 0 <= i < |criteria| => CriterionResult(criteria[i], status))
  }

  lemma {:induction false} BuiltResultFound(criteria: seq<string>, status: Acceptance, key: string)
    ensures ResultOf(BuildResults(criteria, status), key) == if key in criteria then Some(status) else None
  {
    if criteria == [] {
    } else {
      var n := |criteria| - 1;
      assert criteria == criteria[..n] + [criteria[n]];
      BuiltResultFound(criteria[..n], status, key);
      assert BuildResults(criteria, status)[..n] == BuildResults(criteria[..n], status);
    }
  }

  // ---- the graph gate ---------------------------------------------------

  predicate UniqueKeys(ts: seq<Task>) {
    forall i, j | 0 <= i < j < |ts| :: ts[i].key != ts[j].key
  }

  /** Exactly one final validation task, and it is the last one. */
  predicate FinalLast(ts: seq<Task>) {
    ts != [] && forall i | 0 <= i < |ts| :: ts[i].final <==> i == |ts| - 1
  }

  predicate CriteriaOk(t: Task) {
    && t.criteria != []
    && (forall c | c in t.criteria :: Trim(c) != "")
    && (forall i, j | 0 <= i < j < |t.criteria| :: Trim(t.criteria[i]) != Trim(t.criteria[j]))
  }

  predicate HasKey(ts: seq<Task>, n: nat, key: string)
    requires n <= |ts|
  {
    exists k | 0 <= k < n :: ts[k].key == key
  }

  /** The dependencies of task i are distinct and strictly earlier. */
  predicate DepsOk(ts: seq<Task>, i: nat)
    requires i < |ts|
  {
    && (forall a, b | 0 <= a < b < |ts[i].deps| :: ts[i].deps[a] != ts[i].deps[b])
    && (forall d | d in ts[i].deps :: HasKey(ts, i, d))
  }

  predicate GraphOk(ts: seq<Task>) {
    && UniqueKeys(ts)
    && FinalLast(ts)
    && forall i | 0 <= i < |ts| :: CriteriaOk(ts[i]) && DepsOk(ts, i)
  }

  /** The plan passes the gate that every queueing and starting step checks. */
  predicate GateOk(p: Plan) {
    p.executable && p.problems == 0 && p.tasks != [] && (p.compatibility || GraphOk(p.tasks))
  }

  // ---- selecting the next task -------------------------------------------

  predicate ActiveStatus(s: Status) { s == Queued || s == Running }

  /** The number of leading succeeded tasks. */
  function Frontier(ts: seq<Task>): (k: nat)
    ensures k <= |ts|
    ensures forall i | 0 <= i < k :: ts[i].status == Succeeded
    ensures k < |ts| ==> ts[k].status != Succeeded
  {
    FrontierFrom(ts, 0)
  }

  function FrontierFrom(ts: seq<Task>, i: nat): (k: nat)
    requires i <= |ts|
    ensures i <= k <= |ts|
    ensures forall j | i <= j < k :: ts[j].status == Succeeded
    ensures k < |ts| ==> ts[k].status != Succeeded
    decreases |ts| - i
  {
    if i < |ts| && ts[i].status == Succeeded then FrontierFrom(ts, i + 1) else i
  }

  lemma FrontierAt(ts: seq<Task>, n: nat)
    requires n <= |ts| && (forall i | 0 <= i < n :: ts[i].status == Succeeded)
    requires n < |ts| ==> ts[n].status != Succeeded
    ensures Frontier(ts) == n
  {
  }

  lemma FrontierBeyond(ts: seq<Task>, n: nat)
    requires n < |ts| && (forall i | 0 <= i <= n :: ts[i].status == Succeeded)
    ensures Frontier(ts) > n
  {
  }

  /** Every task carrying `key` has succeeded and been accepted, and there is one. */
  predicate DependencyMet(ts: seq<Task>, key: string) {
    && HasKey(ts, |ts|, key)
    && forall k | 0 <= k < |ts| && ts[k].key == key :: ts[k].status == Succeeded && Accepted(ts[k])
  }

  datatype Selection = Chosen(index: nat) | AllDone | Refusal

  predicate OtherActive(ts: seq<Task>, allowed: Option<nat>) {
    exists i | 0 <= i < |ts| :: ActiveStatus(ts[i].status) && allowed != Some(i)
  }

  /** What the scheduler may do next with a plan. */
  function NextTask(p: Plan, automatic: bool, allowed: Option<nat>): (s: Selection)
    ensures s.Chosen? ==>
      && GateOk(p) && s.index == Frontier(p.tasks) < |p.tasks|
      && (forall i | 0 <= i < s.index :: Accepted(p.tasks[i]))
      && (automatic ==> p.tasks[s.index].status == Pending)
      && !OtherActive(p.tasks, allowed)
    ensures s.AllDone? ==>
      GateOk(p) && forall i | 0 <= i < |p.tasks| :: p.tasks[i].status == Succeeded && Accepted(p.tasks[i])
  {
    var k := Frontier(p.tasks);
    if !GateOk(p) || OtherActive(p.tasks, allowed) then Refusal
    else if exists i | 0 <= i < k :: !Accepted(p.tasks[i]) then Refusal
    else if k == |p.tasks| then AllDone
    else if !p.compatibility && exists d | d in p.tasks[k].deps :: !DependencyMet(p.tasks, d) then Refusal
    else if automatic && p.tasks[k].status != Pending then Refusal
    else Chosen(k)
  }

  // ---- the frontier shape -------------------------------------------------

  /** A task that is not pending has only succeeded tasks before it. */
  predicate FrontierShape(ts: seq<Task>) {
    forall i, j | 0 <= i < j < |ts| :: ts[j].status != Pending ==> ts[i].status == Succeeded
  }

  predicate SplitsAt(ts: seq<Task>, k: nat) {
    && k <= |ts|
    && (forall i | 0 <= i < k :: ts[i].status == Succeeded)
    && (forall j | k < j < |ts| :: ts[j].status == Pending)
  }

  /** Read from left to right: succeeded tasks, then at most one task in any other
      status, then pending tasks. */
  lemma FrontierShapeReads(ts: seq<Task>)
    ensures FrontierShape(ts) <==> exists k :: SplitsAt(ts, k)
  {
    if FrontierShape(ts) {
      assert SplitsAt(ts, Frontier(ts));
    }
  }

  /** Where every dependency is strictly earlier, the shape leaves exactly one place
      where a task can be neither succeeded nor pending, and its dependencies are met. */
  lemma FrontierMeetsDependencies(ts: seq<Task>, i: nat)
    requires FrontierShape(ts) && GraphOk(ts) && i < |ts|
    requires forall k | 0 <= k < i :: ts[k].status == Succeeded && Accepted(ts[k])
    ensures forall d | d in ts[i].deps :: DependencyMet(ts, d)
  {
  }
}
