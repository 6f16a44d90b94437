/** The compiler meets the scheduler: what lowering an accepted plan stores passes the graph gate. */
module CompilerGate {
  import opened Lifecycle
  import opened Text
  import opened Words
  import opened Order
  import opened PlanSpec
  import opened Stability
  import opened Lowering
  import Schedule
  import Protocol

  // ---- rows ---------------------------------------------------------------------

  function CriterionKeys(cs: seq<Criterion>): (ks: seq<string>)
    ensures |ks| == |cs| && forall i | 0 <= i < |cs| :: ks[i] == cs[i].key
  {
    seq(|cs|, i requires 0 <= i < |cs| => cs[i].key)
  }

  function RowOf(n: Numbered, last: bool): Protocol.NewTask {
    Protocol.NewTask(n.key, last, DepsOf(n.task), CriterionKeys(CriteriaList(n.task.criteria)))
  }

  /** The rows saveGeneratedPlan inserts: the last one is the final validation task. */
  function RowsOf(out: seq<Numbered>): (rows: seq<Protocol.NewTask>)
    ensures |rows| == |out| && forall i | 0 <= i < |out| :: rows[i] == RowOf(out[i], i == |out| - 1)
  {
    seq(|out|, i requires 0 <= i < |out| => RowOf(out[i], i == |out| - 1))
  }

  method BuildRows(out: seq<Numbered>) returns (rows: seq<Protocol.NewTask>)
    ensures rows == RowsOf(out)
  {
    rows := [];
    for i := 0 to |out|
      invariant |rows| == i && forall j | 0 <= j < i :: rows[j] == RowOf(out[j], j == |out| - 1)
    {
      rows := rows + [RowOf(out[i], i == |out| - 1)];
    }
  }

  /** Each row has the key, the dependencies and the criterion keys of its task, and the last is final. */
  lemma RowsRead(out: seq<Numbered>, i: nat)
    requires i < |out|
    ensures var row, t := RowsOf(out)[i], out[i].task;
      && row.key == out[i].key && (row.final <==> i == |out| - 1)
      && row.deps == (if t.dependsOn.Some? then t.dependsOn.value else [])
      && |row.criteria| == (if t.criteria.Some? then |t.criteria.value| else 0)
      && forall c | 0 <= c < |row.criteria| :: row.criteria[c] == t.criteria.value[c].key
  {
  }

  // ---- criteria of accepted plans ----------------------------------------------------

  lemma RepeatedInLeft(xs: seq<Criterion>, ys: seq<Criterion>)
    ensures RepeatedKey(xs) ==> RepeatedKey(xs + ys)
    ensures RepeatedKey(ys) ==> RepeatedKey(xs + ys)
  {
    var all := xs + ys;
    if i, j :| 0 <= i < j < |xs| && xs[i].key != "" && xs[i].key == xs[j].key {
      assert all[i].key == all[j].key;
    }
    if i, j :| 0 <= i < j < |ys| && ys[i].key != "" && ys[i].key == ys[j].key {
      assert all[|xs| + i].key == all[|xs| + j].key;
    }
  }

  lemma {:induction false} TaskCriteriaWithin(ts: seq<TaskSpec>, n: nat, i: nat)
    requires i < n <= |ts|
    ensures RepeatedKey(CriteriaList(ts[i].criteria)) ==> RepeatedKey(CriteriaUpTo(ts, n))
    ensures forall c | c in CriteriaList(ts[i].criteria) :: c in CriteriaUpTo(ts, n)
  {
    hide RepeatedKey;
    RepeatedInLeft(CriteriaUpTo(ts, n - 1), CriteriaList(ts[n - 1].criteria));
    if i == n - 1 {
    } else {
      TaskCriteriaWithin(ts, n - 1, i);
    }
  }

  /** A list of criteria that the gate accepts as it is stored. */
  predicate Storable(cs: seq<Criterion>) {
    && cs != [] && (forall i | 0 <= i < |cs| :: cs[i].key != "" && Trim(cs[i].key) == cs[i].key)
    && (forall i, j | 0 <= i < j < |cs| :: cs[i].key != cs[j].key)
  }

  lemma FormStorable(a: Alphabet, cs: Option<seq<Criterion>>)
    requires CriteriaForm(a, cs) && CriteriaList(cs) != [] && !RepeatedKey(CriteriaList(cs))
    requires forall c | c in CriteriaList(cs) :: !Incomplete(c)
    ensures Storable(CriteriaList(cs))
  {
    hide KeyForm, Trim;
    var list := CriteriaList(cs);
    forall i | 0 <= i < |list| ensures list[i].key != "" && Trim(list[i].key) == list[i].key {
      assert list[i] in list;
      KeyFormTrimmed(a, list[i].key);
    }
  }

  lemma AcceptedStorable(a: Alphabet, s: Spec)
    requires AcceptedButScopes(a, s)
    ensures forall i | 0 <= i < |Prepared(a, s).tasks| :: Storable(CriteriaList(Prepared(a, s).tasks[i].criteria))
    ensures Storable(CriteriaList(Prepared(a, s).finalCriteria))
  {
    hide Prepared, Storable, RepeatedKey, Incomplete, CriteriaForm, KeyForm, ListForm, CriteriaUpTo;
    var p := Prepared(a, s);
    PreparedForm(a, s);
    assert !Violates(s, p, AcceptanceRequired) && !Violates(s, p, AcceptanceIncomplete);
    assert !Violates(s, p, AcceptanceKeyDuplicate) && !Violates(s, p, FinalRequired);
    RepeatedInLeft(CriteriaUpTo(p.tasks, |p.tasks|), CriteriaList(p.finalCriteria));
    FormStorable(a, p.finalCriteria);
    forall i | 0 <= i < |p.tasks| ensures Storable(CriteriaList(p.tasks[i].criteria)) {
      TaskCriteriaWithin(p.tasks, |p.tasks|, i);
      FormStorable(a, p.tasks[i].criteria);
    }
  }

  lemma StorableIsOk(t: Schedule.Task, cs: seq<Criterion>)
    requires Storable(cs) && t.criteria == CriterionKeys(cs)
    ensures Schedule.CriteriaOk(t)
  {
  }

  // ---- the gate ------------------------------------------------------------------------

  predicate PlacedAt(ts: seq<TaskSpec>, order: seq<string>, k: nat)
    requires k < |order|
  {
    forall i | 0 <= i < |ts| && order[k] == ts[i].key :: forall d | d in DepsOf(ts[i]) :: d in order[..k]
  }

  /** Every dependency of a placed task is placed before it. */
  predicate DepsPlaced(ts: seq<TaskSpec>, order: seq<string>) {
    forall k | 0 <= k < |order| :: PlacedAt(ts, order, k)
  }

  /** The order names every task of the plan once. */
  predicate Names(ts: seq<TaskSpec>, order: seq<string>) {
    && |order| == |ts| && Distinct(order)
    && (forall k | 0 <= k < |order| :: NamesTask(ts, order[k]))
  }

  predicate NamesTask(ts: seq<TaskSpec>, key: string) {
    exists i | 0 <= i < |ts| :: key == ts[i].key
  }

  /** What lowering relies on: distinct keys, distinct dependencies, storable criteria. */
  predicate Lowerable(p: Spec) {
    && DistinctKeys(p.tasks)
    && (forall i | 0 <= i < |p.tasks| :: Distinct(DepsOf(p.tasks[i])))
    && (forall i | 0 <= i < |p.tasks| :: Storable(CriteriaList(p.tasks[i].criteria)))
    && Storable(CriteriaList(p.finalCriteria))
  }

  lemma RowFor(p: Spec, order: seq<string>, key: string, out: seq<Numbered>, k: nat) returns (i: nat)
    requires Lowerable(p) && Names(p.tasks, order) && LoweredAs(p, order, key, out) && k < |order|
    ensures i < |p.tasks| && order[k] == p.tasks[i].key && out[k].task == p.tasks[i] && out[k].key == order[k]
  {
    assert NamesTask(p.tasks, order[k]);
    i :| 0 <= i < |p.tasks| && order[k] == p.tasks[i].key;
    NamedTaskIs(p.tasks, i);
  }

  /** The rows pass the gate exactly when the order respects the dependencies. */
  lemma RowsPass(p: Spec, order: seq<string>, key: string, out: seq<Numbered>)
    requires Lowerable(p) && Names(p.tasks, order) && LoweredAs(p, order, key, out) && key !in order
    ensures Schedule.GraphOk(Protocol.StoredTasks(RowsOf(out))) <==> DepsPlaced(p.tasks, order)
  {
    hide Lowerable, Names, Storable, NamedTask, LoweredAs, DepsPlaced, FinalTask;
    var ts := Protocol.StoredTasks(RowsOf(out));
    RowsShape(p, order, key, out);
    RowsCriteria(p, order, key, out);
    RowsDeps(p, order, key, out);
    hide Schedule.CriteriaOk, Schedule.DepsOk;
    assert Schedule.GraphOk(ts) <==> forall k | 0 <= k < |ts| :: Schedule.DepsOk(ts, k);
  }

  lemma RowsShape(p: Spec, order: seq<string>, key: string, out: seq<Numbered>)
    requires Names(p.tasks, order) && LoweredAs(p, order, key, out) && key !in order
    ensures var ts := Protocol.StoredTasks(RowsOf(out));
      |ts| == |order| + 1 && Schedule.UniqueKeys(ts) && Schedule.FinalLast(ts)
  {
  }

  lemma RowsCriteria(p: Spec, order: seq<string>, key: string, out: seq<Numbered>)
    requires Lowerable(p) && Names(p.tasks, order) && LoweredAs(p, order, key, out)
    ensures var ts := Protocol.StoredTasks(RowsOf(out));
      forall k | 0 <= k < |ts| :: Schedule.CriteriaOk(ts[k])
  {
    hide NamedTask, Names, Storable, Schedule.CriteriaOk;
    var ts := Protocol.StoredTasks(RowsOf(out));
    forall k | 0 <= k < |ts| ensures Schedule.CriteriaOk(ts[k]) {
      if k < |order| {
        var i := RowFor(p, order, key, out, k);
        StorableIsOk(ts[k], CriteriaList(p.tasks[i].criteria));
      } else {
        StorableIsOk(ts[k], CriteriaList(p.finalCriteria));
      }
    }
  }

  lemma RowsDeps(p: Spec, order: seq<string>, key: string, out: seq<Numbered>)
    requires Lowerable(p) && Names(p.tasks, order) && LoweredAs(p, order, key, out)
    ensures var ts := Protocol.StoredTasks(RowsOf(out));
      (forall k | 0 <= k < |ts| :: Schedule.DepsOk(ts, k)) <==> DepsPlaced(p.tasks, order)
  {
    hide NamedTask, Storable;
    var ts := Protocol.StoredTasks(RowsOf(out));
    forall k | 0 <= k < |order| ensures Schedule.DepsOk(ts, k) <==> PlacedAt(p.tasks, order, k) {
      var i := RowFor(p, order, key, out, k);
      OneRowDeps(p, order, key, out, k, i);
    }
    FinalRowDeps(p, order, key, out);
  }

  lemma OneRowDeps(p: Spec, order: seq<string>, key: string, out: seq<Numbered>, k: nat, i: nat)
    requires Lowerable(p) && LoweredAs(p, order, key, out) && k < |order|
    requires i < |p.tasks| && order[k] == p.tasks[i].key && out[k].task == p.tasks[i]
    ensures Schedule.DepsOk(Protocol.StoredTasks(RowsOf(out)), k) <==> PlacedAt(p.tasks, order, k)
  {
  }

  lemma FinalRowDeps(p: Spec, order: seq<string>, key: string, out: seq<Numbered>)
    requires Names(p.tasks, order) && LoweredAs(p, order, key, out)
    ensures Schedule.DepsOk(Protocol.StoredTasks(RowsOf(out)), |order|)
  {
  }

  // ---- the theorem --------------------------------------------------------------------------

  predicate InOrder(s: Spec) { DepsPlaced(s.tasks, KeysOf(s.tasks)) }

  /** The caller's check: the prepared scopes of s, prepared once more, stay valid, or the tasks
      already stand in an order that respects their dependencies. */
  predicate PassesGate(s: Spec) { ScopesValid(Rescoped(s)) || InOrder(s) }

  predicate DistinctKeys(ts: seq<TaskSpec>) {
    forall i, j | 0 <= i < j < |ts| :: ts[i].key != ts[j].key
  }

  lemma KeysNameTasks(ts: seq<TaskSpec>)
    requires DistinctKeys(ts)
    ensures Names(ts, KeysOf(ts))
  {
  }

  lemma OrderableTasks(ts: seq<TaskSpec>, ix: map<string, nat>)
    requires Orderable(NodesOf(ts), ix)
    ensures DistinctKeys(ts) && forall i | 0 <= i < |ts| :: Distinct(DepsOf(ts[i]))
  {
  }

  lemma LowerableFacts(a: Alphabet, s: Spec)
    requires AcceptedButScopes(a, s)
    ensures Lowerable(Prepared(a, s)) && Names(Prepared(a, s).tasks, KeysOf(Prepared(a, s).tasks))
  {
    hide Prepared, Storable, KeyIndex, Orderable, Names;
    var p := Prepared(a, s);
    AcceptedStorable(a, s);
    AcceptedOrderable(a, s);
    OrderableTasks(p.tasks, KeyIndex(NodesOf(p.tasks), |NodesOf(p.tasks)|));
    KeysNameTasks(p.tasks);
  }

  lemma GreedyNames(a: Alphabet, s: Spec, order: seq<string>)
    requires AcceptedButScopes(a, s) && |order| == |Prepared(a, s).tasks| && Greedy(NodesOf(Prepared(a, s).tasks), order)
    ensures Names(Prepared(a, s).tasks, order) && DepsPlaced(Prepared(a, s).tasks, order)
  {
    hide Prepared, Orderable;
    var p := Prepared(a, s);
    var g := NodesOf(p.tasks);
    PlanOrderIsLeast(a, s, order);
    AcceptedOrderable(a, s);
    forall k | 0 <= k < |order| ensures NamesTask(p.tasks, order[k]) {
      assert PlacedFirst(g, order, k);
      var i :| 0 <= i < |g| && order[k] == g[i].key && FirstReady(g, order[..k], i);
      assert order[k] == p.tasks[i].key;
    }
    forall k | 0 <= k < |order| ensures PlacedAt(p.tasks, order, k) {
      forall i | 0 <= i < |p.tasks| && order[k] == p.tasks[i].key
        ensures forall d | d in DepsOf(p.tasks[i]) :: d in order[..k]
      {
        assert g[i].key == order[k];
        assert Order.Ready(g, order[..k], i);
      }
    }
  }

  /** Preparing scopes again changes none of the parts the gate reads. */
  lemma SamePlacement(p: Spec, order: seq<string>)
    ensures DepsPlaced(Rescoped(p).tasks, order) <==> DepsPlaced(p.tasks, order)
    ensures Names(Rescoped(p).tasks, order) <==> Names(p.tasks, order)
    ensures KeysOf(Rescoped(p).tasks) == KeysOf(p.tasks)
  {
    var ts, us := p.tasks, Rescoped(p).tasks;
    assert forall i | 0 <= i < |ts| :: us[i].key == ts[i].key && DepsOf(us[i]) == DepsOf(ts[i]);
    assert KeysOf(us) == KeysOf(ts);
    assert forall k | 0 <= k < |order| :: PlacedAt(us, order, k) <==> PlacedAt(ts, order, k);
    assert forall x :: NamesTask(us, x) <==> NamesTask(ts, x);
  }

  lemma SameKeySet(ts: seq<TaskSpec>, order: seq<string>, key: string)
    requires Names(ts, order) && key !in UsedKeys(ts)
    ensures key !in order
  {
  }

  /** Compiler meets scheduler: the rows stored for an accepted structured plan pass the graph
      gate exactly when the plan passes the caller's check. */
  lemma CompilerMeetsGate(a: Alphabet, s0: Spec, p: Spec, order: seq<string>, key: string, out: seq<Numbered>)
    requires Accepted(a, s0) && !Prepared(a, s0).compatibility
    requires Lowers(a, Prepared(a, s0), out, p, order, key)
    ensures Schedule.GraphOk(Protocol.StoredTasks(RowsOf(out))) <==> PassesGate(Prepared(a, s0))
  {
    hide Prepared, Rescoped, Accepted, AcceptedButScopes, ScopesValid, Greedy, DepsPlaced, Names, Lowerable, LoweredAs,
      Schedule.GraphOk, NamedTask, SpecForm;
    var s := Prepared(a, s0);
    AcceptedIsBut(a, s0);
    SelfSame(s);
    AcceptedAgain(a, s0, s);
    var p1 := Prepared(a, s);
    SelfSame(p1);
    AcceptedAgain(a, s, p1);
    var p2 := Prepared(a, p1);
    assert p1 == Rescoped(s) && p2 == Rescoped(p1);
    assert Accepted(a, p1) <==> ScopesValid(p1);
    LowerableFacts(a, s);
    LowerableFacts(a, p1);
    SamePlacement(s, order);
    SamePlacement(p1, order);
    SameMode(s);
    SameMode(p1);
    if Accepted(a, p1) {
      GreedyNames(a, p1, order);
    } else {
      SamePlacement(s, KeysOf(s.tasks));
      SamePlacement(p1, KeysOf(s.tasks));
    }
    SameKeySet(p.tasks, order, key);
    RowsPass(p, order, key, out);
  }

  lemma SelfSame(p: Spec)
    ensures SameSpec(p, p)
  {
  }

  /** Stable scopes are enough. */
  lemma StablePasses(a: Alphabet, s: Spec)
    requires Accepted(a, s) && ScopesStable(Prepared(a, s))
    ensures PassesGate(Prepared(a, s))
  {
    hide Prepared, Rescoped, Accepted, AcceptedButScopes, SpecForm, ScopesStable, InOrder, ScopesValid;
    var p := Prepared(a, s);
    PreparedForm(a, s);
    AcceptedIsBut(a, s);
    UnstableShrinks(a, p, Rescoped(p));
    StableValid(p);
  }

  lemma SameMode(p: Spec)
    ensures Rescoped(p).compatibility == p.compatibility
  {
  }

  // ---- from a stored plan to its first job -------------------------------------------------------

  lemma FreshFrontier(p: Schedule.Plan)
    requires p.tasks != [] && forall i | 0 <= i < |p.tasks| :: p.tasks[i].status == Pending
    ensures Schedule.Frontier(p.tasks) == 0 && !Schedule.OtherActive(p.tasks, None)
  {
  }

  /** A stored structured plan whose rows pass the gate can be queued: its first task gets a job. */
  lemma StoredPlanQueues(db: Protocol.Db, pid: nat, project: nat, rows: seq<Protocol.NewTask>, t1: nat, t2: nat, automatic: bool)
    requires pid !in db.plans && project in db.projects
    requires rows != []
    ensures var o := Protocol.DoSavePlan(db, pid, project, 0, false, rows, t1);
      && o.Committed? && pid in o.db.plans && o.db.plans[pid].status == Lifecycle.Ready
      && (Protocol.DoQueuePlanTx(o.db, pid, 2, automatic, t2).Committed? <==> Schedule.GraphOk(Protocol.StoredTasks(rows)))
  {
    hide Schedule.GraphOk, Protocol.InsertJob, Protocol.TaskJob;
    var p := Protocol.DoSavePlan(db, pid, project, 0, false, rows, t1).db.plans[pid];
    FreshFrontier(p);
    if Schedule.GraphOk(p.tasks) {
      FirstHasNoDeps(p.tasks);
    }
  }

  lemma FirstHasNoDeps(ts: seq<Schedule.Task>)
    requires Schedule.GraphOk(ts)
    ensures ts != [] && forall d :: d !in ts[0].deps
  {
  }

  /** From the specification to the queue: saving an accepted structured plan and queueing it
      commits exactly when the plan passes the caller's check. */
  lemma AcceptedPlanQueues(a: Alphabet, s0: Spec, p: Spec, order: seq<string>, key: string, out: seq<Numbered>,
                           db: Protocol.Db, pid: nat, project: nat, t1: nat, t2: nat, automatic: bool)
    requires Accepted(a, s0) && !Prepared(a, s0).compatibility
    requires Lowers(a, Prepared(a, s0), out, p, order, key)
    requires pid !in db.plans && project in db.projects
    ensures var o := Protocol.DoSavePlan(db, pid, project, 0, false, RowsOf(out), t1);
      && o.Committed?
      && (Protocol.DoQueuePlanTx(o.db, pid, 2, automatic, t2).Committed? <==> PassesGate(Prepared(a, s0)))
  {
    assert RowsOf(out) != [];
    hide Prepared, Accepted, Lowers, LoweredAs, PassesGate, Schedule.GraphOk, Protocol.DoSavePlan, Protocol.DoQueuePlanTx;
    CompilerMeetsGate(a, s0, p, order, key, out);
    StoredPlanQueues(db, pid, project, RowsOf(out), t1, t2, automatic);
  }
}
