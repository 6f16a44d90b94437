/** What preparing a plan a second time changes, and the encoder and decoder around it. */
module Stability {
  import opened Lifecycle
  import opened Text
  import opened Words
  import opened Paths
  import opened Graph
  import opened PlanSpec

  // ---- the form preparing produces ---------------------------------------------

  predicate CriteriaForm(a: Alphabet, cs: Option<seq<Criterion>>) {
    cs.Some? ==> forall i | 0 <= i < |cs.value| :: KeyForm(a, cs.value[i].key) && Trimmed(cs.value[i].description)
  }

  predicate FieldForm(f: Option<seq<string>>) { f.Some? && ListForm(f.value) }

  predicate TaskForm(a: Alphabet, t: TaskSpec) {
    && KeyForm(a, t.key) && Trimmed(t.title) && ScopeForm(t.scope)
    && FieldForm(t.dependsOn) && (forall d | d in t.dependsOn.value :: KeyForm(a, d))
    && FieldForm(t.inputs) && FieldForm(t.outputs) && FieldForm(t.risks) && FieldForm(t.commands)
    && CriteriaForm(a, t.criteria) && t.acceptance == DescriptionsOf(t.criteria)
  }

  predicate SpecForm(a: Alphabet, p: Spec) {
    && !OldVersion(p.version) && Trimmed(p.title) && Trimmed(p.summary)
    && (forall i | 0 <= i < |p.tasks| :: TaskForm(a, p.tasks[i]))
    && CriteriaForm(a, p.finalCriteria) && p.finalValidation == DescriptionsOf(p.finalCriteria)
    && ListForm(p.finalCommands)
  }

  lemma CriteriaHaveForm(a: Alphabet, prefix: string, acceptance: Option<seq<string>>, criteria: Option<seq<Criterion>>)
    ensures CriteriaForm(a, CriteriaOf(a, prefix, acceptance, criteria))
  {
    hide KeyForm, NormalizeKey, Trim;
    var cs := if criteria.Some? then criteria.value
              else if acceptance.Some? then Generated(prefix, acceptance.value) else [];
    forall i | 0 <= i < |cs|
      ensures KeyForm(a, PreparedCriteria(a, cs)[i].key) && Trimmed(PreparedCriteria(a, cs)[i].description)
    {
      NormalizedKeyForm(a, cs[i].key);
      TrimForm(cs[i].description);
    }
  }

  lemma PreparedTaskForm(a: Alphabet, t: TaskSpec, i: nat, previous: string, compat: bool)
    ensures TaskForm(a, PreparedTask(a, t, i, previous, compat).(scope := Scope(t.scope)))
  {
    hide KeyForm, NormalizeKey, NormalizeKeys, NormalizeList, Trim, ScopeForm, Scope, ListForm, CriteriaOf, CriteriaForm;
    var key0 := if Trim(t.key) == "" && compat then "P" + Padded(i + 1) else t.key;
    NormalizedKeyForm(a, key0);
    TrimForm(t.title);
    ScopeHasForm(t.scope);
    NormalizedKeysForm(a, if t.dependsOn.Some? then t.dependsOn.value else if i > 0 then [previous] else []);
    FieldHasForm(t.inputs);
    FieldHasForm(t.outputs);
    FieldHasForm(t.risks);
    FieldHasForm(t.commands);
    CriteriaHaveForm(a, NormalizeKey(a, key0), t.acceptance, t.criteria);
  }

  lemma FieldHasForm(f: Option<seq<string>>)
    ensures FieldForm(Field(f))
  {
    NormalizedListForm(if f.Some? then f.value else []);
  }

  lemma {:induction false} PreparedTasksForm(a: Alphabet, ts: seq<TaskSpec>, n: nat, compat: bool)
    requires n <= |ts|
    ensures forall i | 0 <= i < n :: TaskForm(a, PreparedTasks(a, ts, n, compat).0[i])
  {
    hide TaskForm, PreparedTask, TaskCompat, Scope;
    if n == 0 {
    } else {
      PreparedTasksForm(a, ts, n - 1, compat);
      var (out, mode) := PreparedTasks(a, ts, n - 1, compat);
      PreparedTaskForm(a, ts[n - 1], n - 1, PreviousKey(out), mode);
    }
  }

  lemma PreparedForm(a: Alphabet, s: Spec)
    ensures SpecForm(a, Prepared(a, s))
  {
    hide TaskForm, PreparedTasks, ListForm, NormalizeList, CriteriaForm, CriteriaOf, Trim;
    PreparedTasksForm(a, s.tasks, |s.tasks|, StartMode(s));
    CriteriaHaveForm(a, "FINAL", s.finalValidation, s.finalCriteria);
    NormalizedListForm(s.finalCommands);
    TrimForm(s.title);
    TrimForm(s.summary);
  }

  // ---- preparing twice ---------------------------------------------------------------

  function RescopedTasks(ts: seq<TaskSpec>): (r: seq<TaskSpec>)
    ensures |r| == |ts| && forall i | 0 <= i < |ts| :: r[i] == ts[i].(scope := Scope(ts[i].scope))
  {
    seq(|ts|, i requires 0 <= i < |ts| => ts[i].(scope := Scope(ts[i].scope)))
  }

  /** Only the scopes are prepared again. */
  function Rescoped(p: Spec): Spec { p.(tasks := RescopedTasks(p.tasks)) }

  predicate KeysPresent(p: Spec) { forall i | 0 <= i < |p.tasks| :: p.tasks[i].key != "" }

  lemma CriteriaIdentity(a: Alphabet, prefix: string, acceptance: Option<seq<string>>, criteria: Option<seq<Criterion>>)
    requires CriteriaForm(a, criteria) && (criteria.Some? || acceptance.None?)
    ensures CriteriaOf(a, prefix, acceptance, criteria) == criteria
  {
    hide KeyForm, NormalizeKey, Trim, Trimmed;
    if criteria.Some? {
      var cs := criteria.value;
      forall i | 0 <= i < |cs| ensures PreparedCriteria(a, cs)[i] == cs[i] {
        NormalizeKeyIdentity(a, cs[i].key);
        TrimIdentity(cs[i].description);
      }
      assert PreparedCriteria(a, cs) == cs;
    }
  }

  /** Task u is task t, possibly without its list of acceptance descriptions. */
  predicate SameTask(t: TaskSpec, u: TaskSpec) {
    u == t.(acceptance := u.acceptance) && (u.acceptance == t.acceptance || (u.acceptance.None? && t.criteria.Some?))
  }

  /** Preparing a prepared task again changes nothing, and not the mode either; `acceptance` may
      have been dropped, since it only repeats the descriptions of the criteria. */
  lemma TaskIdentity(a: Alphabet, t: TaskSpec, u: TaskSpec, i: nat, previous: string, compat: bool)
    requires TaskForm(a, t) && t.key != "" && SameTask(t, u)
    ensures PreparedTask(a, u, i, previous, compat) == t && !TaskCompat(u)
  {
    hide KeyForm, NormalizeKey, NormalizeKeys, NormalizeList, Trim, ScopeForm, Trimmed, ListForm, CriteriaOf, CriteriaForm;
    KeyFormTrimmed(a, t.key);
    NormalizeKeyIdentity(a, t.key);
    TrimIdentity(t.title);
    NormalizeKeysIdentity(a, t.dependsOn.value);
    NormalizeListIdentity(t.inputs.value);
    NormalizeListIdentity(t.outputs.value);
    NormalizeListIdentity(t.risks.value);
    NormalizeListIdentity(t.commands.value);
    CriteriaIdentity(a, t.key, u.acceptance, t.criteria);
  }

  lemma {:induction false} TasksIdentity(a: Alphabet, ts: seq<TaskSpec>, us: seq<TaskSpec>, n: nat, compat: bool)
    requires n <= |ts| == |us|
    requires forall i | 0 <= i < |ts| :: TaskForm(a, ts[i]) && ts[i].key != "" && SameTask(ts[i], us[i])
    ensures PreparedTasks(a, us, n, compat) == (RescopedTasks(ts)[..n], compat)
  {
    hide TaskForm, PreparedTask, TaskCompat, Scope, SameTask, RescopedTasks, PreviousKey;
    if n == 0 {
    } else {
      TasksIdentity(a, ts, us, n - 1, compat);
      var (out, mode) := PreparedTasks(a, us, n - 1, compat);
      TaskIdentity(a, ts[n - 1], us[n - 1], n - 1, PreviousKey(out), mode);
      assert RescopedTasks(ts)[..n] == RescopedTasks(ts)[..n - 1] + [RescopedTasks(ts)[n - 1]];
    }
  }

  /** The same specification, possibly without the derived description lists. */
  predicate SameSpec(p: Spec, q: Spec) {
    && q == p.(tasks := q.tasks, finalValidation := q.finalValidation)
    && (q.finalValidation == p.finalValidation || (q.finalValidation.None? && p.finalCriteria.Some?))
    && |q.tasks| == |p.tasks| && forall i | 0 <= i < |p.tasks| :: SameTask(p.tasks[i], q.tasks[i])
  }

  lemma PreparedAgain(a: Alphabet, p: Spec, q: Spec)
    requires SpecForm(a, p) && KeysPresent(p) && SameSpec(p, q)
    ensures Prepared(a, q) == Rescoped(p)
  {
    hide TaskForm, PreparedTasks, ListForm, NormalizeList, CriteriaForm, CriteriaOf, Trim, Trimmed, Scope;
    TasksIdentity(a, p.tasks, q.tasks, |p.tasks|, StartMode(q));
    assert RescopedTasks(p.tasks)[..|p.tasks|] == RescopedTasks(p.tasks);
    CriteriaIdentity(a, "FINAL", q.finalValidation, p.finalCriteria);
    NormalizeListIdentity(p.finalCommands);
    TrimIdentity(p.title);
    TrimIdentity(p.summary);
  }

  // ---- which specifications are fixed points -----------------------------------------------

  predicate ScopesStable(p: Spec) {
    forall i | 0 <= i < |p.tasks| :: forall v | v in p.tasks[i].scope :: Stable(v)
  }

  /** Scopes that a further validation would accept. */
  predicate ScopesValid(p: Spec) {
    forall i | 0 <= i < |p.tasks| :: InvalidPaths(p.tasks[i].scope) == [] && Scope(p.tasks[i].scope) != []
  }

  /** Nothing but scopes stands in the way of accepting s. */
  ghost predicate AcceptedButScopes(a: Alphabet, s: Spec) {
    forall c: Code | c != ScopeInvalid && c != TaskScopeRequired :: !Violates(s, Prepared(a, s), c)
  }

  lemma AcceptedIsBut(a: Alphabet, s: Spec)
    requires Accepted(a, s)
    ensures AcceptedButScopes(a, s)
    ensures forall i | 0 <= i < |Prepared(a, s).tasks| :: Prepared(a, s).tasks[i].scope != []
  {
    hide Prepared, KeyIndex, Scope, InvalidPaths;
    assert !Violates(s, Prepared(a, s), TaskScopeRequired);
  }

  lemma AcceptedKeys(a: Alphabet, s: Spec)
    requires AcceptedButScopes(a, s)
    ensures KeysPresent(Prepared(a, s))
    ensures forall i | 0 <= i < |Prepared(a, s).tasks| :: Prepared(a, s).tasks[i].criteria.Some?
    ensures Prepared(a, s).finalCriteria.Some?
  {
    hide Prepared, KeyIndex, Scope, InvalidPaths;
    var p := Prepared(a, s);
    var g := NodesOf(p.tasks);
    assert !Violates(s, p, TaskKeyRequired);
    assert forall i | 0 <= i < |g| :: g[i].key == p.tasks[i].key;
    assert !Violates(s, p, AcceptanceRequired) && !Violates(s, p, FinalRequired);
  }

  lemma RescopedGraph(p: Spec)
    ensures NodesOf(Rescoped(p).tasks) == NodesOf(p.tasks)
    ensures AllCriteria(Rescoped(p)) == AllCriteria(p)
  {
    hide Scope;
    assert NodesOf(Rescoped(p).tasks) == NodesOf(p.tasks);
    RescopedCriteria(p.tasks, |p.tasks|);
  }

  lemma {:induction false} RescopedCriteria(ts: seq<TaskSpec>, n: nat)
    requires n <= |ts|
    ensures CriteriaUpTo(RescopedTasks(ts), n) == CriteriaUpTo(ts, n)
  {
    hide Scope;
    if n == 0 {
    } else {
      RescopedCriteria(ts, n - 1);
    }
  }

  /** Validating a prepared plan again depends on its scopes alone. */
  lemma AcceptedAgain(a: Alphabet, s: Spec, q: Spec)
    requires AcceptedButScopes(a, s) && SameSpec(Prepared(a, s), q)
    ensures Prepared(a, q) == Rescoped(Prepared(a, s))
    ensures AcceptedButScopes(a, q)
    ensures Accepted(a, q) <==> ScopesValid(Prepared(a, s))
  {
    hide Prepared, Scope, InvalidPaths, SpecForm, KeyIndex, Violates;
    var p := Prepared(a, s);
    PreparedForm(a, s);
    AcceptedKeys(a, s);
    PreparedAgain(a, p, q);
    var r := Rescoped(p);
    forall c: Code | c != ScopeInvalid && c != TaskScopeRequired ensures !Violates(q, r, c) {
      assert !Violates(s, p, c);
      OtherCodes(s, p, q, c);
    }
    ScopeCodes(p, q);
  }

  lemma ScopeCodes(p: Spec, q: Spec)
    requires SameSpec(p, q)
    ensures !Violates(q, Rescoped(p), ScopeInvalid) && !Violates(q, Rescoped(p), TaskScopeRequired) <==> ScopesValid(p)
  {
    hide Scope, InvalidPaths, KeyIndex, Ranked, RepeatedKey, Incomplete, CriteriaUpTo, NodesOf;
  }

  lemma OtherCodes(s: Spec, p: Spec, q: Spec, c: Code)
    requires c != ScopeInvalid && c != TaskScopeRequired
    ensures Violates(q, Rescoped(p), c) <==> Violates(s, p, c)
  {
    hide Scope, InvalidPaths, KeyIndex, Ranked, RepeatedKey, Incomplete, CriteriaUpTo;
    RescopedGraph(p);
    var r := Rescoped(p);
    if c == TaskTitleRequired {
      assert forall i | 0 <= i < |p.tasks| :: r.tasks[i].title == p.tasks[i].title;
    } else if c == AcceptanceRequired {
      assert forall i | 0 <= i < |p.tasks| :: r.tasks[i].criteria == p.tasks[i].criteria;
    }
  }

  lemma UnstableShrinks(a: Alphabet, p: Spec, q: Spec)
    requires SpecForm(a, p) && q == Rescoped(p)
    ensures ScopesStable(p) ==> q == p && forall i | 0 <= i < |p.tasks| :: InvalidPaths(p.tasks[i].scope) == []
    ensures !ScopesStable(p) ==> q != p && Rescoped(q) != p
  {
    hide Scope, InvalidPaths, Stable, ScopeForm, Weight;
    if ScopesStable(p) {
      forall i | 0 <= i < |p.tasks| ensures q.tasks[i] == p.tasks[i] && InvalidPaths(p.tasks[i].scope) == [] {
        assert TaskForm(a, p.tasks[i]);
        ScopeAgain(p.tasks[i].scope);
      }
      assert q.tasks == p.tasks;
    } else {
      var i :| 0 <= i < |p.tasks| && !(forall v | v in p.tasks[i].scope :: Stable(v));
      assert TaskForm(a, p.tasks[i]);
      ScopeAgain(p.tasks[i].scope);
      ScopeWeight(q.tasks[i].scope);
      assert Weight(q.tasks[i].scope) < Weight(p.tasks[i].scope);
      assert Weight(Rescoped(q).tasks[i].scope) < Weight(p.tasks[i].scope);
    }
  }

  /** Preparing is the identity on an accepted plan exactly when all its scope paths are stable,
      and then the plan is accepted again. */
  lemma PreparationIdentity(a: Alphabet, s: Spec)
    requires Accepted(a, s)
    ensures Prepared(a, Prepared(a, s)) == Prepared(a, s) <==> ScopesStable(Prepared(a, s))
    ensures ScopesStable(Prepared(a, s)) ==> Accepted(a, Prepared(a, s))
  {
    hide Prepared, Rescoped, Violates, Accepted, AcceptedButScopes, Scope, InvalidPaths, SpecForm, ScopesStable;
    var p := Prepared(a, s);
    PreparedForm(a, s);
    AcceptedIsBut(a, s);
    AcceptedAgain(a, s, p);
    UnstableShrinks(a, p, Rescoped(p));
    if ScopesStable(p) {
      StableValid(p);
    }
  }

  lemma StableValid(p: Spec)
    requires Rescoped(p) == p
    requires forall i | 0 <= i < |p.tasks| :: p.tasks[i].scope != [] && InvalidPaths(p.tasks[i].scope) == []
    ensures ScopesValid(p)
  {
  }
}
