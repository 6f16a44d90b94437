/** Accepted plans that the scheduler refuses to queue. */
module Misordered {
  import opened Lifecycle
  import opened Text
  import opened Words
  import opened Paths
  import opened Graph
  import opened PlanSpec
  import opened Stability
  import opened Unstable
  import opened Lowering
  import opened CompilerGate
  import Protocol

  lemma RescopedOrder(p: Spec, i: nat, scope: seq<string>)
    requires i < |p.tasks|
    ensures InOrder(Rescope(p, i, scope)) <==> InOrder(p)
  {
    var ts, us := p.tasks, Rescope(p, i, scope).tasks;
    assert forall k | 0 <= k < |ts| :: us[k].key == ts[k].key && DepsOf(us[k]) == DepsOf(ts[k]);
    assert KeysOf(us) == KeysOf(ts);
    assert forall k | 0 <= k < |ts| :: PlacedAt(us, KeysOf(ts), k) <==> PlacedAt(ts, KeysOf(ts), k);
  }

  lemma ClimbingIsLost(p: Spec, i: nat)
    requires i < |p.tasks| && p.tasks[i].scope == CLIMBING
    ensures !ScopesValid(Rescoped(p))
  {
    hide Scope, InvalidPaths;
    SneakyScope();
    assert Scope([]) == [] by { NoScope(); }
  }

  lemma NoScope()
    ensures Scope([]) == []
  {
  }

  /** Give one task of any accepted plan whose tasks do not stand in order a scope that preparing
      turns into a rejected one: the plan is still accepted, and its rows do not pass the gate. */
  lemma AcceptedButRefused(a: Alphabet, s: Spec, i: nat, scope: seq<string>)
    requires Accepted(a, s) && i < |s.tasks| && !InOrder(Prepared(a, s))
    requires InvalidPaths(scope) == [] && Scope(scope) == CLIMBING
    ensures Accepted(a, Rescope(s, i, scope)) && !PassesGate(Prepared(a, Rescope(s, i, scope)))
  {
    hide Prepared, Rescoped, Accepted, InOrder, ScopesValid, Scope, InvalidPaths;
    RescopeAccepted(a, s, i, scope);
    RescopedOrder(Prepared(a, s), i, CLIMBING);
    ClimbingIsLost(Prepared(a, Rescope(s, i, scope)), i);
  }

  /** A parsed plan is already prepared, and saving prepares it again. Give one task of any plan that
      is accepted both times and whose tasks do not stand in order the buried entry: it is parsed,
      accepted on saving, and its rows do not pass the gate. */
  lemma ParsedButRefused(a: Alphabet, s: Spec, i: nat)
    requires Accepted(a, s) && Accepted(a, Prepared(a, s)) && i < |s.tasks| && !InOrder(Prepared(a, s))
    ensures var parsed := Prepared(a, Rescope(s, i, BURIED));
      Accepted(a, Rescope(s, i, BURIED)) && Accepted(a, parsed) && !PassesGate(Prepared(a, parsed))
  {
    hide Prepared, Rescoped, Accepted, AcceptedButScopes, InOrder, PassesGate, Scope, InvalidPaths;
    BuriedScope();
    RescopeAccepted(a, s, i, BURIED);
    var p := Prepared(a, s);
    SelfSame(p);
    AcceptedIsBut(a, s);
    AcceptedAgain(a, s, p);
    SameOrder(p);
    AcceptedButRefused(a, p, i, UNCOVERED);
  }

  lemma SameOrder(p: Spec)
    ensures InOrder(Rescoped(p)) <==> InOrder(p)
  {
    hide DepsPlaced, Rescoped;
    SamePlacement(p, KeysOf(p.tasks));
  }

  // ---- two tasks ------------------------------------------------------------------

  /** The capital letters, as their own upper case. */
  const LATIN: Alphabet := CharTable((c: char) => 'A' <= c <= 'Z', (c: char) => c)

  function TaskWith(key: char, deps: seq<string>, criterion: char): TaskSpec {
    TaskSpec([key], "t", Some(deps), ["x"], Some([]), Some([]), Some([]), Some([]), Some(["d"]),
             Some([Criterion([criterion], "d")]))
  }

  /** Task A depends on task B, which stands after it. */
  function TwoTasks(): (s: Spec)
    ensures |s.tasks| == 2
  {
    Spec(CURRENT_VERSION, false, "t", "s", [TaskWith('A', ["B"], 'C'), TaskWith('B', [], 'D')],
         Some(["d"]), Some([Criterion("E", "d")]), ["r"])
  }

  lemma AlreadyPrepared(a: Alphabet, p: Spec)
    requires SpecForm(a, p) && KeysPresent(p) && ScopesStable(p)
    ensures Prepared(a, p) == p && forall i | 0 <= i < |p.tasks| :: InvalidPaths(p.tasks[i].scope) == []
  {
    hide SpecForm, KeysPresent, ScopesStable, Scope, InvalidPaths, Prepared, Rescoped;
    SelfSame(p);
    PreparedAgain(a, p, p);
    UnstableShrinks(a, p, Rescoped(p));
  }

  lemma LetterTrimmed(c: char)
    requires Letter(c)
    ensures Trimmed([c])
  {
  }

  lemma CapitalForm(c: char)
    requires 'A' <= c <= 'Z'
    ensures KeyForm(LATIN, [c])
  {
  }

  lemma LetterClean(c: char)
    requires Letter(c)
    ensures CleanPath([c]) && !Outside([c])
  {
    var p := [[c]];
    SplitJoin(p);
    CleanFoldIdentity(p, false);
    hide CleanFold, Split;
    assert Join(p) == [c];
  }

  lemma LetterScope(c: char)
    requires Letter(c)
    ensures ScopeForm([[c]])
  {
    LetterClean(c);
    hide CleanPath;
  }

  lemma LetterStable(c: char)
    requires Letter(c)
    ensures Stable([c])
  {
    LetterTrimmed(c);
    LetterClean(c);
    TrimIdentity([c]);
  }

  lemma ListsOfLetters(c: char)
    requires Letter(c)
    ensures ListForm([[c]]) && ListForm([])
  {
    LetterTrimmed(c);
    hide Trimmed, Letter;
    assert |[c]| == 1;
  }

  lemma OneCriterion(key: char)
    requires 'A' <= key <= 'Z'
    ensures CriteriaForm(LATIN, Some([Criterion([key], "d")])) && DescriptionsOf(Some([Criterion([key], "d")])) == Some(["d"])
  {
    CapitalForm(key);
    LetterTrimmed('d');
    hide KeyForm, Trimmed;
    assert Descriptions([Criterion([key], "d")]) == ["d"];
  }

  lemma TaskWithForm(key: char, deps: seq<string>, criterion: char)
    requires 'A' <= key <= 'Z' && 'A' <= criterion <= 'Z'
    requires ListForm(deps) && forall d | d in deps :: KeyForm(LATIN, d)
    ensures TaskForm(LATIN, TaskWith(key, deps, criterion))
  {
    CapitalForm(key);
    OneCriterion(criterion);
    LetterScope('x');
    LetterTrimmed('t');
    ListsOfLetters('t');
    hide KeyForm, ScopeForm, ListForm, Trimmed, Stable, CriteriaForm, DescriptionsOf, TaskForm;
    FormedOf(LATIN, TaskWith(key, deps, criterion));
  }

  lemma FormedOf(a: Alphabet, t: TaskSpec)
    requires KeyForm(a, t.key) && Trimmed(t.title) && ScopeForm(t.scope)
    requires t.dependsOn.Some? && ListForm(t.dependsOn.value) && forall d | d in t.dependsOn.value :: KeyForm(a, d)
    requires t.inputs == t.outputs == t.risks == t.commands == Some([]) && ListForm([])
    requires CriteriaForm(a, t.criteria) && t.acceptance == DescriptionsOf(t.criteria)
    ensures TaskForm(a, t)
  {
    hide KeyForm, ScopeForm, ListForm, Trimmed, CriteriaForm, DescriptionsOf;
  }

  lemma TwoTasksForm()
    ensures SpecForm(LATIN, TwoTasks()) && KeysPresent(TwoTasks()) && ScopesStable(TwoTasks())
  {
    CapitalForm('B');
    OneCriterion('E');
    ListsOfLetters('B');
    ListsOfLetters('r');
    TaskWithForm('A', ["B"], 'C');
    TaskWithForm('B', [], 'D');
    LetterStable('x');
    LetterTrimmed('t');
    LetterTrimmed('s');
    hide KeyForm, TaskForm, Stable, Trimmed, ListForm, CriteriaForm, DescriptionsOf;
  }

  lemma TwoTasksRanked()
    ensures var g := NodesOf(TwoTasks().tasks); Ranked(g, KeyIndex(g, 2)) && KeyIndex(g, 2) == map["A" := 0, "B" := 1]
  {
    var g := NodesOf(TwoTasks().tasks);
    assert g == [Node("A", ["B"]), Node("B", [])];
    assert KeyIndex(g, 0) == map[] && KeyIndex(g, 1) == map["A" := 0];
    var order := ["B", "A"];
    assert order[..1] == ["B"];
    assert Ranking(g, KeyIndex(g, 2), order);
  }

  lemma TwoTasksAccepted()
    ensures Accepted(LATIN, TwoTasks()) && Prepared(LATIN, TwoTasks()) == TwoTasks()
  {
    TwoTasksForm();
    AlreadyPrepared(LATIN, TwoTasks());
    hide Prepared;
    forall c: Code ensures !Violates(TwoTasks(), TwoTasks(), c) {
      TwoTasksFine(c);
    }
  }

  lemma TwoTasksFine(c: Code)
    requires forall i | 0 <= i < |TwoTasks().tasks| :: InvalidPaths(TwoTasks().tasks[i].scope) == []
    ensures !Violates(TwoTasks(), TwoTasks(), c)
  {
    hide InvalidPaths, Ranked, KeyIndex;
    TwoTasksRanked();
    var p := TwoTasks();
    assert CriteriaUpTo(p.tasks, 0) == [] && CriteriaUpTo(p.tasks, 1) == [Criterion("C", "d")];
    assert AllCriteria(p) == [Criterion("C", "d"), Criterion("D", "d"), Criterion("E", "d")];
  }

  lemma TwoTasksMisordered()
    ensures !InOrder(TwoTasks())
  {
    var ts := TwoTasks().tasks;
    assert "B" in DepsOf(ts[0]) && KeysOf(ts)[0] == ts[0].key && "B" !in KeysOf(ts)[..0];
    assert !PlacedAt(ts, KeysOf(ts), 0);
  }

  /** The two tasks, the first one with the buried entry as its scope. */
  function Refused(): Spec { Rescope(TwoTasks(), 0, BURIED) }

  /** What parsing makes of them, and what saving makes of that. */
  function Parsed(): Spec { Rescope(TwoTasks(), 0, UNCOVERED) }

  function Saved(): Spec { Rescope(TwoTasks(), 0, CLIMBING) }

  lemma RefusedPrepared()
    ensures Accepted(LATIN, Refused()) && Prepared(LATIN, Refused()) == Parsed()
    ensures Accepted(LATIN, Parsed()) && Prepared(LATIN, Parsed()) == Saved() && !PassesGate(Saved())
  {
    TwoTasksAccepted();
    TwoTasksMisordered();
    hide Prepared, Accepted, InOrder, PassesGate, Scope, InvalidPaths;
    BuriedScope();
    ParsedButRefused(LATIN, TwoTasks(), 0);
    RescopedSpec(LATIN, TwoTasks(), 0, BURIED);
    RescopedSpec(LATIN, TwoTasks(), 0, UNCOVERED);
  }

  lemma UnusedFinal(p: Spec)
    requires "FINAL" !in UsedKeys(p.tasks) && !p.compatibility
    ensures FinalKeyFor(p, KeysOf(p.tasks), "FINAL")
  {
    assert FirstUnused(UsedKeys(p.tasks), 0, "FINAL");
  }

  /** The numbered tasks of p in their original order. */
  function Unsorted(p: Spec): seq<Numbered> {
    var order := KeysOf(p.tasks);
    seq(|order|, i requires 0 <= i < |order| => Numbered(order[i], i + 1, NamedTask(p.tasks, order[i])))
      + [Numbered("FINAL", |order| + 1, FinalTask(p, order, "FINAL"))]
  }

  /** Where the second validation fails, lowering keeps the original order. */
  lemma UnsortedLowering(a: Alphabet, s0: Spec)
    requires Accepted(a, s0) && !Prepared(a, s0).compatibility && !ScopesValid(Rescoped(Prepared(a, s0)))
    requires "FINAL" !in UsedKeys(Prepared(a, s0).tasks)
    ensures var p := Rescoped(Rescoped(Prepared(a, s0)));
      Lowers(a, Prepared(a, s0), Unsorted(p), p, KeysOf(p.tasks), "FINAL")
  {
    hide Prepared, Accepted, AcceptedButScopes, ScopesValid, FinalTask, NamedTask, FinalKeyFor, Scope;
    var s := Prepared(a, s0);
    AcceptedIsBut(a, s0);
    SelfSame(s);
    AcceptedAgain(a, s0, s);
    var p1 := Prepared(a, s);
    SelfSame(p1);
    AcceptedAgain(a, s, p1);
    var p := Rescoped(Rescoped(s));
    assert Prepared(a, p1) == p;
    assert KeysOf(p.tasks) == KeysOf(s.tasks) && UsedKeys(p.tasks) == UsedKeys(s.tasks);
    UnusedFinal(p);
  }

  /** The plan s is lowered and saved, and queueing it is refused. */
  ghost predicate SavedInVain(a: Alphabet, s: Spec, db: Protocol.Db, pid: nat, project: nat, t1: nat, t2: nat, automatic: bool) {
    exists out, p, order, key | Lowers(a, s, out, p, order, key) ::
      var o := Protocol.DoSavePlan(db, pid, project, 0, false, RowsOf(out), t1);
      o.Committed? && Protocol.DoQueuePlanTx(o.db, pid, 2, automatic, t2) == Protocol.Rejected
  }

  /** Task A depends on the later task B, and its scope does not survive: the plan is parsed, accepted
      again and lowered when it is saved, and it cannot be queued. */
  lemma TwoTasksRefused(db: Protocol.Db, pid: nat, project: nat, t1: nat, t2: nat, automatic: bool)
    requires pid !in db.plans && project in db.projects
    ensures Accepted(LATIN, Refused()) && Prepared(LATIN, Refused()) == Parsed()
    ensures Accepted(LATIN, Parsed()) && Prepared(LATIN, Parsed()) == Saved()
    ensures SavedInVain(LATIN, Saved(), db, pid, project, t1, t2, automatic)
  {
    hide Prepared, Accepted, PassesGate, Lowers, Protocol.DoSavePlan, Protocol.DoQueuePlanTx, Rescoped, Scope;
    RefusedPrepared();
    assert "FINAL" !in UsedKeys(Saved().tasks);
    ClimbingIsLost(Saved(), 0);
    UnsortedLowering(LATIN, Parsed());
    var p := Rescoped(Rescoped(Saved()));
    AcceptedPlanQueues(LATIN, Parsed(), p, KeysOf(p.tasks), "FINAL", Unsorted(p), db, pid, project, t1, t2, automatic);
  }
}
