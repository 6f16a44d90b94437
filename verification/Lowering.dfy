/** Lowering a plan to its numbered tasks, the final validation task last. */
module Lowering {
  import opened Lifecycle
  import opened Words
  import opened Graph
  import opened Order
  import opened PlanSpec
  import opened Stability
  import opened Validation

  datatype Numbered = Numbered(key: string, position: nat, task: TaskSpec)

  const BLANK_TASK := TaskSpec("", "", None, [], None, None, None, None, None, None)

  // ---- the order ------------------------------------------------------------------

  /** Validation leaves a graph that can be ordered. */
  lemma AcceptedOrderable(a: Alphabet, s: Spec)
    requires AcceptedButScopes(a, s)
    ensures var g := NodesOf(Prepared(a, s).tasks); Orderable(g, KeyIndex(g, |g|))
  {
    hide Prepared, Ranked, KeyIndex, TaskForm;
    var p := Prepared(a, s);
    var g := NodesOf(p.tasks);
    PreparedForm(a, s);
    KeysIndexed(g);
    KeysAreFine(a, s);
    DepsAreFine(a, s);
    forall i | 0 <= i < |g| ensures Distinct(g[i].deps) {
      FormDeps(a, p.tasks[i]);
    }
  }

  lemma KeysAreFine(a: Alphabet, s: Spec)
    requires AcceptedButScopes(a, s)
    ensures var g := NodesOf(Prepared(a, s).tasks);
      && (forall i | 0 <= i < |g| :: g[i].key != "")
      && (forall i, j | 0 <= i < j < |g| :: g[i].key != g[j].key)
  {
    hide Prepared, Ranked, KeyIndex, TaskForm;
    var p := Prepared(a, s);
    assert !Violates(s, p, TaskKeyRequired) && !Violates(s, p, TaskKeyDuplicate);
  }

  lemma DepsAreFine(a: Alphabet, s: Spec)
    requires AcceptedButScopes(a, s)
    ensures var g := NodesOf(Prepared(a, s).tasks);
      && Ranked(g, KeyIndex(g, |g|))
      && (forall i, d | 0 <= i < |g| && d in g[i].deps :: d in KeyIndex(g, |g|) && d != g[i].key)
  {
    hide Prepared, Ranked, KeyIndex, TaskForm;
    var p := Prepared(a, s);
    var g := NodesOf(p.tasks);
    KeysAreFine(a, s);
    assert !Violates(s, p, DependencySelf) && !Violates(s, p, DependencyDangling) && !Violates(s, p, Code.DependencyCycle);
  }

  lemma FormDeps(a: Alphabet, t: TaskSpec)
    requires TaskForm(a, t)
    ensures Distinct(DepsOf(t))
  {
  }

  /** The order of an accepted plan: complete and greedy, so an execution order and the first one. */
  method PlanOrder(a: Alphabet, s: Spec) returns (order: Option<seq<string>>)
    ensures order.Some? <==> Accepted(a, s)
    ensures order.Some? ==>
      && |order.value| == |Prepared(a, s).tasks| && Greedy(NodesOf(Prepared(a, s).tasks), order.value)
  {
    hide Violates, Orderable, Greedy, Prepared;
    var draft := new Draft(s);
    var problems := draft.Validate(a);
    if problems != [] {
      return None;
    }
    AcceptedIsBut(a, s);
    AcceptedOrderable(a, s);
    var g := NodesOf(draft.tasks);
    order := TopologicalOrder(g, KeyIndex(g, |g|));
  }

  /** For every accepted plan the order is a permutation of the task keys with every dependency
      before its dependents, and comes first among all such orders. */
  lemma PlanOrderIsLeast(a: Alphabet, s: Spec, order: seq<string>)
    requires AcceptedButScopes(a, s) && |order| == |Prepared(a, s).tasks| && Greedy(NodesOf(Prepared(a, s).tasks), order)
    ensures var g := NodesOf(Prepared(a, s).tasks);
      Topological(g, order) && forall other | Topological(g, other) && other != order :: Earlier(g, order, other)
  {
    hide Orderable, Greedy, Prepared;
    var g := NodesOf(Prepared(a, s).tasks);
    AcceptedOrderable(a, s);
    GreedyIsTopological(g, KeyIndex(g, |g|), order);
    forall other | Topological(g, other) && other != order ensures Earlier(g, order, other) {
      var k := GreedyIsLeast(g, KeyIndex(g, |g|), order, other);
      assert EarlierAt(g, order[k], other[k]);
    }
  }

  /** Where two orders first differ, `order` runs the task that stands earlier in the plan. */
  predicate Earlier(g: seq<Node>, order: seq<string>, other: seq<string>) {
    exists k | 0 <= k < |order| && k < |other| && order[..k] == other[..k] :: EarlierAt(g, order[k], other[k])
  }

  predicate EarlierAt(g: seq<Node>, x: string, y: string) {
    exists i, j | 0 <= i < j < |g| :: x == g[i].key && y == g[j].key
  }

  // ---- the key of the final task ------------------------------------------------------

  /** The n-th key the search tries. */
  function FinalName(n: nat): string {
    if n == 0 then "FINAL" else "FINAL-" + Digits(n + 1)
  }

  lemma FinalNamesDiffer(m: nat, n: nat)
    requires m != n
    ensures FinalName(m) != FinalName(n)
  {
    if m > 0 && n > 0 && FinalName(m) == FinalName(n) {
      assert FinalName(m)[6..] == Digits(m + 1) && FinalName(n)[6..] == Digits(n + 1);
      DigitsInjective(m + 1, n + 1);
    }
  }

  /** The key is FINAL or, when that is used, the first unused one of FINAL-2, FINAL-3, ... */
  predicate FirstUnused(used: set<string>, n: nat, key: string) {
    && key !in used
    && if n == 0 then key == "FINAL"
       else key == "FINAL-" + Digits(n + 1) && "FINAL" in used && forall m | 2 <= m <= n :: "FINAL-" + Digits(m) in used
  }

  /** The search for a fresh key ends: each key tried is a different used key. */
  method FreshFinalKey(used: set<string>) returns (key: string)
    ensures key !in used && exists n: nat :: FirstUnused(used, n, key)
  {
    key := FinalName(0);
    var suffix := 2;
    ghost var n, tried: set<string> := 0, {};
    while key in used
      invariant key == FinalName(n) && suffix == n + 2
      invariant tried == (set m | 0 <= m < n :: FinalName(m)) && tried <= used && |tried| == n
      invariant forall m | 0 <= m < n :: FinalName(m) in used
      decreases |used| - |tried|
    {
      forall m | 0 <= m < n ensures FinalName(m) != FinalName(n) {
        FinalNamesDiffer(m, n);
      }
      assert key !in tried;
      tried := tried + {key};
      SmallerSet(tried, used);
      key := "FINAL-" + Digits(suffix);
      suffix := suffix + 1;
      n := n + 1;
    }
    forall m | 2 <= m <= n ensures "FINAL-" + Digits(m) in used {
      assert FinalName(m - 1) in used;
    }
    assert n > 0 ==> FinalName(0) in used;
    assert FirstUnused(used, n, key);
  }

  lemma SmallerSet(x: set<string>, y: set<string>)
    requires x <= y
    ensures |x| <= |y|
  {
    SubsetSize(x, y);
  }

  // ---- lowering ---------------------------------------------------------------------------

  /** The task a key names; a later task replaces an earlier one with the same key. */
  function NamedTask(ts: seq<TaskSpec>, key: string): TaskSpec {
    if ts == [] then BLANK_TASK
    else if ts[|ts| - 1].key == key then ts[|ts| - 1]
    else NamedTask(ts[..|ts| - 1], key)
  }

  function FinalTask(p: Spec, order: seq<string>, key: string): TaskSpec {
    TaskSpec(key, "Final validation", Some(order), ["."], None, None, None, Some(p.finalCommands),
             DescriptionsOf(p.finalCriteria), p.finalCriteria)
  }

  /** The numbered tasks of p in the given order. */
  predicate LoweredAs(p: Spec, order: seq<string>, finalKey: string, out: seq<Numbered>) {
    && |out| == |order| + 1
    && (forall i | 0 <= i < |order| :: out[i] == Numbered(order[i], i + 1, NamedTask(p.tasks, order[i])))
    && out[|order|] == Numbered(finalKey, |order| + 1, FinalTask(p, order, finalKey))
  }

  function KeysOf(ts: seq<TaskSpec>): (ks: seq<string>)
    ensures |ks| == |ts| && forall i | 0 <= i < |ts| :: ks[i] == ts[i].key
  {
    seq(|ts|, i requires 0 <= i < |ts| => ts[i].key)
  }

  /** The order and the plan rows that lowering s works from: s is prepared, then validated, which
      prepares it again; a plan that is then rejected keeps its original order. */
  ghost predicate LoweredFrom(a: Alphabet, s: Spec, p: Spec, order: seq<string>) {
    var p1 := Prepared(a, s);
    var p2 := Prepared(a, p1);
    if Accepted(a, p1) then p == p1 && |order| == |p2.tasks| && Greedy(NodesOf(p2.tasks), order)
    else p == p2 && order == KeysOf(p2.tasks)
  }

  function UsedKeys(ts: seq<TaskSpec>): set<string> {
    set i | 0 <= i < |ts| :: ts[i].key
  }

  ghost predicate FinalKeyFor(p: Spec, order: seq<string>, key: string) {
    if p.compatibility then key == "P" + Padded(|order| + 1)
    else exists n: nat :: FirstUnused(UsedKeys(p.tasks), n, key)
  }

  /** The numbered tasks of s: which plan rows they come from, their order and the final key. */
  ghost predicate Lowers(a: Alphabet, s: Spec, out: seq<Numbered>, p: Spec, order: seq<string>, key: string) {
    LoweredFrom(a, s, p, order) && FinalKeyFor(p, order, key) && LoweredAs(p, order, key, out)
  }

  method Tasks(a: Alphabet, s: Spec) returns (out: seq<Numbered>)
    ensures exists p, order, key :: Lowers(a, s, out, p, order, key)
  {
    hide Violates, Prepared, Greedy, FirstUnused, FinalTask, NamedTask, UsedKeys;
    var draft := new Draft(s);
    var ignored := draft.Prepare(a);
    var found := PlanOrder(a, draft.Value());
    var keys: seq<string>;
    if found.Some? {
      keys := found.value;
    } else {
      ignored := draft.Prepare(a);
      keys := KeysOf(draft.tasks);
    }
    out := NumberTasks(draft.tasks, keys);
    var key;
    if draft.compatibility {
      key := "P" + Padded(|out| + 1);
    } else {
      key := FreshFinalKey(UsedKeys(draft.tasks));
    }
    out := out + [Numbered(key, |out| + 1, FinalTask(draft.Value(), keys, key))];
    assert Lowers(a, s, out, draft.Value(), keys, key);
  }

  method NumberTasks(ts: seq<TaskSpec>, order: seq<string>) returns (out: seq<Numbered>)
    ensures |out| == |order|
    ensures forall i | 0 <= i < |order| :: out[i] == Numbered(order[i], i + 1, NamedTask(ts, order[i]))
  {
    var byKey: map<string, TaskSpec> := map[];
    for n := 0 to |ts|
      invariant forall k :: NamedTask(ts[..n], k) == if k in byKey then byKey[k] else BLANK_TASK
    {
      assert ts[..n + 1][..n] == ts[..n];
      byKey := byKey[ts[n].key := ts[n]];
    }
    assert ts[..|ts|] == ts;
    out := [];
    for i := 0 to |order|
      invariant |out| == i
      invariant forall j | 0 <= j < i :: out[j] == Numbered(order[j], j + 1, NamedTask(ts, order[j]))
    {
      out := out + [Numbered(order[i], i + 1, if order[i] in byKey then byKey[order[i]] else BLANK_TASK)];
    }
  }

  /** The last task with the key, or a blank one when there is none. */
  predicate TaskWithKey(ts: seq<TaskSpec>, key: string, t: TaskSpec) {
    if exists k | 0 <= k < |ts| :: ts[k].key == key
    then exists k | 0 <= k < |ts| :: ts[k].key == key && t == ts[k] && forall m | k < m < |ts| :: ts[m].key != key
    else t == BLANK_TASK
  }

  lemma {:induction false} NamedTaskRead(ts: seq<TaskSpec>, key: string)
    ensures TaskWithKey(ts, key, NamedTask(ts, key))
  {
    if ts != [] && ts[|ts| - 1].key != key {
      var n := |ts| - 1;
      NamedTaskRead(ts[..n], key);
      assert forall k | 0 <= k < n :: ts[k] == ts[..n][k];
      if k :| 0 <= k < |ts| && ts[k].key == key {
        assert ts[..n][k].key == key;
        var j :| 0 <= j < n && ts[..n][j].key == key && NamedTask(ts, key) == ts[..n][j]
          && forall m | j < m < n :: ts[..n][m].key != key;
        assert ts[j].key == key && NamedTask(ts, key) == ts[j];
      }
    }
  }

  /** The numbered tasks: each key of the order with its task, and the final validation, which depends on
      all of them and has the final criteria and commands. */
  lemma LoweredRead(p: Spec, order: seq<string>, finalKey: string, out: seq<Numbered>)
    requires LoweredAs(p, order, finalKey, out)
    ensures |out| == |order| + 1 && forall i | 0 <= i < |out| :: out[i].position == i + 1
    ensures forall i | 0 <= i < |order| :: out[i].key == order[i] && TaskWithKey(p.tasks, order[i], out[i].task)
    ensures var last := out[|order|];
      && last.key == finalKey && last.task.key == finalKey && last.task.title == "Final validation"
      && last.task.dependsOn == Some(order) && last.task.scope == ["."]
      && last.task.criteria == p.finalCriteria && last.task.commands == Some(p.finalCommands)
      && (p.finalCriteria.Some? ==> last.task.acceptance == Some(Descriptions(p.finalCriteria.value)))
  {
    hide NamedTask, TaskWithKey;
    forall i | 0 <= i < |order| {
      NamedTaskRead(p.tasks, order[i]);
    }
  }

  lemma {:induction false} NamedTaskIs(ts: seq<TaskSpec>, i: nat)
    requires i < |ts| && forall m, n | 0 <= m < n < |ts| :: ts[m].key != ts[n].key
    ensures NamedTask(ts, ts[i].key) == ts[i]
  {
    if i == |ts| - 1 {
    } else {
      NamedTaskIs(ts[..|ts| - 1], i);
    }
  }
}
