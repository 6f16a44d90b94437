/** The draft of a plan as preparing and validating rewrite it in place. */
module Validation {
  import opened Lifecycle
  import opened Text
  import opened Words
  import opened Paths
  import opened Graph
  import opened PlanSpec

  /** A reported problem and the task and item it points at. */
  datatype Problem = Problem(code: Code, task: nat, item: nat)

  predicate Reported(ps: seq<Problem>, c: Code) {
    exists k | 0 <= k < |ps| :: ps[k].code == c
  }

  lemma ReportedAppend(ps: seq<Problem>, qs: seq<Problem>)
    ensures forall c :: Reported(ps + qs, c) <==> Reported(ps, c) || Reported(qs, c)
  {
    forall c ensures Reported(ps + qs, c) <==> Reported(ps, c) || Reported(qs, c) {
      if k :| 0 <= k < |ps| && ps[k].code == c {
        assert (ps + qs)[k].code == c;
      }
      if k :| 0 <= k < |qs| && qs[k].code == c {
        assert (ps + qs)[|ps| + k].code == c;
      }
    }
  }

  /** A list with the single problem c when `found`, and none otherwise. */
  function ProblemWhen(found: bool, c: Code, task: nat): (ps: seq<Problem>)
    ensures forall x :: Reported(ps, x) <==> found && x == c
  {
    var ps := if found then [Problem(c, task, 0)] else [];
    assert found ==> ps[0].code == c;
    ps
  }

  // ---- criteria ------------------------------------------------------------------

  function KeySet(cs: seq<Criterion>): set<string> {
    set k | 0 <= k < |cs| && cs[k].key != "" :: cs[k].key
  }

  /** Some key of `items` already stands in `earlier` or further up in `items`. */
  predicate RepeatsAfter(earlier: seq<Criterion>, items: seq<Criterion>) {
    exists j | 0 <= j < |items| :: items[j].key != "" && items[j].key in KeySet(earlier + items[..j])
  }

  lemma RepeatsGrow(earlier: seq<Criterion>, items: seq<Criterion>)
    ensures RepeatedKey(earlier + items) <==> RepeatedKey(earlier) || RepeatsAfter(earlier, items)
  {
    var all := earlier + items;
    var n := |earlier|;
    if i, j :| 0 <= i < j < |all| && all[i].key != "" && all[i].key == all[j].key {
      if j < n {
        assert earlier[i].key == earlier[j].key;
      } else {
        var before := earlier + items[..j - n];
        assert before[i] == all[i] && items[j - n] == all[j];
        assert items[j - n].key in KeySet(before);
      }
    }
    if i, j :| 0 <= i < j < n && earlier[i].key != "" && earlier[i].key == earlier[j].key {
      assert all[i].key == all[j].key;
    }
    if j :| 0 <= j < |items| && items[j].key != "" && items[j].key in KeySet(earlier + items[..j]) {
      var before := earlier + items[..j];
      var i :| 0 <= i < |before| && before[i].key == items[j].key;
      assert all[i] == before[i] && all[n + j] == items[j];
    }
  }

  method CheckCriteria(ghost earlier: seq<Criterion>, items: seq<Criterion>, seen: set<string>, task: nat)
    returns (ps: seq<Problem>, after: set<string>)
    requires seen == KeySet(earlier)
    ensures after == KeySet(earlier + items)
    ensures forall c :: Reported(ps, c) <==>
      (|| (c == AcceptanceIncomplete && exists j | 0 <= j < |items| :: Incomplete(items[j]))
       || (c == AcceptanceKeyDuplicate && RepeatsAfter(earlier, items)))
  {
    ps, after := [], seen;
    assert earlier + items[..0] == earlier;
    ghost var repeated := false;
    for n := 0 to |items|
      invariant after == KeySet(earlier + items[..n])
      invariant repeated <==>
        exists j | 0 <= j < n :: items[j].key != "" && items[j].key in KeySet(earlier + items[..j])
      invariant forall c :: Reported(ps, c) <==>
        (|| (c == AcceptanceIncomplete && exists j | 0 <= j < n :: Incomplete(items[j]))
         || (c == AcceptanceKeyDuplicate && repeated))
    {
      var item := items[n];
      ReportedAppend(ps, ProblemWhen(item.key == "" || item.description == "", AcceptanceIncomplete, task));
      ps := ps + ProblemWhen(item.key == "" || item.description == "", AcceptanceIncomplete, task);
      KeySetGrows(earlier + items[..n], item);
      assert earlier + items[..n + 1] == earlier + items[..n] + [item];
      if item.key != "" {
        ReportedAppend(ps, ProblemWhen(item.key in after, AcceptanceKeyDuplicate, task));
        ps := ps + ProblemWhen(item.key in after, AcceptanceKeyDuplicate, task);
        repeated := repeated || item.key in after;
        after := after + {item.key};
      }
    }
    assert earlier + items[..|items|] == earlier + items;
  }

  lemma KeySetGrows(cs: seq<Criterion>, c: Criterion)
    ensures KeySet(cs + [c]) == if c.key != "" then KeySet(cs) + {c.key} else KeySet(cs)
  {
    var all := cs + [c];
    forall k | k in KeySet(cs) ensures k in KeySet(all) {
      var i :| 0 <= i < |cs| && cs[i].key == k;
      assert all[i].key == k;
    }
    if c.key != "" {
      assert all[|cs|].key == c.key;
    }
  }

  // ---- tasks --------------------------------------------------------------------------

  /** Problem c is found when task n is checked after the tasks before it. */
  predicate TaskViolates(ts: seq<TaskSpec>, n: nat, c: Code)
    requires n < |ts|
  {
    match c
    case TaskKeyRequired => ts[n].key == ""
    case TaskKeyDuplicate => ts[n].key != "" && exists m | 0 <= m < n :: ts[m].key == ts[n].key
    case TaskTitleRequired => ts[n].title == ""
    case TaskScopeRequired => ts[n].scope == []
    case AcceptanceRequired => CriteriaList(ts[n].criteria) == []
    case AcceptanceIncomplete =>
      exists j | 0 <= j < |CriteriaList(ts[n].criteria)| :: Incomplete(CriteriaList(ts[n].criteria)[j])
    case AcceptanceKeyDuplicate => RepeatsAfter(CriteriaUpTo(ts, n), CriteriaList(ts[n].criteria))
    case _ => false
  }

  /** The problems of a task other than those of its key and criteria. */
  method CheckFields(t: TaskSpec, n: nat) returns (ps: seq<Problem>)
    ensures forall c :: Reported(ps, c) <==>
      (|| (c == TaskTitleRequired && t.title == "") || (c == TaskScopeRequired && t.scope == [])
       || (c == AcceptanceRequired && CriteriaList(t.criteria) == []))
  {
    hide Reported;
    ps := ProblemWhen(t.title == "", TaskTitleRequired, n);
    var qs := ProblemWhen(t.scope == [], TaskScopeRequired, n);
    ReportedAppend(ps, qs);
    ps := ps + qs;
    qs := ProblemWhen(CriteriaList(t.criteria) == [], AcceptanceRequired, n);
    ReportedAppend(ps, qs);
    ps := ps + qs;
  }

  method CheckKey(ts: seq<TaskSpec>, n: nat, ix: map<string, nat>) returns (ps: seq<Problem>, ix': map<string, nat>)
    requires n < |ts| && ix == KeyIndex(NodesOf(ts), n)
    ensures ix' == KeyIndex(NodesOf(ts), n + 1)
    ensures forall c :: Reported(ps, c) <==>
      (|| (c == TaskKeyRequired && ts[n].key == "")
       || (c == TaskKeyDuplicate && ts[n].key != "" && exists m | 0 <= m < n :: ts[m].key == ts[n].key))
  {
    hide Reported;
    var key := ts[n].key;
    ix' := ix;
    KnownKeys(ts, n, key);
    if key == "" {
      ps := ProblemWhen(true, TaskKeyRequired, n);
    } else {
      ps := ProblemWhen(key in ix, TaskKeyDuplicate, n);
      if key !in ix {
        ix' := ix[key := n];
      }
    }
  }

  method CheckTask(ts: seq<TaskSpec>, n: nat, ix: map<string, nat>, seen: set<string>)
    returns (ps: seq<Problem>, ix': map<string, nat>, seen': set<string>)
    requires n < |ts| && ix == KeyIndex(NodesOf(ts), n) && seen == KeySet(CriteriaUpTo(ts, n))
    ensures ix' == KeyIndex(NodesOf(ts), n + 1) && seen' == KeySet(CriteriaUpTo(ts, n + 1))
    ensures forall c :: Reported(ps, c) <==> TaskViolates(ts, n, c)
  {
    hide RepeatsAfter, Reported, KeySet, Incomplete, KeyIndex;
    var qs;
    ps, ix' := CheckKey(ts, n, ix);
    qs := CheckFields(ts[n], n);
    ReportedAppend(ps, qs);
    ps := ps + qs;
    qs, seen' := CheckCriteria(CriteriaUpTo(ts, n), CriteriaList(ts[n].criteria), seen, n);
    ReportedAppend(ps, qs);
    ps := ps + qs;
  }

  lemma KnownKeys(ts: seq<TaskSpec>, n: nat, key: string)
    requires n <= |ts|
    ensures key in KeyIndex(NodesOf(ts), n) <==> key != "" && exists m | 0 <= m < n :: ts[m].key == key
  {
  }

  predicate TasksProblem(ts: seq<TaskSpec>, c: Code) {
    exists n | 0 <= n < |ts| :: TaskViolates(ts, n, c)
  }

  method CheckTasks(ts: seq<TaskSpec>) returns (ps: seq<Problem>, ix: map<string, nat>, seen: set<string>)
    ensures ix == KeyIndex(NodesOf(ts), |ts|) && seen == KeySet(CriteriaUpTo(ts, |ts|))
    ensures forall c :: Reported(ps, c) <==> TasksProblem(ts, c)
  {
    hide TaskViolates, Reported;
    ps, ix, seen := [], map[], {};
    NothingReported();
    for n := 0 to |ts|
      invariant ix == KeyIndex(NodesOf(ts), n) && seen == KeySet(CriteriaUpTo(ts, n))
      invariant forall c :: Reported(ps, c) <==> exists m | 0 <= m < n :: TaskViolates(ts, m, c)
    {
      var qs;
      qs, ix, seen := CheckTask(ts, n, ix, seen);
      ReportedAppend(ps, qs);
      ps := ps + qs;
    }
  }

  lemma NothingReported()
    ensures forall c :: !Reported([], c)
  {
  }

  // ---- dependencies ------------------------------------------------------------------------

  method CheckDependencies(g: seq<Node>, ix: map<string, nat>) returns (ps: seq<Problem>)
    ensures forall c :: Reported(ps, c) <==>
      (|| (c == DependencySelf && exists i | 0 <= i < |g| :: g[i].key in g[i].deps && g[i].key != "")
       || (c == DependencyDangling && exists i, d | 0 <= i < |g| && d in g[i].deps :: d !in ix && !(d == g[i].key && d != "")))
  {
    hide Reported;
    ps := [];
    NothingReported();
    for i := 0 to |g|
      invariant forall c :: Reported(ps, c) <==>
        (|| (c == DependencySelf && exists m | 0 <= m < i :: g[m].key in g[m].deps && g[m].key != "")
         || (c == DependencyDangling && exists m, d | 0 <= m < i && d in g[m].deps :: d !in ix && !(d == g[m].key && d != "")))
    {
      var qs := CheckNode(g[i], ix, i);
      ReportedAppend(ps, qs);
      ps := ps + qs;
    }
  }

  method CheckNode(node: Node, ix: map<string, nat>, i: nat) returns (ps: seq<Problem>)
    ensures forall c :: Reported(ps, c) <==>
      (|| (c == DependencySelf && node.key in node.deps && node.key != "")
       || (c == DependencyDangling && exists d | d in node.deps :: d !in ix && !(d == node.key && d != "")))
  {
    hide Reported;
    ps := [];
    NothingReported();
    for j := 0 to |node.deps|
      invariant forall c :: Reported(ps, c) <==>
        (|| (c == DependencySelf && node.key in node.deps[..j] && node.key != "")
         || (c == DependencyDangling && exists d | d in node.deps[..j] :: d !in ix && !(d == node.key && d != "")))
    {
      var d := node.deps[j];
      assert node.deps[..j + 1] == node.deps[..j] + [d];
      var qs := if d == node.key && d != "" then ProblemWhen(true, DependencySelf, i)
                else ProblemWhen(d !in ix, DependencyDangling, i);
      ReportedAppend(ps, qs);
      ps := ps + qs;
    }
    assert node.deps[..|node.deps|] == node.deps;
  }

  // ---- from the checks to the report -----------------------------------------------------

  lemma {:induction false} CriteriaIncomplete(ts: seq<TaskSpec>, n: nat)
    requires n <= |ts|
    ensures (exists x | x in CriteriaUpTo(ts, n) :: Incomplete(x)) <==>
      exists m | 0 <= m < n :: TaskViolates(ts, m, AcceptanceIncomplete)
  {
    if n == 0 {
    } else {
      CriteriaIncomplete(ts, n - 1);
      var items := CriteriaList(ts[n - 1].criteria);
      assert TaskViolates(ts, n - 1, AcceptanceIncomplete) <==> exists x | x in items :: Incomplete(x);
    }
  }

  lemma {:induction false} CriteriaRepeated(ts: seq<TaskSpec>, n: nat)
    requires n <= |ts|
    ensures RepeatedKey(CriteriaUpTo(ts, n)) <==> exists m | 0 <= m < n :: TaskViolates(ts, m, AcceptanceKeyDuplicate)
  {
    hide RepeatsAfter, RepeatedKey;
    if n > 0 {
      CriteriaRepeated(ts, n - 1);
      RepeatsGrow(CriteriaUpTo(ts, n - 1), CriteriaList(ts[n - 1].criteria));
      assert TaskViolates(ts, n - 1, AcceptanceKeyDuplicate) <==>
        RepeatsAfter(CriteriaUpTo(ts, n - 1), CriteriaList(ts[n - 1].criteria));
    } else {
      NoRepeats();
    }
  }

  lemma NoRepeats()
    ensures !RepeatedKey([])
  {
  }

  predicate TaskCode(c: Code) {
    c in {TaskKeyRequired, TaskKeyDuplicate, TaskTitleRequired, TaskScopeRequired, AcceptanceRequired}
  }

  lemma DuplicateCode(s: Spec, p: Spec)
    ensures Violates(s, p, TaskKeyDuplicate) <==> TasksProblem(p.tasks, TaskKeyDuplicate)
  {
    hide KeyIndex, InvalidPaths;
    var g, ts := NodesOf(p.tasks), p.tasks;
    if n :| 0 <= n < |ts| && TaskViolates(ts, n, TaskKeyDuplicate) {
      var m :| 0 <= m < n && ts[m].key == ts[n].key;
      assert g[m].key == g[n].key;
    }
    if Violates(s, p, TaskKeyDuplicate) {
      var i, j :| 0 <= i < j < |g| && g[i].key != "" && g[i].key == g[j].key;
      assert ts[i].key == ts[j].key && TaskViolates(ts, j, TaskKeyDuplicate);
    }
  }

  lemma RequiredKeyCode(s: Spec, p: Spec)
    ensures Violates(s, p, TaskKeyRequired) <==> TasksProblem(p.tasks, TaskKeyRequired)
  {
    hide KeyIndex, InvalidPaths;
    var g, ts := NodesOf(p.tasks), p.tasks;
    assert forall n | 0 <= n < |ts| :: TaskViolates(ts, n, TaskKeyRequired) <==> g[n].key == "";
  }

  lemma RequiredFieldCodes(s: Spec, p: Spec, c: Code)
    requires c == TaskTitleRequired || c == TaskScopeRequired || c == AcceptanceRequired
    ensures Violates(s, p, c) <==> TasksProblem(p.tasks, c)
  {
    hide KeyIndex, InvalidPaths;
    var ts := p.tasks;
    if Violates(s, p, c) {
      var n :| 0 <= n < |ts| && (c == TaskTitleRequired ==> ts[n].title == "") &&
        (c == TaskScopeRequired ==> ts[n].scope == []) &&
        (c == AcceptanceRequired ==> CriteriaList(ts[n].criteria) == []);
      assert TaskViolates(ts, n, c);
    }
  }

  lemma TaskCodes(s: Spec, p: Spec, c: Code)
    requires TaskCode(c)
    ensures Violates(s, p, c) <==> TasksProblem(p.tasks, c)
  {
    hide Violates, TasksProblem;
    if c == TaskKeyDuplicate {
      DuplicateCode(s, p);
    } else if c == TaskKeyRequired {
      RequiredKeyCode(s, p);
    } else {
      RequiredFieldCodes(s, p, c);
    }
  }

  lemma SharedCodes(s: Spec, p: Spec)
    ensures Violates(s, p, AcceptanceIncomplete) <==>
      (TasksProblem(p.tasks, AcceptanceIncomplete)
        || exists j | 0 <= j < |CriteriaList(p.finalCriteria)| :: Incomplete(CriteriaList(p.finalCriteria)[j]))
    ensures Violates(s, p, AcceptanceKeyDuplicate) <==>
      (TasksProblem(p.tasks, AcceptanceKeyDuplicate)
        || RepeatsAfter(CriteriaUpTo(p.tasks, |p.tasks|), CriteriaList(p.finalCriteria)))
  {
    hide TaskViolates, RepeatsAfter, RepeatedKey, KeyIndex;
    CriteriaIncomplete(p.tasks, |p.tasks|);
    CriteriaRepeated(p.tasks, |p.tasks|);
    RepeatsGrow(CriteriaUpTo(p.tasks, |p.tasks|), CriteriaList(p.finalCriteria));
    var items := CriteriaList(p.finalCriteria);
    assert (exists x | x in items :: Incomplete(x)) <==> exists j | 0 <= j < |items| :: Incomplete(items[j]);
  }

  predicate HeaderProblem(p: Spec, c: Code) {
    || (c == VersionUnsupported && p.version != CURRENT_VERSION) || (c == TitleRequired && p.title == "")
    || (c == SummaryRequired && p.summary == "") || (c == TasksRequired && p.tasks == [])
    || (c == TasksLimit && |p.tasks| > 100)
  }

  predicate FinalProblem(p: Spec, c: Code) {
    var items := CriteriaList(p.finalCriteria);
    || (c == FinalRequired && items == [])
    || (c == AcceptanceIncomplete && exists j | 0 <= j < |items| :: Incomplete(items[j]))
    || (c == AcceptanceKeyDuplicate && RepeatsAfter(CriteriaUpTo(p.tasks, |p.tasks|), items))
    || (c == FinalCommandsRequired && !p.compatibility && p.finalCommands == [])
  }

  ghost predicate GraphProblem(p: Spec, c: Code) {
    c in {DependencySelf, DependencyDangling, Code.DependencyCycle} && Violates(p, p, c)
  }

  /** The plan-level checks that need no loop. */
  method CheckHeader(p: Spec) returns (ps: seq<Problem>)
    ensures forall c :: Reported(ps, c) <==> HeaderProblem(p, c)
  {
    hide Reported;
    ps := ProblemWhen(p.version != CURRENT_VERSION, VersionUnsupported, 0);
    var qs := ProblemWhen(p.title == "", TitleRequired, 0);
    ReportedAppend(ps, qs);
    ps := ps + qs;
    qs := ProblemWhen(p.summary == "", SummaryRequired, 0);
    ReportedAppend(ps, qs);
    ps := ps + qs;
    qs := ProblemWhen(p.tasks == [], TasksRequired, 0);
    ReportedAppend(ps, qs);
    ps := ps + qs;
    qs := ProblemWhen(|p.tasks| > 100, TasksLimit, 0);
    ReportedAppend(ps, qs);
    ps := ps + qs;
  }

  method CheckGraph(p: Spec, ix: map<string, nat>) returns (ps: seq<Problem>)
    requires ix == KeyIndex(NodesOf(p.tasks), |p.tasks|)
    ensures forall c :: Reported(ps, c) <==> GraphProblem(p, c)
  {
    hide Reported, KeyIndex, Ranked, IsClosedWalk;
    var g := NodesOf(p.tasks);
    ps := CheckDependencies(g, ix);
    KeysIndexed(g);
    var cycle := Graph.DependencyCycle(g, ix);
    var qs := ProblemWhen(cycle != [], Code.DependencyCycle, 0);
    ReportedAppend(ps, qs);
    ps := ps + qs;
  }

  method CheckFinal(p: Spec, seen: set<string>) returns (ps: seq<Problem>)
    requires seen == KeySet(CriteriaUpTo(p.tasks, |p.tasks|))
    ensures forall c :: Reported(ps, c) <==> FinalProblem(p, c)
  {
    hide Reported, RepeatsAfter, KeySet, Incomplete;
    ps := ProblemWhen(CriteriaList(p.finalCriteria) == [], FinalRequired, 0);
    var qs, after := CheckCriteria(CriteriaUpTo(p.tasks, |p.tasks|), CriteriaList(p.finalCriteria), seen, 0);
    ReportedAppend(ps, qs);
    ps := ps + qs;
    qs := ProblemWhen(!p.compatibility && p.finalCommands == [], FinalCommandsRequired, 0);
    ReportedAppend(ps, qs);
    ps := ps + qs;
  }

  /** Everything validation checks on a prepared specification. */
  method CheckPrepared(ghost s: Spec, p: Spec) returns (ps: seq<Problem>)
    ensures forall c :: Reported(ps, c) <==> c != ScopeInvalid && Violates(s, p, c)
  {
    hide Reported, HeaderProblem, TasksProblem, GraphProblem, FinalProblem, KeySet, Violates;
    ps := CheckHeader(p);
    var qs, ix, seen := CheckTasks(p.tasks);
    ReportedAppend(ps, qs);
    ps := ps + qs;
    qs := CheckGraph(p, ix);
    ReportedAppend(ps, qs);
    ps := ps + qs;
    qs := CheckFinal(p, seen);
    ReportedAppend(ps, qs);
    ps := ps + qs;
    forall c ensures Reported(ps, c) <==> c != ScopeInvalid && Violates(s, p, c) {
      ReportComplete(s, p, c);
    }
  }

  /** The four groups of checks cover every kind of problem but the scopes. */
  lemma ReportComplete(s: Spec, p: Spec, c: Code)
    ensures HeaderProblem(p, c) || TasksProblem(p.tasks, c) || GraphProblem(p, c) || FinalProblem(p, c) <==>
      c != ScopeInvalid && Violates(s, p, c)
  {
    if TaskCode(c) {
      hide TasksProblem, Violates;
      TaskCodes(s, p, c);
    } else if c == AcceptanceIncomplete || c == AcceptanceKeyDuplicate {
      hide TasksProblem, Violates, RepeatsAfter, Incomplete;
      SharedCodes(s, p);
    } else {
      OtherCode(s, p, c);
    }
  }

  lemma OtherCode(s: Spec, p: Spec, c: Code)
    requires !TaskCode(c) && c != AcceptanceIncomplete && c != AcceptanceKeyDuplicate
    ensures !TasksProblem(p.tasks, c)
    ensures HeaderProblem(p, c) || GraphProblem(p, c) || FinalProblem(p, c) <==> c != ScopeInvalid && Violates(s, p, c)
  {
    hide TaskViolates, KeyIndex, NodesOf, Ranked, InvalidPaths;
    forall n | 0 <= n < |p.tasks| ensures !TaskViolates(p.tasks, n, c) {
      OnlyTaskCodes(p.tasks, n, c);
    }
  }

  lemma OnlyTaskCodes(ts: seq<TaskSpec>, n: nat, c: Code)
    requires n < |ts|
    ensures TaskViolates(ts, n, c) ==> TaskCode(c) || c == AcceptanceIncomplete || c == AcceptanceKeyDuplicate
  {
  }

  // ---- the draft ---------------------------------------------------------------------------

  class Draft {
    var version: int
    var compatibility: bool
    var title: string
    var summary: string
    var tasks: seq<TaskSpec>
    var finalValidation: Option<seq<string>>
    var finalCriteria: Option<seq<Criterion>>
    var finalCommands: seq<string>

    function Value(): Spec
      reads this
    {
      Spec(version, compatibility, title, summary, tasks, finalValidation, finalCriteria, finalCommands)
    }

    constructor (s: Spec)
      ensures Value() == s
    {
      version, compatibility, title, summary := s.version, s.compatibility, s.title, s.summary;
      tasks, finalValidation := s.tasks, s.finalValidation;
      finalCriteria, finalCommands := s.finalCriteria, s.finalCommands;
    }

    /** prepareTask on the task at position i, which may switch the plan's mode. */
    method PrepareTask(a: Alphabet, i: nat)
      requires i < |tasks|
      modifies this`tasks, this`compatibility
      ensures tasks == old(tasks)[i :=
        PreparedTask(a, old(tasks)[i], i, if i > 0 then old(tasks)[i - 1].key else "", old(compatibility))]
      ensures compatibility == (old(compatibility) || TaskCompat(old(tasks)[i]))
    {
      hide Trim, NormalizeKey, NormalizeKeys, NormalizeList, Padded;
      var t := tasks[i];
      if Trim(t.key) == "" && compatibility {
        t := t.(key := "P" + Padded(i + 1));
      }
      var key := NormalizeKeyLoop(a, t.key);
      if t.dependsOn.None? {
        compatibility := true;
        t := t.(dependsOn := Some(if i > 0 then [tasks[i - 1].key] else []));
      }
      var deps := NormalizeKeysLoop(a, t.dependsOn.value);
      var inputs := PrepareField(t.inputs);
      var outputs := PrepareField(t.outputs);
      var risks := PrepareField(t.risks);
      var commands := PrepareField(t.commands);
      if t.criteria.None? && t.acceptance.Some? {
        compatibility := true;
        t := t.(criteria := Some(Generated(key, t.acceptance.value)));
      }
      var criteria := if t.criteria.Some? then Some(PreparedCriteria(a, t.criteria.value)) else None;
      tasks := tasks[i := TaskSpec(key, Trim(t.title), Some(deps), t.scope, inputs, outputs, risks, commands,
                                   DescriptionsOf(criteria), criteria)];
    }

    method PrepareField(values: Option<seq<string>>) returns (r: Option<seq<string>>)
      modifies this`compatibility
      ensures r == Field(values) && compatibility == (old(compatibility) || values.None?)
    {
      match values {
        case None =>
          compatibility := true;
          r := Some([]);
        case Some(vs) =>
          var list := NormalizeListLoop(vs);
          r := Some(list);
      }
    }

    /** One round of the loop of prepareSpec, with the invalid scope entries it found. */
    method PrepareNext(a: Alphabet, i: nat) returns (invalid: seq<string>)
      requires i < |tasks|
      modifies this`tasks, this`compatibility
      ensures tasks == old(tasks)[i := PreparedNext(a, old(tasks)[..i], old(tasks)[i], old(compatibility))]
      ensures compatibility == (old(compatibility) || TaskCompat(old(tasks)[i]))
      ensures invalid == InvalidPaths(old(tasks)[i].scope)
    {
      hide PreparedTask, TaskCompat, Scope, InvalidPaths;
      PrepareTask(a, i);
      var paths;
      paths, invalid := NormalizeScope(tasks[i].scope);
      tasks := tasks[i := tasks[i].(scope := paths)];
    }

    /** The loop of prepareSpec over the tasks, with the problems of their scopes. */
    method PrepareTasks(a: Alphabet) returns (ps: seq<Problem>)
      modifies this`tasks, this`compatibility
      ensures (tasks, compatibility) == PreparedTasks(a, old(tasks), |old(tasks)|, old(compatibility))
      ensures forall c :: Reported(ps, c) <==>
        c == ScopeInvalid && exists k | 0 <= k < |old(tasks)| :: InvalidPaths(old(tasks)[k].scope) != []
    {
      hide PreparedNext, Reported, TaskCompat, InvalidPaths;
      ps := [];
      NothingReported();
      ghost var was, mode := tasks, compatibility;
      for i := 0 to |tasks|
        invariant |tasks| == |was| && tasks[i..] == was[i..]
        invariant (tasks[..i], compatibility) == PreparedTasks(a, was, i, mode)
        invariant forall c :: Reported(ps, c) <==>
          c == ScopeInvalid && exists k | 0 <= k < i :: InvalidPaths(was[k].scope) != []
      {
        assert tasks[i] == tasks[i..][0] == was[i];
        ghost var done := tasks[..i];
        var invalid := PrepareNext(a, i);
        assert tasks[..i + 1] == done + [tasks[i]];
        assert tasks[i + 1..] == was[i..][1..];
        var qs := ProblemWhen(invalid != [], ScopeInvalid, i);
        ReportedAppend(ps, qs);
        ps := ps + qs;
      }
      assert tasks[..|tasks|] == tasks;
    }

    /** The part of prepareSpec after its loop. */
    method PrepareFinal(a: Alphabet)
      modifies this`compatibility, this`finalCriteria, this`finalCommands, this`finalValidation
      ensures finalCriteria == CriteriaOf(a, "FINAL", old(finalValidation), old(finalCriteria))
      ensures compatibility == (old(compatibility) || (old(finalCriteria).None? && old(finalValidation).Some?))
      ensures finalCommands == NormalizeList(old(finalCommands)) && finalValidation == DescriptionsOf(finalCriteria)
    {
      hide NormalizeList, PreparedCriteria, Generated;
      if finalCriteria.None? && finalValidation.Some? {
        compatibility := true;
        finalCriteria := Some(Generated("FINAL", finalValidation.value));
      }
      finalCriteria := if finalCriteria.Some? then Some(PreparedCriteria(a, finalCriteria.value)) else None;
      finalCommands := NormalizeListLoop(finalCommands);
      finalValidation := DescriptionsOf(finalCriteria);
    }

    /** prepareSpec */
    method Prepare(a: Alphabet) returns (ps: seq<Problem>)
      modifies this
      ensures Value() == Prepared(a, old(Value()))
      ensures forall c :: Reported(ps, c) <==> c == ScopeInvalid && Violates(old(Value()), Value(), c)
    {
      hide PreparedTasks, Reported, InvalidPaths, Trim, NormalizeList, CriteriaOf, DescriptionsOf, KeyIndex, NodesOf;
      if version == 0 || version == 1 {
        version := CURRENT_VERSION;
        compatibility := true;
      }
      title := Trim(title);
      summary := Trim(summary);
      ps := PrepareTasks(a);
      PrepareFinal(a);
    }

    /** ValidateProblems: prepares the draft and reports every kind of problem it has. */
    method Validate(a: Alphabet) returns (problems: seq<Problem>)
      modifies this
      ensures Value() == Prepared(a, old(Value()))
      ensures forall c :: Reported(problems, c) <==> Violates(old(Value()), Value(), c)
      ensures problems == [] <==> Accepted(a, old(Value()))
    {
      hide Prepared, Violates;
      ghost var s := Value();
      problems := Prepare(a);
      var more := CheckPrepared(s, Value());
      ReportedAppend(problems, more);
      problems := problems + more;
      assert problems != [] ==> Reported(problems, problems[0].code);
    }
  }
}
