/** A plan specification: how it is prepared and what validation accepts. */
module PlanSpec {
  import opened Lifecycle
  import opened Text
  import opened Words
  import opened Paths
  import opened Graph

  datatype Criterion = Criterion(key: string, description: string)

  /** A planned task. None stands for a list the author left out. */
  datatype TaskSpec = TaskSpec(
    key: string,
    title: string,
    dependsOn: Option<seq<string>>,
    scope: seq<string>,
    inputs: Option<seq<string>>,
    outputs: Option<seq<string>>,
    risks: Option<seq<string>>,
    commands: Option<seq<string>>,
    acceptance: Option<seq<string>>,
    criteria: Option<seq<Criterion>>)

  datatype Spec = Spec(
    version: int,
    compatibility: bool,
    title: string,
    summary: string,
    tasks: seq<TaskSpec>,
    finalValidation: Option<seq<string>>,
    finalCriteria: Option<seq<Criterion>>,
    finalCommands: seq<string>)

  const CURRENT_VERSION := 2

  // ---- preparing ---------------------------------------------------------------

  function PreparedCriteria(a: Alphabet, cs: seq<Criterion>): (r: seq<Criterion>)
    ensures |r| == |cs|
    ensures forall i | 0 <= i < |cs| :: r[i] == Criterion(NormalizeKey(a, cs[i].key), Trim(cs[i].description))
  {
    seq(|cs|, i requires 0 <= i < |cs| => Criterion(NormalizeKey(a, cs[i].key), Trim(cs[i].description)))
  }

  function Descriptions(cs: seq<Criterion>): (r: seq<string>)
    ensures |r| == |cs| && forall i | 0 <= i < |cs| :: r[i] == cs[i].description
  {
    seq(|cs|, i requires 0 <= i < |cs| => cs[i].description)
  }

  /** Criteria for a legacy list of descriptions, with generated keys. */
  function Generated(prefix: string, descriptions: seq<string>): (r: seq<Criterion>)
    ensures |r| == |descriptions|
    ensures forall i | 0 <= i < |descriptions| ::
      r[i] == Criterion(prefix + "-A" + Padded(i + 1), descriptions[i])
  {
    seq(|descriptions|, i requires 0 <= i < |descriptions| =>
      Criterion(prefix + "-A" + Padded(i + 1), descriptions[i]))
  }

  function CriteriaOf(a: Alphabet, prefix: string, acceptance: Option<seq<string>>, criteria: Option<seq<Criterion>>):
    Option<seq<Criterion>>
  {
    if criteria.Some? then Some(PreparedCriteria(a, criteria.value))
    else if acceptance.Some? then Some(PreparedCriteria(a, Generated(prefix, acceptance.value)))
    else None
  }

  function DescriptionsOf(criteria: Option<seq<Criterion>>): Option<seq<string>> {
    if criteria.Some? then Some(Descriptions(criteria.value)) else None
  }

  function Field(values: Option<seq<string>>): Option<seq<string>> {
    Some(if values.Some? then NormalizeList(values.value) else [])
  }

  /** Preparing this task switches the plan to compatibility mode. */
  predicate TaskCompat(t: TaskSpec) {
    t.dependsOn.None? || t.inputs.None? || t.outputs.None? || t.risks.None? || t.commands.None?
    || (t.criteria.None? && t.acceptance.Some?)
  }

  /** prepareTask: `previous` is the prepared key of the task before, `compat` the mode so far. */
  function PreparedTask(a: Alphabet, t: TaskSpec, i: nat, previous: string, compat: bool): (r: TaskSpec)
    ensures r.scope == t.scope
  {
    var key := NormalizeKey(a, if Trim(t.key) == "" && compat then "P" + Padded(i + 1) else t.key);
    var deps := if t.dependsOn.Some? then t.dependsOn.value else if i > 0 then [previous] else [];
    var criteria := CriteriaOf(a, key, t.acceptance, t.criteria);
    TaskSpec(key, Trim(t.title), Some(NormalizeKeys(a, deps)), t.scope, Field(t.inputs), Field(t.outputs),
             Field(t.risks), Field(t.commands), DescriptionsOf(criteria), criteria)
  }

  function PreviousKey(out: seq<TaskSpec>): string {
    if out == [] then "" else out[|out| - 1].key
  }

  /** The task that follows the prepared tasks `out`. */
  function PreparedNext(a: Alphabet, out: seq<TaskSpec>, t: TaskSpec, compat: bool): TaskSpec {
    PreparedTask(a, t, |out|, PreviousKey(out), compat).(scope := Scope(t.scope))
  }

  /** The first n tasks after preparing, and the mode reached. */
  function PreparedTasks(a: Alphabet, ts: seq<TaskSpec>, n: nat, compat: bool): (r: (seq<TaskSpec>, bool))
    requires n <= |ts|
    ensures |r.0| == n
  {
    if n == 0 then ([], compat)
    else
      var (out, mode) := PreparedTasks(a, ts, n - 1, compat);
      (out + [PreparedNext(a, out, ts[n - 1], mode)], mode || TaskCompat(ts[n - 1]))
  }

  predicate OldVersion(v: int) { v == 0 || v == 1 }

  function StartMode(s: Spec): bool { s.compatibility || OldVersion(s.version) }

  function Prepared(a: Alphabet, s: Spec): Spec {
    var (tasks, mode) := PreparedTasks(a, s.tasks, |s.tasks|, StartMode(s));
    var criteria := CriteriaOf(a, "FINAL", s.finalValidation, s.finalCriteria);
    Spec(if OldVersion(s.version) then CURRENT_VERSION else s.version,
         mode || (s.finalCriteria.None? && s.finalValidation.Some?),
         Trim(s.title), Trim(s.summary), tasks,
         DescriptionsOf(criteria), criteria, NormalizeList(s.finalCommands))
  }

  // ---- what validation reports --------------------------------------------------

  datatype Code =
    | ScopeInvalid | VersionUnsupported | TitleRequired | SummaryRequired | TasksRequired | TasksLimit
    | TaskKeyRequired | TaskKeyDuplicate | TaskTitleRequired | TaskScopeRequired
    | AcceptanceRequired | AcceptanceIncomplete | AcceptanceKeyDuplicate
    | DependencySelf | DependencyDangling | DependencyCycle
    | FinalRequired | FinalCommandsRequired

  function NodesOf(ts: seq<TaskSpec>): (g: seq<Node>)
    ensures |g| == |ts|
    ensures forall i | 0 <= i < |ts| :: g[i] == Node(ts[i].key, DepsOf(ts[i]))
  {
    seq(|ts|, i requires 0 <= i < |ts| => Node(ts[i].key, DepsOf(ts[i])))
  }

  function DepsOf(t: TaskSpec): seq<string> {
    if t.dependsOn.Some? then t.dependsOn.value else []
  }

  function CriteriaList(t: Option<seq<Criterion>>): seq<Criterion> {
    if t.Some? then t.value else []
  }

  /** The first position of each non-empty key among the first n nodes. */
  function KeyIndex(g: seq<Node>, n: nat): map<string, nat>
    requires n <= |g|
  {
    if n == 0 then map[]
    else
      var ix := KeyIndex(g, n - 1);
      var key := g[n - 1].key;
      if key == "" || key in ix then ix else ix[key := n - 1]
  }

  lemma {:induction false} KeyIndexIs(g: seq<Node>, n: nat)
    requires n <= |g|
    ensures forall k | k in KeyIndex(g, n) :: k != "" && KeyIndex(g, n)[k] < n && g[KeyIndex(g, n)[k]].key == k
    ensures forall i | 0 <= i < n && g[i].key != "" :: g[i].key in KeyIndex(g, n) && KeyIndex(g, n)[g[i].key] <= i
  {
    if n == 0 {
    } else {
      KeyIndexIs(g, n - 1);
    }
  }

  lemma KeysIndexed(g: seq<Node>)
    ensures Indexed(g, KeyIndex(g, |g|))
  {
    KeyIndexIs(g, |g|);
  }

  /** All acceptance criteria in the order validation meets them, the final ones last. */
  function CriteriaUpTo(ts: seq<TaskSpec>, n: nat): seq<Criterion>
    requires n <= |ts|
  {
    if n == 0 then [] else CriteriaUpTo(ts, n - 1) + CriteriaList(ts[n - 1].criteria)
  }

  function AllCriteria(s: Spec): seq<Criterion> {
    CriteriaUpTo(s.tasks, |s.tasks|) + CriteriaList(s.finalCriteria)
  }

  predicate Incomplete(c: Criterion) { c.key == "" || c.description == "" }

  predicate RepeatedKey(cs: seq<Criterion>) {
    exists i, j | 0 <= i < j < |cs| :: cs[i].key != "" && cs[i].key == cs[j].key
  }

  /** Whether problem `c` applies to the specification s, whose prepared form is p. */
  ghost predicate Violates(s: Spec, p: Spec, c: Code) {
    var g := NodesOf(p.tasks);
    var ix := KeyIndex(g, |g|);
    match c
    case ScopeInvalid => exists i | 0 <= i < |s.tasks| :: InvalidPaths(s.tasks[i].scope) != []
    case VersionUnsupported => p.version != CURRENT_VERSION
    case TitleRequired => p.title == ""
    case SummaryRequired => p.summary == ""
    case TasksRequired => p.tasks == []
    case TasksLimit => |p.tasks| > 100
    case TaskKeyRequired => exists i | 0 <= i < |g| :: g[i].key == ""
    case TaskKeyDuplicate => exists i, j | 0 <= i < j < |g| :: g[i].key != "" && g[i].key == g[j].key
    case TaskTitleRequired => exists i | 0 <= i < |p.tasks| :: p.tasks[i].title == ""
    case TaskScopeRequired => exists i | 0 <= i < |p.tasks| :: p.tasks[i].scope == []
    case AcceptanceRequired => exists i | 0 <= i < |p.tasks| :: CriteriaList(p.tasks[i].criteria) == []
    case AcceptanceIncomplete => exists x | x in AllCriteria(p) :: Incomplete(x)
    case AcceptanceKeyDuplicate => RepeatedKey(AllCriteria(p))
    case DependencySelf => exists i | 0 <= i < |g| :: g[i].key in g[i].deps && g[i].key != ""
    case DependencyDangling =>
      exists i, d | 0 <= i < |g| && d in g[i].deps :: d !in ix && !(d == g[i].key && d != "")
    case DependencyCycle => !Ranked(g, ix)
    case FinalRequired => CriteriaList(p.finalCriteria) == []
    case FinalCommandsRequired => !p.compatibility && p.finalCommands == []
  }

  /** The specification has no problem. */
  ghost predicate Accepted(a: Alphabet, s: Spec) {
    forall c: Code :: !Violates(s, Prepared(a, s), c)
  }
}
