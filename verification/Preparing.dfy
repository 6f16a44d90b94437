/** What preparing makes of each field of a plan. */
module Preparing {
  import opened Lifecycle
  import opened Text
  import opened Words
  import opened Paths
  import opened PlanSpec

  /** The author left a list of the task out, or wrote its acceptance as texts. */
  predicate Unstructured(t: TaskSpec) {
    || t.dependsOn == None || t.inputs == None || t.outputs == None || t.risks == None || t.commands == None
    || (t.criteria == None && t.acceptance != None)
  }

  /** The plan is in compatibility mode when its i-th task is reached. */
  predicate CompatibleAt(s: Spec, i: nat)
    requires i <= |s.tasks|
  {
    s.compatibility || s.version == 0 || s.version == 1 || exists k | 0 <= k < i :: Unstructured(s.tasks[k])
  }

  /** A list of the author, each value where it first stands; a missing list is empty. */
  predicate ListFrom(given: Option<seq<string>>, made: Option<seq<string>>) {
    made == Some(if given.Some? then NormalizeList(given.value) else [])
  }

  /** Criteria with normal keys and trimmed descriptions. Texts get the keys PREFIX-A001, PREFIX-A002, ... */
  predicate CriteriaFrom(a: Alphabet, prefix: string, texts: Option<seq<string>>, given: Option<seq<Criterion>>,
                         made: Option<seq<Criterion>>, descriptions: Option<seq<string>>)
  {
    && (made.Some? <==> given.Some? || texts.Some?) && (descriptions.Some? <==> made.Some?)
    && (given.Some? ==>
          |made.value| == |given.value| && forall k | 0 <= k < |made.value| ::
            made.value[k] == Criterion(NormalizeKey(a, given.value[k].key), Trim(given.value[k].description)))
    && (given.None? && texts.Some? ==>
          |made.value| == |texts.value| && forall k | 0 <= k < |made.value| ::
            made.value[k] == Criterion(NormalizeKey(a, prefix + "-A" + Padded(k + 1)), Trim(texts.value[k])))
    && (made.Some? ==>
          && |descriptions.value| == |made.value|
          && forall k | 0 <= k < |made.value| :: descriptions.value[k] == made.value[k].description)
  }

  lemma CriteriaRead(a: Alphabet, prefix: string, texts: Option<seq<string>>, given: Option<seq<Criterion>>)
    ensures var made := CriteriaOf(a, prefix, texts, given);
      CriteriaFrom(a, prefix, texts, given, made, DescriptionsOf(made))
  {
    hide NormalizeKey, Trim, Padded;
  }

  /** The i-th task of a prepared plan. A task without a key is numbered in compatibility mode; one without
      a list of dependencies depends on the task before it. */
  predicate TaskFrom(a: Alphabet, s: Spec, p: Spec, i: nat)
    requires i < |s.tasks| == |p.tasks|
  {
    var t, u := s.tasks[i], p.tasks[i];
    && u.key == NormalizeKey(a, if Trim(t.key) == "" && CompatibleAt(s, i) then "P" + Padded(i + 1) else t.key)
    && u.title == Trim(t.title) && u.scope == Scope(t.scope)
    && u.dependsOn == Some(
         if t.dependsOn.Some? then NormalizeKeys(a, t.dependsOn.value)
         else if i > 0 && p.tasks[i - 1].key != "" then [p.tasks[i - 1].key] else [])
    && ListFrom(t.inputs, u.inputs) && ListFrom(t.outputs, u.outputs) && ListFrom(t.risks, u.risks)
    && ListFrom(t.commands, u.commands)
    && CriteriaFrom(a, u.key, t.acceptance, t.criteria, u.criteria, u.acceptance)
  }

  /** A single normal key is its own list. */
  lemma OneDependency(a: Alphabet, key: string)
    requires KeyForm(a, key)
    ensures NormalizeKeys(a, [key]) == if key == "" then [] else [key]
    ensures NormalizeKeys(a, []) == []
  {
    hide KeyForm, Trim;
    NormalizeKeysIdentity(a, []);
    KeyFormTrimmed(a, key);
    if key != "" {
      NormalizeKeysIdentity(a, [key]);
    } else {
      NormalizeKeyIdentity(a, key);
      assert seq(|[key]|, i requires 0 <= i < |[key]| => NormalizeKey(a, [key][i])) == [key];
      assert [key][..0] == [];
    }
  }

  /** Task i is prepared with the key of the task before it and the mode reached so far. */
  predicate MadeFrom(a: Alphabet, s: Spec, out: seq<TaskSpec>, i: nat)
    requires i < |out| <= |s.tasks|
  {
    var t := PreparedTask(a, s.tasks[i], i, if i == 0 then "" else out[i - 1].key, CompatibleAt(s, i));
    out[i] == t.(scope := Scope(s.tasks[i].scope))
  }

  lemma {:induction false} TasksRead(a: Alphabet, s: Spec, n: nat)
    requires n <= |s.tasks|
    ensures var (out, mode) := PreparedTasks(a, s.tasks, n, StartMode(s));
      (mode <==> CompatibleAt(s, n)) && forall i: nat | i < n :: MadeFrom(a, s, out, i)
  {
    hide PreparedTask, Scope;
    if n > 0 {
      TasksRead(a, s, n - 1);
      var before := PreparedTasks(a, s.tasks, n - 1, StartMode(s)).0;
      var out := PreparedTasks(a, s.tasks, n, StartMode(s)).0;
      forall i: nat | i < n ensures MadeFrom(a, s, out, i) {
        if i < n - 1 {
          assert MadeFrom(a, s, before, i);
        }
      }
    }
  }

  lemma OneTaskRead(a: Alphabet, s: Spec, p: Spec, i: nat)
    requires i < |s.tasks| == |p.tasks| && (i > 0 ==> KeyForm(a, p.tasks[i - 1].key))
    requires MadeFrom(a, s, p.tasks, i)
    ensures TaskFrom(a, s, p, i)
  {
    hide NormalizeKey, NormalizeKeys, NormalizeList, Trim, Padded, Scope, CompatibleAt, CriteriaFrom, CriteriaOf, KeyForm;
    OneDependency(a, if i == 0 then "" else p.tasks[i - 1].key) by {
      EmptyKey(a);
    }
    CriteriaRead(a, p.tasks[i].key, s.tasks[i].acceptance, s.tasks[i].criteria);
  }

  lemma EmptyKey(a: Alphabet)
    ensures KeyForm(a, "")
  {
  }

  /** Every field of a prepared plan, from the fields its author gave. */
  lemma PreparedFields(a: Alphabet, s: Spec)
    ensures var p := Prepared(a, s);
      && |p.tasks| == |s.tasks| && (forall i: nat | i < |s.tasks| :: TaskFrom(a, s, p, i))
      && p.version == (if s.version == 0 || s.version == 1 then 2 else s.version)
      && p.title == Trim(s.title) && p.summary == Trim(s.summary)
      && (p.compatibility <==> CompatibleAt(s, |s.tasks|) || (s.finalCriteria == None && s.finalValidation != None))
      && CriteriaFrom(a, "FINAL", s.finalValidation, s.finalCriteria, p.finalCriteria, p.finalValidation)
      && p.finalCommands == NormalizeList(s.finalCommands)
  {
    hide PreparedTask, TaskFrom, CriteriaFrom, CriteriaOf, NormalizeList, Trim, Scope, PreparedTasks, KeyForm;
    var p := Prepared(a, s);
    TasksRead(a, s, |s.tasks|);
    CriteriaRead(a, "FINAL", s.finalValidation, s.finalCriteria);
    forall i: nat | i < |s.tasks| ensures TaskFrom(a, s, p, i) {
      assert MadeFrom(a, s, p.tasks, i);
      if i > 0 {
        assert MadeFrom(a, s, p.tasks, i - 1);
        PreparedKey(a, s.tasks[i - 1], i - 1, if i == 1 then "" else p.tasks[i - 2].key, CompatibleAt(s, i - 1));
      }
      OneTaskRead(a, s, p, i);
    }
  }

  lemma PreparedKey(a: Alphabet, t: TaskSpec, i: nat, previous: string, compat: bool)
    ensures KeyForm(a, PreparedTask(a, t, i, previous, compat).key)
  {
    hide KeyForm, Trim;
    NormalizedKeyForm(a, if Trim(t.key) == "" && compat then "P" + Padded(i + 1) else t.key);
  }
}
