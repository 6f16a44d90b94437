/** The scheduling gate as the loops over task rows that compute it. */
module Scheduling {
  import opened Lifecycle
  import opened Text
  import opened Schedule

  lemma ResultOfGrows(results: seq<CriterionResult>, n: nat, key: string)
    requires n < |results|
    ensures ResultOf(results[..n + 1], key) ==
      if results[n].key == key then Some(results[n].status) else ResultOf(results[..n], key)
  {
    assert results[..n + 1][..n] == results[..n];
  }

  /** Whether the acceptance of a task blocks the plan. */
  method AcceptanceBlocks(t: Task) returns (blocked: bool)
    ensures blocked <==> !Accepted(t)
  {
    blocked := !AcceptancePassed(t.acceptance);
    var resultByKey: map<string, Acceptance> := map[];
    for n := 0 to |t.results|
      invariant forall key ::
        ResultOf(t.results[..n], key) == if key in resultByKey then Some(resultByKey[key]) else None
    {
      forall key {
        ResultOfGrows(t.results, n, key);
      }
      resultByKey := resultByKey[t.results[n].key := t.results[n].status];
    }
    assert t.results[..|t.results|] == t.results;
    for n := 0 to |t.criteria|
      invariant blocked <==>
        (!AcceptancePassed(t.acceptance) || exists k | 0 <= k < n :: !CriterionMet(t.results, t.criteria[k]))
    {
      var key := t.criteria[n];
      if key !in resultByKey || !AcceptancePassed(resultByKey[key]) {
        blocked := true;
      }
    }
  }

  method CriteriaValid(t: Task) returns (ok: bool)
    ensures ok <==> CriteriaOk(t)
  {
    hide Trim;
    var seen: set<string> := {};
    for n := 0 to |t.criteria|
      invariant seen == set k | 0 <= k < n :: Trim(t.criteria[k])
      invariant forall k | 0 <= k < n :: Trim(t.criteria[k]) != ""
      invariant forall i, j | 0 <= i < j < n :: Trim(t.criteria[i]) != Trim(t.criteria[j])
    {
      var key := Trim(t.criteria[n]);
      if key == "" || key in seen {
        return false;
      }
      seen := seen + {key};
    }
    ok := t.criteria != [];
  }

  /** The map of keys to positions over the first n tasks. */
  predicate Indexes(byKey: map<string, nat>, ts: seq<Task>, n: nat)
    requires n <= |ts|
  {
    && (forall key | key in byKey :: byKey[key] < n && ts[byKey[key]].key == key)
    && (forall k | 0 <= k < n :: ts[k].key in byKey)
  }

  lemma EarlierIndex(ts: seq<Task>, byKey: map<string, nat>, i: nat, key: string)
    requires i <= |ts| && UniqueKeys(ts) && Indexes(byKey, ts, |ts|)
    ensures HasKey(ts, i, key) <==> key in byKey && byKey[key] < i
  {
  }

  method DependenciesValid(ts: seq<Task>, byKey: map<string, nat>, i: nat) returns (ok: bool)
    requires i < |ts| && UniqueKeys(ts) && Indexes(byKey, ts, |ts|)
    ensures ok <==> DepsOk(ts, i)
  {
    hide UniqueKeys, Indexes, HasKey;
    var deps := ts[i].deps;
    var seen: set<string> := {};
    for n := 0 to |deps|
      invariant seen == set k | 0 <= k < n :: deps[k]
      invariant forall a, b | 0 <= a < b < n :: deps[a] != deps[b]
      invariant forall k | 0 <= k < n :: HasKey(ts, i, deps[k])
    {
      var d := deps[n];
      if d in seen {
        return false;
      }
      seen := seen + {d};
      EarlierIndex(ts, byKey, i, d);
      if d !in byKey || byKey[d] >= i {
        return false;
      }
    }
    ok := true;
  }

  /** The keys of the first n tasks are distinct. */
  predicate DistinctUpTo(ts: seq<Task>, n: nat)
    requires n <= |ts|
  {
    forall i, j | 0 <= i < j < n :: ts[i].key != ts[j].key
  }

  lemma KeyIndexed(byKey: map<string, nat>, ts: seq<Task>, n: nat)
    requires n < |ts| && Indexes(byKey, ts, n) && DistinctUpTo(ts, n)
    ensures ts[n].key in byKey ==> !UniqueKeys(ts)
    ensures ts[n].key !in byKey ==> DistinctUpTo(ts, n + 1) && Indexes(byKey[ts[n].key := n], ts, n + 1)
  {
  }

  /** The first pass over a structured plan: distinct keys, and one final task, the last. */
  method IndexTasks(ts: seq<Task>) returns (ok: bool, byKey: map<string, nat>)
    requires ts != []
    ensures ok <==> UniqueKeys(ts) && FinalLast(ts)
    ensures ok ==> Indexes(byKey, ts, |ts|)
  {
    hide Indexes, UniqueKeys, DistinctUpTo;
    byKey := map[];
    var finals := 0;
    NothingIndexed(ts);
    for n := 0 to |ts|
      invariant DistinctUpTo(ts, n) && Indexes(byKey, ts, n)
      invariant forall i | 0 <= i < n :: ts[i].final ==> i == |ts| - 1
      invariant finals == if n == |ts| && ts[n - 1].final then 1 else 0
    {
      KeyIndexed(byKey, ts, n);
      if ts[n].key in byKey {
        ok := false;
        return;
      }
      byKey := byKey[ts[n].key := n];
      if ts[n].final {
        finals := finals + 1;
        if n != |ts| - 1 {
          ok := false;
          return;
        }
      }
    }
    AllDistinct(ts);
    ok := finals == 1;
  }

  lemma NothingIndexed(ts: seq<Task>)
    ensures Indexes(map[], ts, 0) && DistinctUpTo(ts, 0)
  {
  }

  lemma AllDistinct(ts: seq<Task>)
    ensures DistinctUpTo(ts, |ts|) <==> UniqueKeys(ts)
  {
  }

  /** validatePlanExecutionState: whether the persisted plan has no blocker. */
  method ValidateExecutionState(p: Plan) returns (ok: bool)
    ensures ok <==> GateOk(p)
  {
    hide CriteriaOk, DepsOk, UniqueKeys, FinalLast, Indexes;
    if !p.executable || p.problems > 0 || p.tasks == [] {
      return false;
    }
    if p.compatibility {
      return true;
    }
    var ts := p.tasks;
    var indexed, byKey := IndexTasks(ts);
    if !indexed {
      return false;
    }
    for n := 0 to |ts|
      invariant forall i | 0 <= i < n :: CriteriaOk(ts[i]) && DepsOk(ts, i)
    {
      var criteria := CriteriaValid(ts[n]);
      if !criteria {
        return false;
      }
      var deps := DependenciesValid(ts, byKey, n);
      if !deps {
        return false;
      }
    }
    ok := true;
  }

  method HasOtherActive(ts: seq<Task>, allowed: Option<nat>) returns (found: bool)
    ensures found <==> OtherActive(ts, allowed)
  {
    found := false;
    for n := 0 to |ts|
      invariant found <==> exists i | 0 <= i < n :: ActiveStatus(ts[i].status) && allowed != Some(i)
    {
      if (ts[n].status == Queued || ts[n].status == Running) && allowed != Some(n) {
        found := true;
      }
    }
  }

  /** Whether some dependency of a task of a gated, structured plan is not met. */
  method DependencyBlocks(ts: seq<Task>, i: nat) returns (blocked: bool)
    requires GraphOk(ts) && i < |ts|
    ensures blocked <==> exists d | d in ts[i].deps :: !DependencyMet(ts, d)
  {
    var byKey: map<string, Task> := map[];
    for n := 0 to |ts|
      invariant forall key :: key in byKey <==> HasKey(ts, n, key)
      invariant forall k | 0 <= k < n :: ts[k].key in byKey && byKey[ts[k].key] == ts[k]
    {
      assert forall key :: HasKey(ts, n + 1, key) <==> HasKey(ts, n, key) || key == ts[n].key;
      byKey := byKey[ts[n].key := ts[n]];
    }
    blocked := false;
    var deps := ts[i].deps;
    for n := 0 to |deps|
      invariant blocked <==> exists k | 0 <= k < n :: !DependencyMet(ts, deps[k])
    {
      var d := deps[n];
      if d !in byKey || byKey[d].status != Succeeded {
        assert !DependencyMet(ts, d);
        blocked := true;
      } else {
        var rejected := AcceptanceBlocks(byKey[d]);
        assert DependencyMet(ts, d) <==> !rejected;
        if rejected {
          blocked := true;
        }
      }
    }
  }

  /** nextPlanTask: the one gate for plan start, continuation, manual retry and worker start. */
  method NextPlanTask(p: Plan, automatic: bool, allowed: Option<nat>) returns (s: Selection)
    ensures s == NextTask(p, automatic, allowed)
  {
    var valid := ValidateExecutionState(p);
    if !valid {
      return Refusal;
    }
    var active := HasOtherActive(p.tasks, allowed);
    if active {
      return Refusal;
    }
    for n := 0 to |p.tasks|
      invariant forall i | 0 <= i < n :: p.tasks[i].status == Succeeded && Accepted(p.tasks[i])
    {
      var t := p.tasks[n];
      if t.status == Succeeded {
        var blocked := AcceptanceBlocks(t);
        if blocked {
          FrontierBeyond(p.tasks, n);
          return Refusal;
        }
      } else {
        FrontierAt(p.tasks, n);
        if !p.compatibility {
          var unmet := DependencyBlocks(p.tasks, n);
          if unmet {
            return Refusal;
          }
        }
        if automatic && t.status != Pending {
          return Refusal;
        }
        return Chosen(n);
      }
    }
    FrontierAt(p.tasks, |p.tasks|);
    s := AllDone;
  }

  /** The result rows a finished task stores. */
  method BuildAcceptanceResult(criteria: seq<string>, status: Acceptance) returns (items: seq<CriterionResult>)
    ensures items == BuildResults(criteria, status)
  {
    items := [];
    for n := 0 to |criteria|
      invariant |items| == n
      invariant forall i | 0 <= i < n :: items[i] == CriterionResult(criteria[i], status)
    {
      items := items + [CriterionResult(criteria[n], status)];
    }
  }
}
