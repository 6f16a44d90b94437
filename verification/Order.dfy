/** The deterministic execution order of a plan's tasks. */
module Order {
  import opened Lifecycle
  import opened Words
  import opened Graph

  /** What validation guarantees about the graph: distinct non-empty keys, and dependencies that
      are distinct, present, not on the task itself and not circular. */
  ghost predicate Orderable(g: seq<Node>, ix: map<string, nat>) {
    && Indexed(g, ix) && Ranked(g, ix)
    && (forall i | 0 <= i < |g| :: g[i].key != "" && Distinct(g[i].deps))
    && (forall i, j | 0 <= i < j < |g| :: g[i].key != g[j].key)
    && (forall i, d | 0 <= i < |g| && d in g[i].deps :: d in ix && d != g[i].key)
  }

  /** Task i is not placed yet and all its dependencies are. */
  predicate Ready(g: seq<Node>, placed: seq<string>, i: nat) {
    i < |g| && g[i].key !in placed && forall d | d in g[i].deps :: d in placed
  }

  predicate FirstReady(g: seq<Node>, placed: seq<string>, i: nat) {
    Ready(g, placed, i) && forall j | 0 <= j < i :: !Ready(g, placed, j)
  }

  predicate PlacedFirst(g: seq<Node>, order: seq<string>, k: nat)
    requires k < |order|
  {
    exists i | 0 <= i < |g| :: order[k] == g[i].key && FirstReady(g, order[..k], i)
  }

  /** Every place is taken by the first ready task. */
  predicate Greedy(g: seq<Node>, order: seq<string>) {
    forall k | 0 <= k < |order| :: PlacedFirst(g, order, k)
  }

  /** An execution order: every task once, after all its dependencies. */
  predicate Topological(g: seq<Node>, order: seq<string>) {
    && |order| == |g| && Distinct(order)
    && (forall i | 0 <= i < |g| :: g[i].key in order)
    && (forall k, i | 0 <= k < |order| && 0 <= i < |g| && order[k] == g[i].key :: Ready(g, order[..k], i))
  }

  // ---- counting what a task waits for ----------------------------------------------

  function Missing(deps: seq<string>, placed: seq<string>): nat {
    if deps == [] then 0
    else Missing(deps[..|deps| - 1], placed) + if deps[|deps| - 1] in placed then 0 else 1
  }

  lemma {:induction false} MissingNone(deps: seq<string>, placed: seq<string>)
    ensures Missing(deps, placed) == 0 <==> forall d | d in deps :: d in placed
  {
    if deps == [] {
    } else {
      MissingNone(deps[..|deps| - 1], placed);
      assert deps == deps[..|deps| - 1] + [deps[|deps| - 1]];
    }
  }

  lemma {:induction false} MissingAll(deps: seq<string>)
    ensures Missing(deps, []) == |deps|
  {
    if deps == [] {
    } else {
      MissingAll(deps[..|deps| - 1]);
    }
  }

  lemma {:induction false} MissingAfter(deps: seq<string>, placed: seq<string>, x: string)
    requires Distinct(deps) && x !in placed
    ensures Missing(deps, placed + [x]) == Missing(deps, placed) - if x in deps then 1 else 0
  {
    if deps == [] {
    } else {
      var n := |deps| - 1;
      assert deps == deps[..n] + [deps[n]];
      MissingAfter(deps[..n], placed, x);
      if deps[n] == x {
        assert x !in deps[..n];
      }
    }
  }

  // ---- what the greedy order is ------------------------------------------------------

  lemma GreedyFacts(g: seq<Node>, ix: map<string, nat>, order: seq<string>)
    requires Orderable(g, ix) && Greedy(g, order)
    ensures Distinct(order) && forall x | x in order :: x in ix
    ensures forall k, i | 0 <= k < |order| && 0 <= i < |g| && order[k] == g[i].key :: Ready(g, order[..k], i)
  {
    forall a, b | 0 <= a < b < |order| ensures order[a] != order[b] {
      assert PlacedFirst(g, order, b);
      assert order[a] in order[..b];
    }
    forall x | x in order ensures x in ix {
      var k :| 0 <= k < |order| && order[k] == x;
      assert PlacedFirst(g, order, k);
    }
    forall k, i | 0 <= k < |order| && 0 <= i < |g| && order[k] == g[i].key ensures Ready(g, order[..k], i) {
      assert PlacedFirst(g, order, k);
      var j :| 0 <= j < |g| && order[k] == g[j].key && FirstReady(g, order[..k], j);
      assert i == j;
    }
  }

  /** While a task is missing, some task is ready: the search for one never fails. */
  lemma SomeReady(g: seq<Node>, ix: map<string, nat>, order: seq<string>) returns (i: nat)
    requires Orderable(g, ix) && Greedy(g, order) && |order| < |g|
    ensures Ready(g, order, i)
  {
    GreedyFacts(g, ix, order);
    var ranking :| Ranking(g, ix, ranking) && forall k | k in ix :: k in ranking;
    var absent := SomeAbsent(g, order);
    assert g[absent].key in ix;
    var p :| 0 <= p < |ranking| && ranking[p] == g[absent].key;
    var q := FirstAbsent(ranking, order, p);
    i := ix[ranking[q]];
    forall d | d in g[i].deps ensures d in order {
      assert Edge(g, ix, ranking[q], d);
      assert d in ranking[..q];
    }
  }

  lemma {:induction false} FirstAbsent(ranking: seq<string>, order: seq<string>, p: nat) returns (q: nat)
    requires p < |ranking| && ranking[p] !in order
    ensures q <= p && ranking[q] !in order && forall x | x in ranking[..q] :: x in order
  {
    q := 0;
    while ranking[q] in order
      invariant q <= p && forall x | x in ranking[..q] :: x in order
      decreases p - q
    {
      assert ranking[..q + 1] == ranking[..q] + [ranking[q]];
      q := q + 1;
    }
  }

  lemma SomeAbsent(g: seq<Node>, order: seq<string>) returns (i: nat)
    requires |order| < |g| && forall a, b | 0 <= a < b < |g| :: g[a].key != g[b].key
    ensures i < |g| && g[i].key !in order
  {
    if forall k | 0 <= k < |g| :: g[k].key in order {
      PlacedCount(g, order, |g|);
      assert false;
    }
    i :| 0 <= i < |g| && g[i].key !in order;
  }

  /** n tasks with distinct keys fill at least n places. */
  lemma {:induction false} PlacedCount(g: seq<Node>, order: seq<string>, n: nat)
    requires n <= |g| && forall a, b | 0 <= a < b < |g| :: g[a].key != g[b].key
    requires forall k | 0 <= k < n :: g[k].key in order
    ensures |order| >= n
  {
    var keys := set k | 0 <= k < n :: g[k].key;
    KeyCount(g, n);
    assert keys <= set x | x in order;
    OrderCount(order);
    SubsetSize(keys, set x | x in order);
  }

  lemma {:induction false} KeyCount(g: seq<Node>, n: nat)
    requires n <= |g| && forall a, b | 0 <= a < b < |g| :: g[a].key != g[b].key
    ensures |set k | 0 <= k < n :: g[k].key| == n
  {
    if n == 0 {
    } else {
      KeyCount(g, n - 1);
      var before := set k | 0 <= k < n - 1 :: g[k].key;
      assert (set k | 0 <= k < n :: g[k].key) == before + {g[n - 1].key};
    }
  }

  lemma {:induction false} OrderCount(order: seq<string>)
    ensures |set x | x in order| <= |order|
  {
    if order == [] {
    } else {
      var n := |order| - 1;
      OrderCount(order[..n]);
      assert (set x | x in order) == (set x | x in order[..n]) + {order[n]};
    }
  }

  lemma {:induction false} SubsetSize(a: set<string>, b: set<string>)
    requires a <= b
    ensures |a| <= |b|
  {
    if a == {} {
    } else {
      var x :| x in a;
      SubsetSize(a - {x}, b - {x});
    }
  }

  /** A complete greedy order runs every task once and after its dependencies. */
  lemma GreedyIsTopological(g: seq<Node>, ix: map<string, nat>, order: seq<string>)
    requires Orderable(g, ix) && Greedy(g, order) && |order| == |g|
    ensures Topological(g, order)
  {
    GreedyFacts(g, ix, order);
    forall i | 0 <= i < |g| ensures g[i].key in order {
      if g[i].key !in order {
        KeyCount(g, |g|);
        OrderDistinct(order);
        var all := set k | 0 <= k < |g| :: g[k].key;
        var some := set x | x in order;
        assert some <= all - {g[i].key};
        SubsetSize(some, all - {g[i].key});
        assert false;
      }
    }
  }

  lemma {:induction false} OrderDistinct(order: seq<string>)
    requires Distinct(order)
    ensures |set x | x in order| == |order|
  {
    if order == [] {
    } else {
      var n := |order| - 1;
      assert order[n] !in order[..n];
      OrderDistinct(order[..n]);
      assert (set x | x in order) == (set x | x in order[..n]) + {order[n]};
    }
  }

  lemma SameToTheEnd(a: seq<string>, b: seq<string>, k: nat)
    requires |a| == |b| == k + 1 && a[..k] == b[..k] && a[k] == b[k]
    ensures a == b
  {
  }

  /** Of all execution orders it is the first: where another one departs from it, the other
      runs a task that stands later in the plan. */
  lemma GreedyIsLeast(g: seq<Node>, ix: map<string, nat>, order: seq<string>, other: seq<string>) returns (k: nat)
    requires Orderable(g, ix) && Greedy(g, order) && |order| == |g| && Topological(g, other) && other != order
    ensures k < |g| && order[..k] == other[..k]
    ensures exists i, j | 0 <= i < j < |g| :: order[k] == g[i].key && other[k] == g[j].key
  {
    k := 0;
    while order[k] == other[k]
      invariant k < |g| && order[..k] == other[..k]
      decreases |g| - k
    {
      if k == |g| - 1 {
        SameToTheEnd(order, other, k);
      }
      k := k + 1;
    }
    assert PlacedFirst(g, order, k);
    var i :| 0 <= i < |g| && order[k] == g[i].key && FirstReady(g, order[..k], i);
    var j := IndexIn(g, other, k);
    assert Ready(g, other[..k], j);
    assert i < j;
  }

  /** An execution order holds nothing but the tasks of the plan. */
  lemma IndexIn(g: seq<Node>, other: seq<string>, k: nat) returns (j: nat)
    requires Topological(g, other) && k < |g|
    requires forall a, b | 0 <= a < b < |g| :: g[a].key != g[b].key
    ensures j < |g| && g[j].key == other[k]
  {
    if forall i | 0 <= i < |g| :: g[i].key != other[k] {
      KeyCount(g, |g|);
      OrderDistinct(other);
      var all := set i | 0 <= i < |g| :: g[i].key;
      assert all <= (set x | x in other) - {other[k]};
      SubsetSize(all, (set x | x in other) - {other[k]});
      assert false;
    }
    j :| 0 <= j < |g| && g[j].key == other[k];
  }

  // ---- the selection loop --------------------------------------------------------------

  /** The keys of the first n tasks that depend on d, in plan order. */
  function DependentsOf(g: seq<Node>, n: nat, d: string): seq<string>
    requires n <= |g|
  {
    if n == 0 then []
    else DependentsOf(g, n - 1, d) + if d in g[n - 1].deps then [g[n - 1].key] else []
  }

  lemma {:induction false} DependentsAre(g: seq<Node>, n: nat, d: string)
    requires n <= |g| && forall a, b | 0 <= a < b < |g| :: g[a].key != g[b].key
    ensures Distinct(DependentsOf(g, n, d))
    ensures forall x | x in DependentsOf(g, n, d) :: exists i | 0 <= i < n :: g[i].key == x && d in g[i].deps
    ensures forall i | 0 <= i < n :: d in g[i].deps ==> g[i].key in DependentsOf(g, n, d)
  {
    if n == 0 {
    } else {
      DependentsAre(g, n - 1, d);
      assert g[n - 1].key !in DependentsOf(g, n - 1, d);
    }
  }

  function Listed(m: map<string, seq<string>>, k: string): seq<string> {
    if k in m then m[k] else []
  }

  method CollectDependents(g: seq<Node>) returns (indegree: map<string, int>, dependents: map<string, seq<string>>)
    requires forall i | 0 <= i < |g| :: Distinct(g[i].deps)
    requires forall i, j | 0 <= i < j < |g| :: g[i].key != g[j].key
    ensures forall i | 0 <= i < |g| :: g[i].key in indegree && indegree[g[i].key] == |g[i].deps|
    ensures forall d :: Listed(dependents, d) == DependentsOf(g, |g|, d)
  {
    indegree, dependents := map[], map[];
    for n := 0 to |g|
      invariant forall i | 0 <= i < n :: g[i].key in indegree && indegree[g[i].key] == |g[i].deps|
      invariant forall d :: Listed(dependents, d) == DependentsOf(g, n, d)
    {
      var key, deps := g[n].key, g[n].deps;
      indegree := indegree[key := |deps|];
      dependents := AddDependents(dependents, key, deps);
    }
  }

  method AddDependents(dependents: map<string, seq<string>>, key: string, deps: seq<string>)
    returns (added: map<string, seq<string>>)
    requires Distinct(deps)
    ensures forall d :: Listed(added, d) == Listed(dependents, d) + if d in deps then [key] else []
  {
    added := dependents;
    for m := 0 to |deps|
      invariant forall d | d in deps[..m] :: Listed(added, d) == Listed(dependents, d) + [key]
      invariant forall d | d !in deps[..m] :: Listed(added, d) == Listed(dependents, d)
    {
      assert deps[m] !in deps[..m] && deps[..m + 1] == deps[..m] + [deps[m]];
      added := added[deps[m] := Listed(added, deps[m]) + [key]];
    }
    assert deps[..|deps|] == deps;
    assert forall d :: Listed(dependents, d) + [] == Listed(dependents, d);
  }

  /** The counters: -1 for a placed task, otherwise the dependencies it still waits for. */
  predicate Counts(g: seq<Node>, indegree: map<string, int>, placed: seq<string>) {
    forall i | 0 <= i < |g| ::
      g[i].key in indegree && indegree[g[i].key] == if g[i].key in placed then -1 else Missing(g[i].deps, placed)
  }

  /** Placing a task: its counter is closed and its dependents wait for one task less. */
  method Place(g: seq<Node>, ix: map<string, nat>, indegree: map<string, int>, dependents: map<string, seq<string>>,
               order: seq<string>, r: nat) returns (counters: map<string, int>)
    requires Orderable(g, ix) && Greedy(g, order) && Counts(g, indegree, order) && Ready(g, order, r)
    requires forall d :: Listed(dependents, d) == DependentsOf(g, |g|, d)
    ensures Counts(g, counters, order + [g[r].key])
  {
    hide Ranked, Greedy, Orderable;
    var ready := g[r].key;
    var list := Listed(dependents, ready);
    assert Distinct(list) && forall i | 0 <= i < |g| :: g[i].key in list <==> ready in g[i].deps by {
      KeysDistinct(g, ix);
      DependentsAre(g, |g|, ready);
    }
    var base := indegree[ready := -1];
    counters := base;
    for n := 0 to |list|
      invariant forall i | 0 <= i < |g| :: g[i].key in base && g[i].key in counters
      invariant forall i | 0 <= i < |g| ::
        counters[g[i].key] == base[g[i].key] - if g[i].key in list[..n] then 1 else 0
    {
      assert list[n] !in list[..n] && list[..n + 1] == list[..n] + [list[n]];
      assert exists i | 0 <= i < |g| :: g[i].key == list[n] by {
        KeysDistinct(g, ix);
        DependentsAre(g, |g|, ready);
        assert list[n] in DependentsOf(g, |g|, ready);
      }
      counters := counters[list[n] := counters[list[n]] - 1];
    }
    assert list[..|list|] == list;
    forall i | 0 <= i < |g|
      ensures counters[g[i].key] == if g[i].key in order + [ready] then -1 else Missing(g[i].deps, order + [ready])
    {
      CounterAfter(g, ix, order, r, i);
    }
  }

  lemma KeysDistinct(g: seq<Node>, ix: map<string, nat>)
    requires Orderable(g, ix)
    ensures forall a, b | 0 <= a < b < |g| :: g[a].key != g[b].key
  {
  }

  lemma CounterAfter(g: seq<Node>, ix: map<string, nat>, order: seq<string>, r: nat, i: nat)
    requires Orderable(g, ix) && Greedy(g, order) && Ready(g, order, r) && i < |g|
    ensures g[i].key in order || i == r ==> g[r].key !in g[i].deps
    ensures Missing(g[i].deps, order + [g[r].key]) == Missing(g[i].deps, order) - if g[r].key in g[i].deps then 1 else 0
    ensures g[i].key in order + [g[r].key] <==> g[i].key in order || i == r
  {
    hide Ranked;
    MissingAfter(g[i].deps, order, g[r].key);
    if g[i].key in order {
      GreedyFacts(g, ix, order);
      var k :| 0 <= k < |order| && order[k] == g[i].key;
      assert Ready(g, order[..k], i);
    }
  }

  lemma DepsDistinct(g: seq<Node>, ix: map<string, nat>)
    requires Orderable(g, ix)
    ensures forall i | 0 <= i < |g| :: Distinct(g[i].deps)
  {
  }

  lemma StartCounts(g: seq<Node>, indegree: map<string, int>)
    requires forall i | 0 <= i < |g| :: g[i].key in indegree && indegree[g[i].key] == |g[i].deps|
    ensures Counts(g, indegree, [])
  {
    forall i | 0 <= i < |g| {
      MissingAll(g[i].deps);
    }
  }

  lemma GreedyGrows(g: seq<Node>, placed: seq<string>, r: nat)
    requires Greedy(g, placed) && FirstReady(g, placed, r)
    ensures Greedy(g, placed + [g[r].key])
  {
    var order := placed + [g[r].key];
    forall k | 0 <= k < |order| ensures PlacedFirst(g, order, k) {
      if k < |placed| {
        assert PlacedFirst(g, placed, k) && order[..k] == placed[..k];
      } else {
        assert order[..k] == placed;
      }
    }
  }

  lemma FirstIsReady(g: seq<Node>, placed: seq<string>, r: nat)
    requires FirstReady(g, placed, r)
    ensures Ready(g, placed, r)
  {
  }

  /** A counter is zero exactly for the ready tasks. */
  lemma CountsReady(g: seq<Node>, indegree: map<string, int>, placed: seq<string>, i: nat)
    requires Counts(g, indegree, placed) && i < |g|
    ensures g[i].key in indegree && (indegree[g[i].key] == 0 <==> Ready(g, placed, i))
  {
    MissingNone(g[i].deps, placed);
  }

  method SelectReady(g: seq<Node>, ix: map<string, nat>, indegree: map<string, int>, placed: seq<string>)
    returns (found: Option<nat>)
    requires Orderable(g, ix) && Greedy(g, placed) && Counts(g, indegree, placed) && |placed| < |g|
    ensures found.Some? && found.value < |g| && FirstReady(g, placed, found.value)
  {
    hide Orderable, Counts, Greedy;
    found := None;
    for i := 0 to |g|
      invariant found.None? ==> forall j | 0 <= j < i :: !Ready(g, placed, j)
      invariant found.Some? ==> found.value < |g| && FirstReady(g, placed, found.value)
    {
      CountsReady(g, indegree, placed, i);
      if indegree[g[i].key] == 0 && found.None? {
        found := Some(i);
      }
    }
    if found.None? {
      var r := SomeReady(g, ix, placed);
      assert false;
    }
  }

  /** The order in which a plan's tasks run. The error return is never taken. */
  method TopologicalOrder(g: seq<Node>, ix: map<string, nat>) returns (order: Option<seq<string>>)
    requires Orderable(g, ix)
    ensures order.Some? && |order.value| == |g| && Greedy(g, order.value)
  {
    hide Orderable, FirstReady, Counts, Missing;
    KeysDistinct(g, ix);
    DepsDistinct(g, ix);
    var indegree, dependents := CollectDependents(g);
    StartCounts(g, indegree);
    var placed: seq<string> := [];
    while |placed| < |g|
      invariant |placed| <= |g| && Greedy(g, placed) && Counts(g, indegree, placed)
      decreases |g| - |placed|
    {
      var found := SelectReady(g, ix, indegree, placed);
      if found.None? {
        return None;
      }
      var r := found.value;
      GreedyGrows(g, placed, r);
      indegree := Place(g, ix, indegree, dependents, placed, r) by { FirstIsReady(g, placed, r); }
      placed := placed + [g[r].key];
    }
    order := Some(placed);
  }
}
