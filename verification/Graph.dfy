/** The dependency graph of a plan: the cycle search and the deterministic order. */
module Graph {
  import opened Words

  datatype Node = Node(key: string, deps: seq<string>)

  /** The position of each non-empty key. */
  predicate Indexed(g: seq<Node>, ix: map<string, nat>) {
    && (forall k | k in ix :: k != "" && ix[k] < |g| && g[ix[k]].key == k)
    && (forall i | 0 <= i < |g| && g[i].key != "" :: g[i].key in ix)
  }

  /** A dependency edge, leaving out self-loops and dangling references. */
  predicate Edge(g: seq<Node>, ix: map<string, nat>, a: string, b: string) {
    a in ix && b in ix && a != b && ix[a] < |g| && b in g[ix[a]].deps
  }

  predicate IsWalk(g: seq<Node>, ix: map<string, nat>, w: seq<string>) {
    forall i | 0 <= i < |w| - 1 :: Edge(g, ix, w[i], w[i + 1])
  }

  predicate IsClosedWalk(g: seq<Node>, ix: map<string, nat>, w: seq<string>) {
    |w| >= 2 && w[0] == w[|w| - 1] && IsWalk(g, ix, w)
  }

  /** Every key stands after all its dependencies. */
  ghost predicate Ranking(g: seq<Node>, ix: map<string, nat>, order: seq<string>) {
    && Distinct(order)
    && (forall k | k in order :: k in ix)
    && forall i, b | 0 <= i < |order| && Edge(g, ix, order[i], b) :: b in order[..i]
  }

  ghost predicate Ranked(g: seq<Node>, ix: map<string, nat>) {
    exists order :: Ranking(g, ix, order) && forall k | k in ix :: k in order
  }

  // ---- a ranking excludes closed walks -----------------------------------------

  lemma {:induction false} WalkDescends(g: seq<Node>, ix: map<string, nat>, order: seq<string>, w: seq<string>, i: nat, p: nat)
      returns (q: nat)
    requires Ranking(g, ix, order) && IsWalk(g, ix, w) && i < |w| && p < |order| && order[p] == w[0]
    ensures q < |order| && order[q] == w[i] && q + i <= p
  {
    if i == 0 {
      q := p;
    } else {
      var r := WalkDescends(g, ix, order, w, i - 1, p);
      assert Edge(g, ix, w[i - 1], w[i - 1 + 1]);
      assert w[i] in order[..r];
      q :| 0 <= q < r && order[q] == w[i];
    }
  }

  lemma RankedMeansAcyclic(g: seq<Node>, ix: map<string, nat>, w: seq<string>)
    requires Ranked(g, ix)
    ensures !IsClosedWalk(g, ix, w)
  {
    if IsClosedWalk(g, ix, w) {
      var order :| Ranking(g, ix, order) && forall k | k in ix :: k in order;
      assert Edge(g, ix, w[0], w[0 + 1]);
      var p :| 0 <= p < |order| && order[p] == w[0];
      var q := WalkDescends(g, ix, order, w, |w| - 1, p);
      assert false;
    }
  }

  // ---- the depth-first search -------------------------------------------------------

  /** The path under exploration is a walk of distinct keys; the colours say which keys are on it
      and which are finished; and finished keys stand after their dependencies. */
  ghost predicate SearchOk(g: seq<Node>, ix: map<string, nat>, state: map<string, nat>, stack: seq<string>,
                           stackIndex: map<string, nat>, finished: seq<string>)
  {
    && Indexed(g, ix) && Ranking(g, ix, finished) && IsWalk(g, ix, stack)
    && PathOk(ix, stack, stackIndex) && ColoursOk(ix, state, stack, finished)
  }

  predicate PathOk(ix: map<string, nat>, stack: seq<string>, stackIndex: map<string, nat>) {
    && Distinct(stack) && (forall k | k in stack :: k in ix)
    && (forall i | 0 <= i < |stack| :: stack[i] in stackIndex && stackIndex[stack[i]] == i)
  }

  ghost predicate ColoursOk(ix: map<string, nat>, state: map<string, nat>, stack: seq<string>, finished: seq<string>) {
    && (forall k | k in state :: k in ix && (state[k] == 1 || state[k] == 2))
    && (forall k :: k in stack <==> k in state && state[k] == 1)
    && (forall k :: k in finished <==> k in state && state[k] == 2)
  }

  lemma WalkShrinks(g: seq<Node>, ix: map<string, nat>, w: seq<string>)
    requires w != [] && IsWalk(g, ix, w)
    ensures IsWalk(g, ix, w[..|w| - 1])
  {
  }

  lemma Closed(g: seq<Node>, ix: map<string, nat>, stack: seq<string>, start: nat, dependency: string)
    requires IsWalk(g, ix, stack) && start < |stack| && stack[start] == dependency
    requires Edge(g, ix, stack[|stack| - 1], dependency)
    ensures IsClosedWalk(g, ix, stack[start..] + [dependency])
  {
  }

  lemma PopRanks(g: seq<Node>, ix: map<string, nat>, finished: seq<string>, key: string)
    requires Ranking(g, ix, finished) && key in ix && key !in finished
    requires forall b | Edge(g, ix, key, b) :: b in finished
    ensures Ranking(g, ix, finished + [key])
  {
    var order := finished + [key];
    forall i, b | 0 <= i < |order| && Edge(g, ix, order[i], b) ensures b in order[..i] {
      if i < |finished| {
        assert b in finished[..i] && order[..i] == finished[..i];
      } else {
        assert order[..i] == finished;
      }
    }
  }

  lemma Entered(g: seq<Node>, ix: map<string, nat>, state: map<string, nat>, stack: seq<string>,
                stackIndex: map<string, nat>, finished: seq<string>, key: string)
    requires SearchOk(g, ix, state, stack, stackIndex, finished) && key in ix && key !in state
    requires stack != [] ==> Edge(g, ix, stack[|stack| - 1], key)
    ensures SearchOk(g, ix, state[key := 1], stack + [key], stackIndex[key := |stack|], finished)
  {
  }

  lemma Left(g: seq<Node>, ix: map<string, nat>, state: map<string, nat>, stack: seq<string>,
             stackIndex: map<string, nat>, finished: seq<string>, key: string)
    requires SearchOk(g, ix, state, stack, stackIndex, finished)
    requires stack != [] && stack[|stack| - 1] == key && forall b | Edge(g, ix, key, b) :: b in finished
    ensures SearchOk(g, ix, state[key := 2], stack[..|stack| - 1], stackIndex - {key}, finished + [key])
  {
    hide Ranking, Indexed, IsWalk;
    assert key in stack && key !in finished;
    PopRanks(g, ix, finished, key);
    WalkShrinks(g, ix, stack);
    var rest := stack[..|stack| - 1];
    assert stack == rest + [key] && key !in rest;
  }

  /** The closure state of the search: colours, the path under exploration and its index.
      `finished` is a history variable: the keys in the order the search left them. */
  class CycleSearch {
    const g: seq<Node>
    const ix: map<string, nat>
    var state: map<string, nat>
    var stack: seq<string>
    var stackIndex: map<string, nat>
    var cycle: seq<string>
    ghost var finished: seq<string>

    ghost predicate Valid()
      reads this
    {
      SearchOk(g, ix, state, stack, stackIndex, finished)
    }

    constructor (g: seq<Node>, ix: map<string, nat>)
      requires Indexed(g, ix)
      ensures Valid() && this.g == g && this.ix == ix && state == map[] && stack == [] && finished == []
    {
      this.g, this.ix := g, ix;
      state, stack, stackIndex, cycle, finished := map[], [], map[], [], [];
    }

    method Enter(key: string)
      requires Valid() && key in ix && key !in state
      requires stack != [] ==> Edge(g, ix, stack[|stack| - 1], key)
      modifies this
      ensures Valid() && stack == old(stack) + [key] && state == old(state)[key := 1] && finished == old(finished)
    {
      hide SearchOk;
      Entered(g, ix, state, stack, stackIndex, finished, key);
      state := state[key := 1];
      stackIndex := stackIndex[key := |stack|];
      stack := stack + [key];
    }

    method Leave(key: string)
      requires Valid() && stack != [] && stack[|stack| - 1] == key
      requires forall b | Edge(g, ix, key, b) :: b in finished
      modifies this
      ensures Valid() && stack == old(stack)[..|old(stack)| - 1] && state == old(state)[key := 2]
      ensures finished == old(finished) + [key]
    {
      hide SearchOk;
      Left(g, ix, state, stack, stackIndex, finished, key);
      stack := stack[..|stack| - 1];
      stackIndex := stackIndex - {key};
      state := state[key := 2];
      finished := finished + [key];
    }

    /** What a colour says about a key. */
    lemma Colours(key: string)
      requires Valid() && key in ix
      ensures ix[key] < |g|
      ensures key in state ==> state[key] == 1 || state[key] == 2
      ensures key in state && state[key] == 1 ==>
        key in stackIndex && stackIndex[key] < |stack| && stack[stackIndex[key]] == key
      ensures key in state && state[key] == 2 ==> key in finished
      ensures IsWalk(g, ix, stack)
    {
    }

    /** Explores `key`; either finds a closed walk or finishes the key and restores the path. */
    method Visit(key: string) returns (found: bool)
      requires Valid() && key in ix && key !in state
      requires stack != [] ==> Edge(g, ix, stack[|stack| - 1], key)
      modifies this
      ensures found ==> IsClosedWalk(g, ix, cycle)
      ensures !found ==> Valid() && stack == old(stack) && key in finished && old(finished) <= finished
      ensures old(state).Keys <= state.Keys
      decreases ix.Keys - state.Keys
    {
      hide Valid, IsClosedWalk, IsWalk;
      Colours(key);
      Enter(key);
      var deps := g[ix[key]].deps;
      for n := 0 to |deps|
        invariant Valid() && stack == old(stack) + [key] && old(finished) <= finished
        invariant old(state).Keys + {key} <= state.Keys
        invariant forall i | 0 <= i < n && Edge(g, ix, key, deps[i]) :: deps[i] in finished
      {
        var dependency := deps[n];
        if dependency == key || dependency !in ix {
          continue;
        }
        Colours(dependency);
        if dependency !in state {
          found := Visit(dependency);
          if found {
            return;
          }
        } else if state[dependency] == 1 {
          var start := stackIndex[dependency];
          cycle := stack[start..] + [dependency];
          Closed(g, ix, stack, start, dependency);
          return true;
        }
      }
      Leave(key);
      found := false;
    }
  }

  /** The cycle search is sound and complete: it returns nothing exactly when the graph has no
      closed walk, and otherwise a closed walk of real dependency edges. */
  method DependencyCycle(g: seq<Node>, ix: map<string, nat>) returns (cycle: seq<string>)
    requires Indexed(g, ix)
    ensures cycle == [] <==> Ranked(g, ix)
    ensures cycle == [] <==> forall w :: !IsClosedWalk(g, ix, w)
    ensures cycle != [] ==> IsClosedWalk(g, ix, cycle)
  {
    var search := new CycleSearch(g, ix);
    for n := 0 to |g|
      invariant search.Valid() && search.g == g && search.ix == ix && search.stack == []
      invariant fresh(search)
      invariant forall i | 0 <= i < n && g[i].key != "" :: g[i].key in search.finished
    {
      var key := g[n].key;
      if key != "" && key !in search.state {
        var found := search.Visit(key);
        if found {
          if Ranked(g, ix) {
            RankedMeansAcyclic(g, ix, search.cycle);
          }
          return search.cycle;
        }
      }
    }
    assert forall k | k in ix :: k in search.finished;
    assert Ranked(g, ix);
    forall w ensures !IsClosedWalk(g, ix, w) {
      RankedMeansAcyclic(g, ix, w);
    }
    cycle := [];
  }
}
