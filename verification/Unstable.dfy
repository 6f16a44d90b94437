/** The specifications for which preparing once is not enough. */
module Unstable {
  import opened Text
  import opened Words
  import opened Paths
  import opened Graph
  import opened PlanSpec

  const SNEAKY := ["./ ../x"]
  const CLIMBING := ["../x"]

  /** An entry that is accepted twice, and what the first preparation makes of it. */
  const BURIED := ["./ ./ ./ ../x"]
  const UNCOVERED := [" ./ ../x"]

  lemma TrimSpace(s: string)
    requires s != "" && IsSpace(s[0]) && Trimmed(s[1..])
    ensures Trim(s) == s[1..]
  {
    TrimIdentity(s[1..]);
  }

  lemma JoinAppend(es: seq<string>, e: string)
    requires es != []
    ensures Join(es + [e]) == Join(es) + ("/" + e)
  {
    assert (es + [e])[..|es|] == es;
    assert Join(es) + "/" + e == Join(es) + ("/" + e);
  }

  lemma DotFirst(e: string)
    ensures Join([".", e]) == "./" + e && Join([e]) == e
  {
    assert [".", e][..1] == ["."] && "." + "/" == "./";
  }

  lemma {:induction false} JoinDot(es: seq<string>)
    requires es != []
    ensures Join(["."] + es) == "./" + Join(es)
  {
    hide Join;
    var n := |es| - 1;
    if n == 0 {
      DotFirst(es[0]);
      assert es == [es[0]] && ["."] + es == [".", es[0]];
    } else {
      JoinDot(es[..n]);
      JoinAppend(es[..n], es[n]);
      JoinAppend(["."] + es[..n], es[n]);
      assert es == es[..n] + [es[n]] && ["."] + es == (["."] + es[..n]) + [es[n]];
      assert ("./" + Join(es[..n])) + ("/" + es[n]) == "./" + (Join(es[..n]) + ("/" + es[n]));
    }
  }

  lemma {:induction false} FoldDot(es: seq<string>)
    ensures CleanFold(["."] + es, false) == CleanFold(es, false)
  {
    if es == [] {
      assert ["."] + es == ["."] && ["."][..0] == [];
    } else {
      FoldDot(es[..|es| - 1]);
      assert (["."] + es)[..|es|] == ["."] + es[..|es| - 1];
    }
  }

  /** Cleaning takes a leading dot from a path of clean elements and leaves the path alone. */
  lemma CleanElements(es: seq<string>)
    requires CleanForm(es, false) && es != []
    ensures Clean(Join(es)) == Join(es) && Clean("./" + Join(es)) == Join(es)
  {
    JoinStarts(es);
    SplitJoin(es);
    SplitJoin(["."] + es);
    JoinDot(es);
    FoldDot(es);
    CleanFoldIdentity(es, false);
    hide Join, Split, CleanFold, CleanForm;
  }

  lemma TwoElements(x: string, y: string)
    ensures Join([x, y]) == x + "/" + y
  {
    assert [x, y][..1] == [x];
  }

  lemma TrimBoth(v: string)
    requires Trimmed(v) && v != ""
    ensures Trim(v) == v && Trim(" " + v) == v
  {
    hide Trim, Trimmed;
    TrimIdentity(v);
    assert (" " + v)[1..] == v;
    TrimSpace(" " + v);
  }

  /** Where a leading dot hides a space, preparing the path again takes one layer off. */
  lemma LayerOff(es: seq<string>, v: string)
    requires CleanForm(es, false) && es != [] && v == "./" + Join(es) && '\\' !in v
    requires Trim(v) == v && Trim(" " + v) == v && TrimDotSlash(Join(es)) == Join(es)
    ensures PathValue(v) == Join(es) && PathValue(" " + v) == Join(es)
  {
    hide Clean, Trim, Join, CleanForm, TrimDotSlash;
    CleanElements(es);
    assert Slashes(v) == v;
  }

  /** A scope of one entry. */
  lemma SingleScope(v: string)
    requires Trim(v) != ""
    ensures ValidPaths([v]) == if Outside(PathValue(v)) then [] else [PathValue(v)]
    ensures InvalidPaths([v]) == if Outside(PathValue(v)) then [v] else []
    ensures UniquePaths([v]) == [PathValue(v)] && UniquePaths([]) == []
  {
    hide Trim, PathValue, Outside;
    assert [v][..0] == [];
  }

  lemma SortedSingle(v: string)
    ensures Sorted([v]) == [v] && Sorted([]) == []
  {
  }

  lemma SneakyValues()
    ensures Trim("./ ../x") == "./ ../x" && Trim(" ./ ../x") == "./ ../x"
    ensures PathValue("./ ../x") == " ../x" && PathValue(" ./ ../x") == " ../x"
  {
    hide Join, Trim, PathValue;
    TwoElements(" ..", "x");
    TrimBoth("./ ../x");
    assert " .." + "/" + "x" == " ../x" && "./" + " ../x" == "./ ../x" && " " + "./ ../x" == " ./ ../x";
    assert TrimDotSlash(" ../x") == " ../x" by { NotDotSlash(" ../x"); }
    LayerOff([" ..", "x"], "./ ../x");
  }

  lemma ClimbingClean()
    ensures Clean("../x") == "../x"
  {
    hide Join, Clean;
    TwoElements("..", "x");
    assert ".." + "/" + "x" == "../x";
    CleanElements(["..", "x"]);
  }

  lemma ClimbingValues()
    ensures Trim(" ../x") == "../x" && Trim("../x") == "../x" && PathValue(" ../x") == "../x" && PathValue("../x") == "../x"
  {
    hide Trim, Clean;
    ClimbingClean();
    TrimBoth("../x");
    assert " " + "../x" == " ../x" && Slashes("../x") == "../x";
    NotDotSlash("../x");
  }

  lemma BuriedElements()
    ensures Join([" .", " ..", "x"]) == " ./ ../x" && Join([" .", " .", " ..", "x"]) == " ./ ./ ../x"
  {
    var es, fs := [" .", " ..", "x"], [" .", " .", " ..", "x"];
    assert es[..2] == [" .", " .."] && fs[..3] == [" .", " .", " .."] && fs[..3][..2] == [" .", " ."];
    TwoElements(" .", " ..");
    TwoElements(" .", " .");
    assert Join(fs[..3]) == Join(fs[..2]) + "/" + " ..";
  }

  lemma OuterValue()
    ensures Trim("./ ./ ./ ../x") == "./ ./ ./ ../x" && PathValue("./ ./ ./ ../x") == " ./ ./ ../x"
  {
    hide Join, Trim, PathValue;
    BuriedElements();
    TrimBoth("./ ./ ./ ../x");
    NotDotSlash(" ./ ./ ../x");
    assert "./" + " ./ ./ ../x" == "./ ./ ./ ../x";
    LayerOff([" .", " .", " ..", "x"], "./ ./ ./ ../x");
  }

  lemma InnerValue()
    ensures Trim(" ./ ./ ../x") == "./ ./ ../x" && PathValue(" ./ ./ ../x") == " ./ ../x"
  {
    hide Join, Trim, PathValue;
    BuriedElements();
    TrimBoth("./ ./ ../x");
    NotDotSlash(" ./ ../x");
    assert "./" + " ./ ../x" == "./ ./ ../x" && " " + "./ ./ ../x" == " ./ ./ ../x";
    LayerOff([" .", " ..", "x"], "./ ./ ../x");
  }

  /** A scope entry that validation lets through and turns into one it rejects. */
  lemma SneakyScope()
    ensures Scope(SNEAKY) == CLIMBING && InvalidPaths(SNEAKY) == []
    ensures InvalidPaths(CLIMBING) == CLIMBING && Scope(CLIMBING) == []
  {
    hide PathValue, Trim, ValidPaths, UniquePaths, InvalidPaths, Sorted;
    SneakyValues();
    ClimbingValues();
    assert !Outside(" ../x") && Outside("../x");
    SingleScope("./ ../x");
    SingleScope(" ../x");
    SingleScope("../x");
    SortedSingle("../x");
  }

  /** And one that it lets through twice. */
  lemma BuriedScope()
    ensures Scope(BURIED) == UNCOVERED && InvalidPaths(BURIED) == []
    ensures Scope(UNCOVERED) == CLIMBING && InvalidPaths(UNCOVERED) == []
  {
    hide PathValue, Trim, ValidPaths, UniquePaths, InvalidPaths, Sorted;
    OuterValue();
    InnerValue();
    SneakyValues();
    ClimbingValues();
    assert !Outside(" ./ ./ ../x") && !Outside(" ../x");
    SingleScope("./ ./ ./ ../x");
    SingleScope(" ./ ./ ../x");
    SingleScope(" ./ ../x");
    SingleScope(" ../x");
    SortedSingle(" ./ ../x");
    SortedSingle("../x");
  }

  /** The entry ".." is accepted, although it names the directory above the workspace. */
  lemma ParentScope()
    ensures Scope([".."]) == [".."] && InvalidPaths([".."]) == [] && Climbs("..")
  {
    hide PathValue, Trim, ValidPaths, UniquePaths, InvalidPaths, Sorted;
    ParentValue();
    assert !Outside("..");
    SingleScope("..");
    SortedSingle("..");
    AcceptedClimbs("..");
  }

  lemma ParentValue()
    ensures Trim("..") == ".." && PathValue("..") == ".." && CleanPath("..")
  {
    hide Trim, Clean;
    TrimIdentity("..");
    assert Join([".."]) == "..";
    CleanElements([".."]);
    assert Slashes("..") == "..";
  }

  /** A specification with the scope of task i replaced. */
  function Rescope(s: Spec, i: nat, scope: seq<string>): Spec
    requires i < |s.tasks|
  {
    s.(tasks := s.tasks[i := s.tasks[i].(scope := scope)])
  }

  /** Replacing scopes among the tasks before does not change how a task is prepared. */
  lemma RescopeNext(a: Alphabet, out: seq<TaskSpec>, i: nat, scope: seq<string>, t: TaskSpec, compat: bool)
    requires i < |out|
    ensures PreparedNext(a, out[i := out[i].(scope := scope)], t, compat) == PreparedNext(a, out, t, compat)
  {
    hide PreparedTask, Scope;
    assert PreviousKey(out[i := out[i].(scope := scope)]) == PreviousKey(out);
  }

  lemma RescopeThis(a: Alphabet, out: seq<TaskSpec>, scope: seq<string>, t: TaskSpec, compat: bool)
    ensures PreparedNext(a, out, t.(scope := scope), compat) == PreparedNext(a, out, t, compat).(scope := Scope(scope))
    ensures TaskCompat(t.(scope := scope)) == TaskCompat(t)
  {
  }

  lemma {:induction false} RescopePrepared(a: Alphabet, ts: seq<TaskSpec>, i: nat, scope: seq<string>, n: nat, compat: bool)
    requires i < |ts| && n <= |ts|
    ensures var us := ts[i := ts[i].(scope := scope)];
      var (p, q) := (PreparedTasks(a, ts, n, compat), PreparedTasks(a, us, n, compat));
      q == (if i < n then p.0[i := p.0[i].(scope := Scope(scope))] else p.0, p.1)
  {
    hide Scope, PreparedNext, TaskCompat;
    if n == 0 {
    } else {
      RescopePrepared(a, ts, i, scope, n - 1, compat);
      var (out, mode) := PreparedTasks(a, ts, n - 1, compat);
      var t := PreparedNext(a, out, ts[n - 1], mode);
      if n - 1 == i {
        RescopeThis(a, out, scope, ts[i], mode);
        assert (out + [t])[i := t.(scope := Scope(scope))] == out + [t.(scope := Scope(scope))];
      } else if i < n - 1 {
        RescopeNext(a, out, i, Scope(scope), ts[n - 1], mode);
        var moved := out[i].(scope := Scope(scope));
        assert (out + [t])[i := moved] == out[i := moved] + [t];
      }
    }
  }

  lemma {:induction false} RescopeCriteria(ts: seq<TaskSpec>, i: nat, scope: seq<string>, n: nat)
    requires i < |ts| && n <= |ts|
    ensures CriteriaUpTo(ts[i := ts[i].(scope := scope)], n) == CriteriaUpTo(ts, n)
  {
    if n == 0 {
    } else {
      RescopeCriteria(ts, i, scope, n - 1);
    }
  }

  /** Apart from its scopes, replacing a scope leaves what validation reports alone. */
  lemma RescopeCodes(s: Spec, p: Spec, q: Spec, i: nat, scope: seq<string>, c: Code)
    requires i < |p.tasks| && c != ScopeInvalid && c != TaskScopeRequired
    ensures Violates(q, Rescope(p, i, scope), c) <==> Violates(s, p, c)
  {
    hide Scope, InvalidPaths, KeyIndex, Ranked, RepeatedKey, Incomplete, CriteriaUpTo;
    var r := Rescope(p, i, scope);
    assert NodesOf(r.tasks) == NodesOf(p.tasks);
    RescopeCriteria(p.tasks, i, scope, |p.tasks|);
    if c == TaskTitleRequired {
      assert forall k | 0 <= k < |p.tasks| :: r.tasks[k].title == p.tasks[k].title;
    } else if c == AcceptanceRequired {
      assert forall k | 0 <= k < |p.tasks| :: r.tasks[k].criteria == p.tasks[k].criteria;
    }
  }

  lemma RescopedSpec(a: Alphabet, s: Spec, i: nat, scope: seq<string>)
    requires i < |s.tasks|
    ensures Prepared(a, Rescope(s, i, scope)) == Rescope(Prepared(a, s), i, Scope(scope))
  {
    hide Scope, PreparedTasks, CriteriaOf, NormalizeList, Trim;
    RescopePrepared(a, s.tasks, i, scope, |s.tasks|, StartMode(s));
  }

  lemma SameLength(a: Alphabet, s: Spec)
    ensures |Prepared(a, s).tasks| == |s.tasks|
  {
  }

  /** Replacing a scope by one that has no invalid entry and does not come out empty keeps a plan
      accepted. */
  lemma RescopeAccepted(a: Alphabet, s: Spec, i: nat, scope: seq<string>)
    requires Accepted(a, s) && i < |s.tasks| && InvalidPaths(scope) == [] && Scope(scope) != []
    ensures Accepted(a, Rescope(s, i, scope)) && |Prepared(a, s).tasks| == |s.tasks|
    ensures Prepared(a, Rescope(s, i, scope)) == Rescope(Prepared(a, s), i, Scope(scope))
  {
    hide Scope, InvalidPaths, Prepared, PreparedTasks, KeyIndex;
    var t := Rescope(s, i, scope);
    RescopedSpec(a, s, i, scope);
    var p, q := Prepared(a, s), Prepared(a, t);
    assert |p.tasks| == |s.tasks| by { SameLength(a, s); }
    forall c: Code ensures !Violates(t, q, c) {
      assert !Violates(s, p, c);
      if c == ScopeInvalid {
        assert forall k | 0 <= k < |s.tasks| && k != i :: t.tasks[k] == s.tasks[k];
      } else if c == TaskScopeRequired {
        assert forall k | 0 <= k < |p.tasks| && k != i :: q.tasks[k] == p.tasks[k];
      } else {
        RescopeCodes(s, p, t, i, Scope(scope), c);
      }
    }
  }

  /** Validation is not a fixed point: give any task of any accepted plan this one scope entry, and
      the plan is accepted, but what it is prepared into is not. */
  lemma AcceptedThenRejected(a: Alphabet, s: Spec, i: nat)
    requires Accepted(a, s) && i < |s.tasks|
    ensures var t := Rescope(s, i, SNEAKY);
      Accepted(a, t) && !Accepted(a, Prepared(a, t)) && Prepared(a, t).tasks[i].scope == CLIMBING
  {
    hide Scope, InvalidPaths, Prepared, PreparedTasks, KeyIndex;
    SneakyScope();
    RescopeAccepted(a, s, i, SNEAKY);
    var q := Prepared(a, Rescope(s, i, SNEAKY));
    assert InvalidPaths(q.tasks[i].scope) != [];
    assert Violates(q, Prepared(a, q), ScopeInvalid);
  }
}
