/** Scope paths: lexical cleaning, validity, de-duplication and order. */
module Paths {
  import opened Text
  import opened Words

  // ---- splitting and joining ---------------------------------------------------

  /** The finished elements and the element being read. */
  function SplitFold(s: string): (seq<string>, string) {
    if s == "" then ([], "")
    else
      var (done, current) := SplitFold(s[..|s| - 1]);
      var c := s[|s| - 1];
      if c == '/' then (done + [current], "") else (done, current + [c])
  }

  function Split(s: string): (es: seq<string>)
    ensures es != []
  {
    SplitFold(s).0 + [SplitFold(s).1]
  }

  function Join(es: seq<string>): string {
    if es == [] then ""
    else if |es| == 1 then es[0]
    else Join(es[..|es| - 1]) + "/" + es[|es| - 1]
  }

  predicate Plain(e: string) { '/' !in e }

  predicate AllPlain(es: seq<string>) { forall i | 0 <= i < |es| :: Plain(es[i]) }

  lemma {:induction false} SplitPlain(s: string)
    ensures AllPlain(Split(s))
    ensures forall i | 0 <= i < |Split(s)| :: forall c | c in Split(s)[i] :: c in s
  {
    if s == "" {
    } else {
      SplitPlain(s[..|s| - 1]);
      var before := Split(s[..|s| - 1]);
      forall i | 0 <= i < |Split(s)|
        ensures Plain(Split(s)[i]) && forall c | c in Split(s)[i] :: c in s
      {
        if i < |before| {
          assert Plain(before[i]) && forall c | c in before[i] :: c in s[..|s| - 1];
        }
      }
    }
  }

  lemma {:induction false} SplitReads(s: string, e: string)
    requires Plain(e)
    ensures SplitFold(s + e) == (SplitFold(s).0, SplitFold(s).1 + e)
  {
    if e == "" {
      assert s + e == s && SplitFold(s).1 + e == SplitFold(s).1;
    } else {
      var n := |e| - 1;
      SplitReads(s, e[..n]);
      assert (s + e)[..|s + e| - 1] == s + e[..n];
      assert (SplitFold(s).1 + e[..n]) + [e[n]] == SplitFold(s).1 + e;
      assert e[n] in e;
    }
  }

  lemma SplitAppends(s: string, e: string)
    requires Plain(e)
    ensures Split(s + "/" + e) == Split(s) + [e]
  {
    assert (s + "/")[..|s + "/"| - 1] == s;
    SplitReads(s + "/", e);
    assert "" + e == e;
  }

  lemma SplitOne(e: string)
    requires Plain(e)
    ensures Split(e) == [e]
  {
    SplitReads("", e);
    assert "" + e == e;
  }

  lemma {:induction false} SplitJoin(es: seq<string>)
    requires es != [] && AllPlain(es)
    ensures Split(Join(es)) == es
  {
    hide Split;
    var n := |es| - 1;
    if n == 0 {
      SplitOne(es[0]);
    } else {
      SplitJoin(es[..n]);
      SplitAppends(Join(es[..n]), es[n]);
      assert es == es[..n] + [es[n]];
    }
  }

  lemma SplitRooted(s: string)
    ensures Split("/" + s) == [""] + Split(s)
  {
    SplitRootedFold(s);
    assert ([""] + SplitFold(s).0) + [SplitFold(s).1] == [""] + Split(s);
  }

  lemma {:induction false} SplitRootedFold(s: string)
    ensures SplitFold("/" + s) == ([""] + SplitFold(s).0, SplitFold(s).1)
  {
    if s == "" {
      assert "/" + s == "/" && "/"[..0] == "" && SplitFold("/") == ([] + [""], "");
      assert SplitFold(s).0 == [] && [] + [""] == [""] + SplitFold(s).0;
    } else {
      SplitRootedFold(s[..|s| - 1]);
      assert ("/" + s)[..|s|] == "/" + s[..|s| - 1];
      var (done, current) := SplitFold(s[..|s| - 1]);
      assert ([""] + done) + [current] == [""] + (done + [current]);
    }
  }

  // ---- lexical cleaning -----------------------------------------------------------

  function CleanStep(out: seq<string>, e: string, rooted: bool): seq<string> {
    if e == "" || e == "." then out
    else if e != ".." then out + [e]
    else if out != [] && out[|out| - 1] != ".." then out[..|out| - 1]
    else if rooted then out
    else out + [".."]
  }

  function CleanFold(es: seq<string>, rooted: bool): seq<string> {
    if es == [] then [] else CleanStep(CleanFold(es[..|es| - 1], rooted), es[|es| - 1], rooted)
  }

  /** The shortest path that names the same place, by text alone. */
  function Clean(path: string): string {
    if path == "" then "."
    else
      var rooted := path[0] == '/';
      var text := Join(CleanFold(Split(path), rooted));
      if rooted then "/" + text else if text == "" then "." else text
  }

  /** Real names, after as many leading ".." as an unrooted path needs. */
  predicate CleanForm(es: seq<string>, rooted: bool) {
    && AllPlain(es)
    && (forall i | 0 <= i < |es| :: es[i] != "" && es[i] != ".")
    && (forall i | 0 <= i < |es| && es[i] == ".." :: !rooted && forall j | 0 <= j < i :: es[j] == "..")
  }

  lemma {:induction false} CleanFoldForm(es: seq<string>, rooted: bool)
    requires AllPlain(es)
    ensures CleanForm(CleanFold(es, rooted), rooted)
  {
    if es == [] {
    } else {
      CleanFoldForm(es[..|es| - 1], rooted);
    }
  }

  lemma {:induction false} CleanFoldIdentity(es: seq<string>, rooted: bool)
    requires CleanForm(es, rooted)
    ensures CleanFold(es, rooted) == es
  {
    hide Plain;
    if es == [] {
    } else {
      var n := |es| - 1;
      CleanFoldIdentity(es[..n], rooted);
      assert es == es[..n] + [es[n]];
      if es[n] == ".." && n > 0 {
        assert es[n - 1] == "..";
      }
    }
  }

  lemma JoinStarts(es: seq<string>)
    requires es != [] && AllPlain(es) && es[0] != ""
    ensures Join(es) != "" && Join(es)[0] != '/'
    ensures Join(es)[0] == es[0][0]
  {
  }

  lemma CleanDot()
    ensures Clean(".") == "."
  {
    SplitReads("", ".");
    assert "" + "." == "." && Split(".") == ["."] && ["."][..0] == [];
    assert CleanFold(["."], false) == [];
  }

  /** Cleaning is idempotent. */
  lemma CleanIdempotent(path: string)
    ensures Clean(Clean(path)) == Clean(path)
  {
    if path == "" {
      CleanDot();
    } else {
      var rooted := path[0] == '/';
      var es := CleanFold(Split(path), rooted);
      SplitPlain(path);
      CleanFoldForm(Split(path), rooted);
      if rooted {
        SplitRooted(Join(es));
        if es != [] {
          SplitJoin(es);
        } else {
          assert Split("") == [""] && [""] + [""] == ["", ""];
        }
        LeadingEmpty(es, rooted);
        CleanFoldIdentity(es, rooted);
      } else if es == [] {
        CleanDot();
      } else {
        JoinStarts(es);
        SplitJoin(es);
        CleanFoldIdentity(es, rooted);
      }
    }
  }

  /** An empty element in front does not change what cleaning keeps. */
  lemma {:induction false} LeadingEmpty(es: seq<string>, rooted: bool)
    ensures CleanFold([""] + es, rooted) == CleanFold(es, rooted)
    ensures CleanFold(["", ""], rooted) == []
  {
    assert ["", ""][..1] == [""] && [""][..0] == [];
    if es == [] {
      assert [""] + es == [""];
    } else {
      LeadingEmpty(es[..|es| - 1], rooted);
      assert ([""] + es)[..|es|] == [""] + es[..|es| - 1];
    }
  }

  // ---- cleaning never lengthens a path ------------------------------------------------

  function Cost(es: seq<string>): nat {
    if es == [] then 0 else Cost(es[..|es| - 1]) + |es[|es| - 1]| + 1
  }

  lemma {:induction false} SplitCost(s: string)
    ensures Cost(Split(s)) == |s| + 1
  {
    if s == "" {
      assert Split(s) == [""] && [""][..0] == [];
    } else {
      SplitCost(s[..|s| - 1]);
      var (done, current) := SplitFold(s[..|s| - 1]);
      assert (done + [current])[..|done|] == done;
      assert Split(s)[..|Split(s)| - 1] == SplitFold(s).0;
    }
  }

  lemma {:induction false} JoinLength(es: seq<string>)
    requires es != []
    ensures |Join(es)| + 1 == Cost(es)
  {
    if |es| > 1 {
      JoinLength(es[..|es| - 1]);
    } else {
      assert es[..0] == [];
    }
  }

  lemma CleanStepCost(out: seq<string>, e: string, rooted: bool)
    ensures Cost(CleanStep(out, e, rooted)) <= Cost(out) + if e == "" then 0 else |e| + 1
  {
  }

  lemma {:induction false} CleanCost(es: seq<string>, rooted: bool)
    ensures Cost(CleanFold(es, rooted)) <= Cost(es)
    ensures es != [] && es[0] == "" ==> Cost(CleanFold(es, rooted)) + 1 <= Cost(es)
  {
    hide CleanStep;
    if es == [] {
    } else {
      var n := |es| - 1;
      CleanCost(es[..n], rooted);
      CleanStepCost(CleanFold(es[..n], rooted), es[n], rooted);
      assert es[..0] == [];
    }
  }

  lemma CleanShorter(path: string)
    requires path != ""
    ensures Clean(path) != "" && |Clean(path)| <= |path|
  {
    var rooted := path[0] == '/';
    var es := CleanFold(Split(path), rooted);
    SplitCost(path);
    CleanCost(Split(path), rooted);
    if es != [] {
      JoinLength(es);
    }
    if rooted {
      SplitRooted(path[1..]);
      assert path == "/" + path[1..];
    }
  }

  // ---- one path ----------------------------------------------------------------------

  function Slashes(s: string): string {
    seq(|s|, i requires 0 <= i < |s| => if s[i] == '\\' then '/' else s[i])
  }

  function TrimDotSlash(s: string): string {
    if |s| >= 2 && s[..2] == "./" then s[2..] else s
  }

  /** The normal form of a trimmed, non-empty scope entry. */
  function PathValue(raw: string): string {
    TrimDotSlash(Clean(Slashes(Trim(raw))))
  }

  predicate Letter(c: char) { 'A' <= c <= 'Z' || 'a' <= c <= 'z' }

  /** Points outside the workspace, as the check reads it. */
  predicate Outside(v: string) {
    || (|v| >= 3 && v[..3] == "../")
    || (v != "" && v[0] == '/')
    || (|v| >= 2 && Letter(v[0]) && v[1] == ':')
  }

  predicate CleanPath(p: string) {
    p != "" && Clean(p) == p && '\\' !in p && TrimDotSlash(p) == p
  }

  lemma {:induction false} CleanFoldKeeps(es: seq<string>, rooted: bool, ch: char)
    requires forall e | e in es :: ch !in e
    requires ch != '.'
    ensures forall e | e in CleanFold(es, rooted) :: ch !in e
  {
    if es == [] {
    } else {
      var n := |es| - 1;
      assert es[n] in es;
      CleanFoldKeeps(es[..n], rooted, ch);
    }
  }

  lemma {:induction false} JoinKeeps(es: seq<string>, ch: char)
    requires ch != '/' && forall e | e in es :: ch !in e
    ensures ch !in Join(es)
  {
    if |es| <= 1 {
    } else {
      JoinKeeps(es[..|es| - 1], ch);
    }
  }

  lemma {:induction false} JoinHolds(es: seq<string>, ch: char)
    requires ch != '/'
    ensures ch in Join(es) <==> exists e | e in es :: ch in e
  {
    if |es| > 1 {
      var n := |es| - 1;
      JoinHolds(es[..n], ch);
      assert es == es[..n] + [es[n]];
    } else if |es| == 1 {
      assert es[0] in es;
    }
  }

  lemma CleanKeepsOut(path: string, ch: char)
    requires ch != '/' && ch != '.' && ch !in path
    ensures ch !in Clean(path)
  {
    if path != "" {
      SplitPlain(path);
      CleanFoldKeeps(Split(path), path[0] == '/', ch);
      JoinKeeps(CleanFold(Split(path), path[0] == '/'), ch);
    }
  }

  lemma HeadHasNoSlash(es: seq<string>)
    requires es != [] && Plain(es[0]) && es[0] != "" && es[0] != "."
    ensures var t := Join(es); !(|t| >= 2 && t[0] == '.' && t[1] == '/')
  {
  }

  /** An unrooted path cleans to its joined elements. */
  lemma UnrootedClean(path: string) returns (es: seq<string>)
    requires path != "" && path[0] != '/'
    ensures CleanForm(es, false) && Clean(path) == if Join(es) == "" then "." else Join(es)
  {
    es := CleanFold(Split(path), false);
    SplitPlain(path);
    CleanFoldForm(Split(path), false);
  }

  lemma CleanNoDotSlash(path: string)
    ensures TrimDotSlash(Clean(path)) == Clean(path)
  {
    if path == "" {
      NotDotSlash(".");
    } else if path[0] == '/' {
      NotDotSlash(Clean(path));
    } else {
      var es := UnrootedClean(path);
      hide Clean, Join, TrimDotSlash;
      NotDotSlash(".");
      if es != [] {
        HeadHasNoSlash(es);
        NotDotSlash(Join(es));
      } else {
        EmptyJoin();
      }
    }
  }

  lemma EmptyJoin()
    ensures Join([]) == ""
  {
  }

  lemma NotDotSlash(text: string)
    requires !(|text| >= 2 && text[0] == '.' && text[1] == '/')
    ensures TrimDotSlash(text) == text
  {
  }

  lemma {:induction false} JoinHead(es: seq<string>)
    requires es != []
    ensures if |es| == 1 then Join(es) == es[0] else |Join(es)| > |es[0]| && Join(es)[..|es[0]| + 1] == es[0] + "/"
  {
    if |es| > 2 {
      JoinHead(es[..|es| - 1]);
    } else if |es| == 2 {
      assert es[..1] == [es[0]];
    }
  }

  // ---- where a path leads ------------------------------------------------------------------

  /** Where a walk ends: so many levels above its start, and from there down along the names. */
  datatype Place = Place(up: nat, down: seq<string>)

  function Enter(at: Place, e: string, rooted: bool): Place {
    if e == "" || e == "." then at
    else if e != ".." then at.(down := at.down + [e])
    else if at.down != [] then at.(down := at.down[..|at.down| - 1])
    else if rooted then at
    else at.(up := at.up + 1)
  }

  function Walk(es: seq<string>, rooted: bool): Place {
    if es == [] then Place(0, []) else Enter(Walk(es[..|es| - 1], rooted), es[|es| - 1], rooted)
  }

  /** The place a path names; the root has no level above it. */
  function PlaceOf(path: string): Place {
    Walk(Split(path), path != "" && path[0] == '/')
  }

  function Ups(n: nat): (es: seq<string>)
    ensures |es| == n && forall i | 0 <= i < n :: es[i] == ".."
  {
    seq(n, i => "..")
  }

  predicate Named(down: seq<string>) { forall i | 0 <= i < |down| :: down[i] !in {"", ".", ".."} }

  /** Cleaning keeps the elements of the place and no others. */
  lemma {:induction false} CleanFoldWalks(es: seq<string>, rooted: bool)
    ensures var w := Walk(es, rooted); CleanFold(es, rooted) == Ups(w.up) + w.down && Named(w.down)
  {
    if es != [] {
      var n := |es| - 1;
      CleanFoldWalks(es[..n], rooted);
      StepWalks(Walk(es[..n], rooted), es[n], rooted);
    }
  }

  lemma StepWalks(at: Place, e: string, rooted: bool)
    requires Named(at.down)
    ensures var w := Enter(at, e, rooted);
      CleanStep(Ups(at.up) + at.down, e, rooted) == Ups(w.up) + w.down && Named(w.down)
  {
    assert at.down != [] ==> (Ups(at.up) + at.down)[..at.up + |at.down| - 1] == Ups(at.up) + at.down[..|at.down| - 1];
    assert Ups(at.up) + [".."] == Ups(at.up + 1);
  }

  /** The elements of a clean path lead where they say. */
  lemma {:induction false} CleanFormWalks(es: seq<string>, rooted: bool)
    requires CleanForm(es, rooted)
    ensures var w := Walk(es, rooted); es == Ups(w.up) + w.down && Named(w.down)
  {
    CleanFoldWalks(es, rooted);
    CleanFoldIdentity(es, rooted);
  }

  lemma SamePlace(v: Place, w: Place)
    requires Ups(v.up) + v.down == Ups(w.up) + w.down && Named(v.down) && Named(w.down)
    ensures v == w
  {
    NotHigher(v, w);
    NotHigher(w, v);
    assert v.down == (Ups(v.up) + v.down)[v.up..] && w.down == (Ups(w.up) + w.down)[w.up..];
  }

  lemma NotHigher(v: Place, w: Place)
    requires Ups(v.up) + v.down == Ups(w.up) + w.down && Named(v.down)
    ensures w.up <= v.up
  {
    if v.down != [] {
      assert (Ups(v.up) + v.down)[v.up] == v.down[0];
    } else {
      assert |Ups(v.up) + v.down| == v.up;
    }
  }

  lemma {:induction false} LeadingEmptyWalks(es: seq<string>, rooted: bool)
    ensures Walk([""] + es, rooted) == Walk(es, rooted)
  {
    if es != [] {
      LeadingEmptyWalks(es[..|es| - 1], rooted);
      assert ([""] + es)[..|es|] == [""] + es[..|es| - 1];
    } else {
      assert ([""] + es)[..0] == [];
    }
  }

  /** Cleaning keeps the place that a path names. */
  lemma CleanKeepsPlace(path: string)
    ensures PlaceOf(Clean(path)) == PlaceOf(path)
  {
    var rooted := path != "" && path[0] == '/';
    var es := CleanFold(Split(path), rooted);
    SplitPlain(path);
    CleanFoldForm(Split(path), rooted);
    CleanFoldWalks(Split(path), rooted);
    CleanFormWalks(es, rooted);
    SamePlace(Walk(es, rooted), PlaceOf(path));
    SplitOne("");
    SplitOne(".");
    assert [""][..0] == [] && ["."][..0] == [];
    if rooted {
      SplitRooted(Join(es));
      LeadingEmptyWalks(Split(Join(es)), true);
      if es != [] {
        SplitJoin(es);
      }
    } else if es != [] {
      JoinStarts(es);
      SplitJoin(es);
    }
  }

  // ---- paths that leave the workspace -----------------------------------------------------

  /** Walking along the path leads above where it starts. */
  predicate Climbs(p: string) { PlaceOf(p).up > 0 }

  lemma ParentClimbs()
    ensures Climbs("..")
  {
    SplitOne("..");
    assert [".."][..0] == [];
  }

  /** A clean path climbs exactly when its first element does. */
  lemma ClimbsAtOnce(p: string, es: seq<string>)
    requires CleanForm(es, false) && p != "" && p[0] != '/' && p == if Join(es) == "" then "." else Join(es)
    ensures Climbs(p) <==> p == ".." || (|p| >= 3 && p[..3] == "../")
  {
    if es == [] {
      SplitOne(".");
      assert ["."][..0] == [];
    } else {
      JoinStarts(es);
      SplitJoin(es);
      CleanFormWalks(es, false);
      JoinHead(es);
      HeadDots(es[0], p);
    }
  }

  lemma HeadDots(name: string, s: string)
    requires Plain(name) && name != "" && (s == name || (|s| > |name| && s[..|name| + 1] == name + "/"))
    ensures name == ".." <==> s == ".." || (|s| >= 3 && s[..3] == "../")
  {
    assert ".." + "/" == "../";
    if s != name {
      assert s[|name|] == '/' && forall i | 0 <= i < |name| :: s[i] == name[i];
    }
    if |s| >= 3 && s[..3] == "../" {
      assert s[0] == '.' && s[1] == '.' && s[2] == '/';
    }
  }

  /** An unrooted path climbs, or names its own start, exactly when its clean form says so at once. */
  lemma PlaceRead(path: string)
    requires path != "" && path[0] != '/'
    ensures var c := Clean(path);
      && (Climbs(path) <==> c == ".." || (|c| >= 3 && c[..3] == "../"))
      && (PlaceOf(path) == Place(0, []) <==> c == ".")
  {
    var es := UnrootedClean(path);
    CleanKeepsPlace(path);
    SplitOne(".");
    assert ["."][..0] == [];
    if es != [] {
      JoinStarts(es);
      SplitJoin(es);
      CleanFormWalks(es, false);
    }
    hide Clean, CleanFold;
    ClimbsAtOnce(Clean(path), es);
  }

  /** The path check lets a clean path through exactly when it is not rooted, has no drive letter
      and, but for "..", does not leave the workspace. */
  lemma AcceptedClimbs(p: string)
    requires CleanPath(p)
    ensures !Outside(p) <==> p[0] != '/' && !(|p| >= 2 && Letter(p[0]) && p[1] == ':') && (Climbs(p) ==> p == "..")
    ensures Climbs("..")
  {
    hide CleanFold, CleanForm;
    ParentClimbs();
    if p[0] != '/' {
      var es := UnrootedClean(p);
      hide Clean;
      ClimbsAtOnce(p, es);
    }
  }

  lemma PathValueClean(raw: string)
    requires Trim(raw) != ""
    ensures CleanPath(PathValue(raw))
    ensures |PathValue(raw)| <= |Trim(raw)|
  {
    hide Clean, Trim, TrimDotSlash;
    var s := Slashes(Trim(raw));
    CleanNoDotSlash(s);
    CleanIdempotent(s);
    CleanShorter(s);
    CleanKeepsOut(s, '\\');
  }

  lemma PathValueIdentity(p: string)
    requires CleanPath(p) && Trimmed(p)
    ensures PathValue(p) == p && Trim(p) == p
  {
    hide Clean, Trim;
    TrimIdentity(p);
    assert Slashes(p) == p;
  }

  // ---- lists of paths -----------------------------------------------------------------

  predicate Less(a: string, b: string) {
    if b == "" then false
    else if a == "" then true
    else a[0] < b[0] || (a[0] == b[0] && Less(a[1..], b[1..]))
  }

  lemma {:induction false} LessTotal(a: string, b: string)
    ensures a == b || Less(a, b) || Less(b, a)
    ensures !(Less(a, b) && Less(b, a)) && !Less(a, a)
  {
    if a != "" && b != "" {
      LessTotal(a[1..], b[1..]);
      assert a == [a[0]] + a[1..] && b == [b[0]] + b[1..];
    }
    if a == "" {
    } else {
      LessTotal(a[1..], a[1..]);
    }
  }

  lemma {:induction false} LessTrans(a: string, b: string, c: string)
    requires Less(a, b) && Less(b, c)
    ensures Less(a, c)
  {
    if a != "" && a[0] == b[0] && b[0] == c[0] {
      LessTrans(a[1..], b[1..], c[1..]);
    }
  }

  /** Text a comes before text b exactly when it is a proper beginning of b or smaller at the first
      difference. */
  lemma {:induction false} LessAtDifference(a: string, b: string)
    ensures Less(a, b) <==> exists n | 0 <= n <= |a| :: n < |b| && a[..n] == b[..n] && (n == |a| || a[n] < b[n])
  {
    if a == "" {
      assert b != "" ==> a[..0] == b[..0];
    } else if b != "" {
      LessAtDifference(a[1..], b[1..]);
      if a[0] < b[0] {
        assert a[..0] == b[..0];
      }
      forall n | 0 <= n <= |a| - 1 && n < |b| - 1
        ensures a[0] == b[0] ==> (a[1..][..n] == b[1..][..n] <==> a[..n + 1] == b[..n + 1])
      {
        assert a[..n + 1] == [a[0]] + a[1..][..n] && b[..n + 1] == [b[0]] + b[1..][..n];
      }
      if m :| 0 <= m <= |a| && m < |b| && a[..m] == b[..m] && (m == |a| || a[m] < b[m]) {
        if m > 0 {
          assert a[..m][0] == a[0] && b[..m][0] == b[0];
          assert a[1..][..m - 1] == b[1..][..m - 1];
        }
      }
      if a[0] == b[0] && Less(a[1..], b[1..]) {
        var n :| 0 <= n <= |a| - 1 && n < |b| - 1 && a[1..][..n] == b[1..][..n] && (n == |a| - 1 || a[1..][n] < b[1..][n]);
        assert a[..n + 1] == b[..n + 1];
      }
    }
  }

  predicate Increasing(s: seq<string>) {
    forall i, j | 0 <= i < j < |s| :: Less(s[i], s[j])
  }

  function Insert(s: seq<string>, v: string): seq<string> {
    if s == [] || !Less(v, s[|s| - 1]) then s + [v]
    else Insert(s[..|s| - 1], v) + [s[|s| - 1]]
  }

  function Sorted(s: seq<string>): seq<string> {
    if s == [] then [] else Insert(Sorted(s[..|s| - 1]), s[|s| - 1])
  }

  function Weight(s: seq<string>): nat {
    if s == [] then 0 else Weight(s[..|s| - 1]) + |s[|s| - 1]| + 1
  }

  lemma LaterAtEnd(s: seq<string>, v: string)
    requires Increasing(s) && forall w | w in s :: Less(w, v)
    ensures Increasing(s + [v]) && Weight(s + [v]) == Weight(s) + |v| + 1
  {
    hide Less;
    assert (s + [v])[..|s|] == s;
  }

  lemma {:induction false} Inserted(s: seq<string>, v: string)
    requires Increasing(s) && v !in s
    ensures Increasing(Insert(s, v)) && Weight(Insert(s, v)) == Weight(s) + |v| + 1
    ensures forall w :: w in Insert(s, v) <==> w in s || w == v
  {
    hide Less, Weight;
    if s == [] {
      LaterAtEnd(s, v);
    } else {
      var n := |s| - 1;
      assert s == s[..n] + [s[n]];
      LessTotal(v, s[n]);
      LaterAtEnd(s[..n], s[n]);
      if Less(v, s[n]) {
        Inserted(s[..n], v);
        LaterAtEnd(Insert(s[..n], v), s[n]);
      } else {
        forall w | w in s ensures Less(w, v) {
          if w != s[n] {
            LessTrans(w, s[n], v);
          }
        }
        LaterAtEnd(s, v);
      }
    }
  }

  /** Sorting distinct values puts the same values in increasing order. */
  lemma {:induction false} SortedSorts(s: seq<string>)
    requires Distinct(s)
    ensures Increasing(Sorted(s)) && Weight(Sorted(s)) == Weight(s)
    ensures forall w :: w in Sorted(s) <==> w in s
  {
    if s == [] {
    } else {
      var n := |s| - 1;
      assert s == s[..n] + [s[n]];
      SortedSorts(s[..n]);
      assert s[n] !in s[..n];
      Inserted(Sorted(s[..n]), s[n]);
    }
  }

  lemma {:induction false} SortedIdentity(s: seq<string>)
    requires Increasing(s)
    ensures Sorted(s) == s
  {
    if s == [] {
    } else {
      var n := |s| - 1;
      assert s == s[..n] + [s[n]];
      SortedIdentity(s[..n]);
      if n > 0 {
        LessTotal(s[n - 1], s[n]);
      }
    }
  }

  // ---- scope lists ------------------------------------------------------------------------

  /** The entries that stay inside the workspace, in normal form. */
  function ValidPaths(values: seq<string>): seq<string> {
    if values == [] then []
    else
      var out, raw := ValidPaths(values[..|values| - 1]), values[|values| - 1];
      if Trim(raw) == "" || Outside(PathValue(raw)) then out else out + [PathValue(raw)]
  }

  /** The entries reported as invalid, as written. */
  function InvalidPaths(values: seq<string>): seq<string> {
    if values == [] then []
    else
      var out, raw := InvalidPaths(values[..|values| - 1]), values[|values| - 1];
      if Trim(raw) != "" && Outside(PathValue(raw)) then out + [raw] else out
  }

  /** The second pass over the valid paths: trimmed and cleaned once more, each value once. */
  function UniquePaths(values: seq<string>): seq<string> {
    if values == [] then []
    else
      var out, raw := UniquePaths(values[..|values| - 1]), values[|values| - 1];
      if Trim(raw) == "" || PathValue(raw) in out then out else out + [PathValue(raw)]
  }

  function Scope(values: seq<string>): seq<string> {
    Sorted(UniquePaths(ValidPaths(values)))
  }

  predicate ScopeForm(ps: seq<string>) {
    Increasing(ps) && forall i | 0 <= i < |ps| :: CleanPath(ps[i])
  }

  /** A path that preparing a plan again would leave alone. */
  predicate Stable(p: string) {
    Trimmed(p) && !Outside(p)
  }

  lemma {:induction false} UniquePathsForm(values: seq<string>)
    ensures Distinct(UniquePaths(values)) && forall p | p in UniquePaths(values) :: CleanPath(p)
  {
    hide Trim, PathValue, CleanPath;
    if values == [] {
    } else {
      UniquePathsForm(values[..|values| - 1]);
      var raw := values[|values| - 1];
      if Trim(raw) != "" {
        PathValueClean(raw);
      }
    }
  }

  lemma ScopeHasForm(values: seq<string>)
    ensures ScopeForm(Scope(values))
  {
    hide CleanPath;
    var us := UniquePaths(ValidPaths(values));
    UniquePathsForm(ValidPaths(values));
    SortedSorts(us);
    forall i | 0 <= i < |Scope(values)| ensures CleanPath(Scope(values)[i]) {
      assert Scope(values)[i] in Sorted(us);
    }
  }

  lemma {:induction false} StableLists(ps: seq<string>)
    requires Distinct(ps) && forall p | p in ps :: CleanPath(p) && Stable(p)
    ensures ValidPaths(ps) == ps && InvalidPaths(ps) == [] && UniquePaths(ps) == ps
  {
    hide Trim, PathValue, CleanPath, Stable;
    if ps == [] {
    } else {
      var n := |ps| - 1;
      assert ps == ps[..n] + [ps[n]];
      StableLists(ps[..n]);
      StableValue(ps[n]);
    }
  }

  lemma StableValue(p: string)
    requires CleanPath(p) && Stable(p)
    ensures PathValue(p) == p && Trim(p) == p && p != "" && !Outside(p)
  {
    hide Trim, PathValue, Outside;
    PathValueIdentity(p);
  }

  lemma {:induction false} ValidWeight(values: seq<string>)
    ensures Weight(ValidPaths(values)) <= Weight(values)
    ensures (exists v | v in values :: Trim(v) != v || (Trim(v) != "" && Outside(PathValue(v)))) ==>
      Weight(ValidPaths(values)) < Weight(values)
  {
    hide PathValue, Outside, Trim;
    if values == [] {
    } else {
      var n := |values| - 1;
      assert values == values[..n] + [values[n]];
      ValidWeight(values[..n]);
      ValueWeight(values[n]);
      var out := ValidPaths(values[..n]);
      assert (out + [PathValue(values[n])])[..|out|] == out;
    }
  }

  lemma ValueWeight(raw: string)
    ensures Trim(raw) != "" ==> |PathValue(raw)| <= |Trim(raw)|
    ensures |Trim(raw)| <= |raw| && (Trim(raw) != raw ==> |Trim(raw)| < |raw|)
  {
    hide PathValue, Trim;
    TrimForm(raw);
    if Trim(raw) != "" {
      PathValueClean(raw);
    }
  }

  lemma {:induction false} UniqueWeight(values: seq<string>)
    ensures Weight(UniquePaths(values)) <= Weight(values)
  {
    hide PathValue, Trim;
    if values == [] {
    } else {
      var n := |values| - 1;
      UniqueWeight(values[..n]);
      ValueWeight(values[n]);
      var out := UniquePaths(values[..n]);
      assert (out + [PathValue(values[n])])[..|out|] == out;
    }
  }

  /** Preparing a scope never makes it heavier. */
  lemma ScopeWeight(values: seq<string>)
    ensures Weight(Scope(values)) <= Weight(values)
    ensures Weight(Scope(values)) <= Weight(ValidPaths(values))
  {
    hide CleanPath;
    ValidWeight(values);
    UniqueWeight(ValidPaths(values));
    UniquePathsForm(ValidPaths(values));
    SortedSorts(UniquePaths(ValidPaths(values)));
  }

  /** Preparing a prepared scope again is the identity exactly when every path is stable;
      otherwise the scope loses weight for good. */
  lemma ScopeAgain(ps: seq<string>)
    requires ScopeForm(ps)
    ensures (forall p | p in ps :: Stable(p)) ==> Scope(ps) == ps && InvalidPaths(ps) == []
    ensures !(forall p | p in ps :: Stable(p)) ==> Weight(Scope(ps)) < Weight(ps)
  {
    hide Trim, Trimmed, PathValue, CleanPath, Outside;
    if forall p | p in ps :: Stable(p) {
      forall i, j | 0 <= i < j < |ps| ensures ps[i] != ps[j] {
        LessTotal(ps[i], ps[j]);
      }
      StableLists(ps);
      SortedIdentity(ps);
    } else {
      var p :| p in ps && !Stable(p);
      if Trimmed(p) {
        OutsideValue(p);
      } else {
        TrimForm(p);
      }
      ValidWeight(ps);
      ScopeWeight(ps);
    }
  }

  lemma OutsideValue(p: string)
    requires CleanPath(p) && Trimmed(p)
    ensures p != "" && PathValue(p) == p && Trim(p) == p
  {
    hide Trim, PathValue;
    PathValueIdentity(p);
  }

  /** An entry names the same place before and after it is put into normal form. */
  lemma PathValueKeepsPlace(raw: string)
    ensures PlaceOf(PathValue(raw)) == PlaceOf(Slashes(Trim(raw)))
  {
    hide PlaceOf, Clean, TrimDotSlash;
    CleanNoDotSlash(Slashes(Trim(raw)));
    CleanKeepsPlace(Slashes(Trim(raw)));
  }

  /** An entry is invalid exactly when it has text and leads outside; every other entry with text is kept. */
  lemma {:induction false} EntriesKept(values: seq<string>)
    ensures forall v :: v in InvalidPaths(values) <==> v in values && Trim(v) != "" && Outside(PathValue(v))
    ensures forall v | v in values && Trim(v) != "" && !Outside(PathValue(v)) :: PathValue(v) in ValidPaths(values)
    ensures forall w | w in ValidPaths(values) :: exists v | v in values ::
      Trim(v) != "" && !Outside(PathValue(v)) && w == PathValue(v)
  {
    hide Trim, PathValue, Outside;
    if values != [] {
      var n := |values| - 1;
      EntriesKept(values[..n]);
      assert values == values[..n] + [values[n]];
      forall w | w in ValidPaths(values)
        ensures exists v | v in values :: Trim(v) != "" && !Outside(PathValue(v)) && w == PathValue(v)
      {
        if w in ValidPaths(values[..n]) {
          var v :| v in values[..n] && Trim(v) != "" && !Outside(PathValue(v)) && w == PathValue(v);
          assert v in values;
        } else {
          assert values[n] in values;
        }
      }
    }
  }

  lemma {:induction false} UniqueKept(values: seq<string>)
    ensures forall v | v in values && Trim(v) != "" :: PathValue(v) in UniquePaths(values)
    ensures forall w | w in UniquePaths(values) :: exists v | v in values :: Trim(v) != "" && w == PathValue(v)
  {
    hide Trim, PathValue;
    if values != [] {
      var n := |values| - 1;
      UniqueKept(values[..n]);
      assert values == values[..n] + [values[n]];
      forall w | w in UniquePaths(values) ensures exists v | v in values :: Trim(v) != "" && w == PathValue(v) {
        if w in UniquePaths(values[..n]) {
          var v :| v in values[..n] && Trim(v) != "" && w == PathValue(v);
          assert v in values;
        } else {
          assert values[n] in values;
        }
      }
    }
  }

  /** A prepared scope has exactly the entries with text that stay inside, put into normal form twice. */
  lemma ScopeHolds(values: seq<string>, w: string)
    ensures w in Scope(values) <==> exists v | v in values ::
      Trim(v) != "" && !Outside(PathValue(v)) && Trim(PathValue(v)) != "" && w == PathValue(PathValue(v))
  {
    hide Trim, PathValue, Outside, CleanPath;
    EntriesKept(values);
    UniqueKept(ValidPaths(values));
    UniquePathsForm(ValidPaths(values));
    SortedSorts(UniquePaths(ValidPaths(values)));
  }

  method NormalizeScope(values: seq<string>) returns (paths: seq<string>, invalid: seq<string>)
    ensures paths == Scope(values) && invalid == InvalidPaths(values)
  {
    hide Trim, PathValue, Outside;
    var valid: seq<string> := [];
    invalid := [];
    for n := 0 to |values|
      invariant valid == ValidPaths(values[..n]) && invalid == InvalidPaths(values[..n])
    {
      assert values[..n + 1][..n] == values[..n];
      var raw := values[n];
      if Trim(raw) != "" {
        var value := PathValue(raw);
        if Outside(value) {
          invalid := invalid + [raw];
        } else {
          valid := valid + [value];
        }
      }
    }
    assert values[..|values|] == values;
    paths := [];
    for n := 0 to |valid|
      invariant paths == UniquePaths(valid[..n])
    {
      assert valid[..n + 1][..n] == valid[..n];
      if Trim(valid[n]) != "" {
        var value := PathValue(valid[n]);
        if value !in paths {
          paths := paths + [value];
        }
      }
    }
    assert valid[..|valid|] == valid;
    paths := Sorted(paths);
  }
}
