/** Characters and white space as the plan compiler and the scheduler read them. */
module Text {

  /** The white space of Go's `unicode.IsSpace`. */
  predicate IsSpace(c: char) {
    c in {'\t', '\n', '\U{000B}', '\U{000C}', '\r', ' ', '\U{0085}', '\U{00A0}', '\U{1680}',
          '\U{2028}', '\U{2029}', '\U{202F}', '\U{205F}', '\U{3000}'}
    || '\U{2000}' <= c <= '\U{200A}'
  }

  function TrimLeft(s: string): string {
    if s != "" && IsSpace(s[0]) then TrimLeft(s[1..]) else s
  }

  function TrimRight(s: string): string {
    if s != "" && IsSpace(s[|s| - 1]) then TrimRight(s[..|s| - 1]) else s
  }

  predicate Trimmed(s: string) {
    s != "" ==> !IsSpace(s[0]) && !IsSpace(s[|s| - 1])
  }

  function Trim(s: string): string { TrimRight(TrimLeft(s)) }

  /** s is white space, the text t, and white space. */
  predicate Spaced(s: string, before: string, t: string, after: string) {
    && s == before + t + after
    && (forall i | 0 <= i < |before| :: IsSpace(before[i]))
    && (forall i | 0 <= i < |after| :: IsSpace(after[i]))
  }

  lemma SpacedInFront(c: char, s: string, before: string, t: string)
    requires Spaced(s, before, t, "") && IsSpace(c)
    ensures Spaced([c] + s, [c] + before, t, "")
  {
    assert [c] + (before + t + "") == ([c] + before) + t + "";
  }

  lemma SpacedBehind(s: string, t: string, after: string, c: char)
    requires Spaced(s, "", t, after) && IsSpace(c)
    ensures Spaced(s + [c], "", t, after + [c])
  {
    assert ("" + t + after) + [c] == "" + t + (after + [c]);
  }

  lemma {:induction false} TrimLeftCuts(s: string) returns (before: string)
    ensures Spaced(s, before, TrimLeft(s), "")
    ensures TrimLeft(s) != "" ==> !IsSpace(TrimLeft(s)[0])
  {
    hide IsSpace;
    if s == "" || !IsSpace(s[0]) {
      before := "";
      assert s == "" + s + "";
    } else {
      var rest := TrimLeftCuts(s[1..]);
      before := [s[0]] + rest;
      SpacedInFront(s[0], s[1..], rest, TrimLeft(s));
      assert [s[0]] + s[1..] == s;
    }
  }

  lemma {:induction false} TrimRightCuts(s: string) returns (after: string)
    ensures Spaced(s, "", TrimRight(s), after)
    ensures TrimRight(s) != "" ==> !IsSpace(TrimRight(s)[|TrimRight(s)| - 1])
  {
    hide IsSpace;
    if s == "" || !IsSpace(s[|s| - 1]) {
      after := "";
      assert s == "" + s + "";
    } else {
      var n := |s| - 1;
      var rest := TrimRightCuts(s[..n]);
      after := rest + [s[n]];
      SpacedBehind(s[..n], TrimRight(s), rest, s[n]);
      assert s[..n] + [s[n]] == s;
    }
  }

  /** Trimming takes the white space at both ends and nothing else. */
  lemma TrimCuts(s: string)
    ensures Trimmed(Trim(s)) && exists before, after :: Spaced(s, before, Trim(s), after)
  {
    hide IsSpace, TrimLeft, TrimRight;
    var before := TrimLeftCuts(s);
    var left := TrimLeft(s);
    var after := TrimRightCuts(left);
    var t := Trim(s);
    assert t != "" ==> t[0] == left[0];
    assert s == before + (t + after) && before + (t + after) == before + t + after;
    assert Spaced(s, before, t, after);
  }

  lemma TrimForm(s: string)
    ensures Trimmed(Trim(s)) && |Trim(s)| <= |s| && (|Trim(s)| == |s| ==> Trim(s) == s)
  {
    hide IsSpace, Trim, Trimmed;
    TrimCuts(s);
  }

  lemma TrimIdentity(s: string)
    requires Trimmed(s)
    ensures Trim(s) == s
  {
  }
}
