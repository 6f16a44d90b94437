/** Keys and word lists of a plan: how the compiler normalises them. */
module Words {
  import opened Text

  /** The letters and digits of the character tables, with the upper-case map. */
  datatype CharTable = CharTable(alnum: char -> bool, upper: char -> char)

  predicate TableOk(a: CharTable) {
    && !a.alnum('-')
    && forall c :: a.alnum(c) ==> !IsSpace(c) && a.alnum(a.upper(c)) && a.upper(a.upper(c)) == a.upper(c)
  }

  /** Any table whose letters and digits are neither space nor dash and whose upper-case map
      stays among them and is idempotent. */
  type Alphabet = a: CharTable | TableOk(a) witness CharTable((c: char) => 'A' <= c <= 'Z', (c: char) => c)

  // ---- keys -----------------------------------------------------------------

  /** The text built so far and whether a separator is pending. */
  function KeyFold(a: Alphabet, s: string): (string, bool) {
    if s == "" then ("", false)
    else
      var (out, separator) := KeyFold(a, s[..|s| - 1]);
      var c := s[|s| - 1];
      if a.alnum(c) then ((if separator && out != "" then out + ['-'] else out) + [a.upper(c)], false)
      else (out, true)
  }

  function TrimDashes(s: string): string {
    if s != "" && s[0] == '-' then TrimDashes(s[1..])
    else if s != "" && s[|s| - 1] == '-' then TrimDashes(s[..|s| - 1])
    else s
  }

  function NormalizeKey(a: Alphabet, s: string): string {
    TrimDashes(KeyFold(a, Trim(s)).0)
  }

  /** Upper-case letters and digits in groups joined by single dashes. */
  predicate KeyForm(a: Alphabet, s: string) {
    && (forall i | 0 <= i < |s| :: s[i] == '-' || (a.alnum(s[i]) && a.upper(s[i]) == s[i]))
    && (forall i | 0 <= i < |s| - 1 :: s[i] == '-' ==> s[i + 1] != '-')
    && (s != "" ==> s[0] != '-' && s[|s| - 1] != '-')
  }

  lemma {:induction false} KeyFoldForm(a: Alphabet, s: string)
    ensures KeyForm(a, KeyFold(a, s).0)
  {
    if s == "" {
    } else {
      KeyFoldForm(a, s[..|s| - 1]);
    }
  }

  lemma NormalizedKeyForm(a: Alphabet, s: string)
    ensures KeyForm(a, NormalizeKey(a, s))
    ensures NormalizeKey(a, s) == KeyFold(a, Trim(s)).0
  {
    KeyFoldForm(a, Trim(s));
  }

  /** On a prefix of a text in key form the fold has copied all but a pending dash. */
  lemma {:induction false} KeyFoldCopies(a: Alphabet, s: string, n: nat)
    requires KeyForm(a, s) && n <= |s|
    ensures KeyFold(a, s[..n]) == if n > 0 && s[n - 1] == '-' then (s[..n - 1], true) else (s[..n], false)
  {
    if n == 0 {
    } else {
      KeyFoldCopies(a, s, n - 1);
      assert s[..n][..n - 1] == s[..n - 1];
      assert s[..n] == s[..n - 1] + [s[n - 1]];
      if n > 1 && s[n - 2] == '-' {
        assert s[..n - 1] == s[..n - 2] + ['-'];
      }
    }
  }

  lemma KeyFormTrimmed(a: Alphabet, s: string)
    requires KeyForm(a, s)
    ensures Trimmed(s) && Trim(s) == s
  {
  }

  /** Normalising a key once is enough. */
  lemma NormalizeKeyIdentity(a: Alphabet, s: string)
    requires KeyForm(a, s)
    ensures NormalizeKey(a, s) == s
  {
    KeyFormTrimmed(a, s);
    KeyFoldCopies(a, s, |s|);
    assert s[..|s|] == s;
  }

  // ---- what a normal key spells ------------------------------------------------------

  /** The positions of the letters and digits of s. */
  predicate Marks(a: Alphabet, s: string, ps: seq<nat>) {
    && (forall i, j | 0 <= i < j < |ps| :: ps[i] < ps[j])
    && (forall i | 0 <= i < |ps| :: ps[i] < |s| && a.alnum(s[ps[i]]))
    && (forall p | 0 <= p < |s| && a.alnum(s[p]) :: p in ps)
  }

  /** The characters at the given positions in upper case, with a dash exactly where other characters
      stand between two of them. */
  function Spelled(a: Alphabet, s: string, ps: seq<nat>): string
    requires forall i | 0 <= i < |ps| :: ps[i] < |s|
  {
    if ps == [] then ""
    else
      var n := |ps| - 1;
      Spelled(a, s, ps[..n]) + (if n > 0 && ps[n - 1] + 1 < ps[n] then "-" else "") + [a.upper(s[ps[n]])]
  }

  lemma FoldReads(a: Alphabet, s: string, c: char)
    ensures var (out, separator) := KeyFold(a, s);
      KeyFold(a, s + [c]) ==
        if a.alnum(c) then ((if separator && out != "" then out + ['-'] else out) + [a.upper(c)], false) else (out, true)
    ensures KeyFold(a, "") == ("", false)
  {
    assert (s + [c])[..|s + [c]| - 1] == s;
  }

  /** The fold has spelled what it has read, and remembers whether a separator came last. */
  lemma {:induction false} FoldSpells(a: Alphabet, s: string, n: nat, ps: seq<nat>)
    requires n <= |s| && Marks(a, s[..n], ps)
    ensures forall i | 0 <= i < |ps| :: ps[i] < n
    ensures KeyFold(a, s[..n]).0 == Spelled(a, s, ps) && (KeyFold(a, s[..n]).0 == "" <==> ps == [])
    ensures KeyFold(a, s[..n]).1 <==> n > 0 && (ps == [] || ps[|ps| - 1] < n - 1)
  {
    hide KeyFold, Marks;
    if n == 0 {
      FoldReads(a, s[..n], '-');
      if ps != [] {
        MarksNeedText(a, s[..n], ps);
      }
    } else {
      var m := |ps| - 1;
      assert s[..n] == s[..n - 1] + [s[n - 1]];
      FoldReads(a, s[..n - 1], s[n - 1]);
      if a.alnum(s[n - 1]) {
        LastMark(a, s, n, ps);
        FoldSpells(a, s, n - 1, ps[..m]);
      } else {
        EarlierMarks(a, s, n, ps);
        FoldSpells(a, s, n - 1, ps);
      }
    }
  }

  lemma MarksNeedText(a: Alphabet, s: string, ps: seq<nat>)
    requires Marks(a, s, ps) && ps != []
    ensures s != ""
  {
    assert ps[0] < |s|;
  }

  lemma LastMark(a: Alphabet, s: string, n: nat, ps: seq<nat>)
    requires 0 < n <= |s| && Marks(a, s[..n], ps) && a.alnum(s[n - 1])
    ensures ps != [] && ps[|ps| - 1] == n - 1 && Marks(a, s[..n - 1], ps[..|ps| - 1])
  {
    assert s[..n][n - 1] == s[n - 1] && n - 1 in ps;
    var k :| 0 <= k < |ps| && ps[k] == n - 1;
    assert k == |ps| - 1;
    forall p | 0 <= p < n - 1 && a.alnum(s[..n - 1][p]) ensures p in ps[..k] {
      assert s[..n][p] == s[..n - 1][p];
    }
  }

  lemma EarlierMarks(a: Alphabet, s: string, n: nat, ps: seq<nat>)
    requires 0 < n <= |s| && Marks(a, s[..n], ps) && !a.alnum(s[n - 1])
    ensures Marks(a, s[..n - 1], ps)
  {
    forall p | 0 <= p < n - 1 && a.alnum(s[..n - 1][p]) ensures p in ps {
      assert s[..n][p] == s[..n - 1][p];
    }
  }

  lemma {:induction false} LeadingIgnored(a: Alphabet, before: string, t: string)
    requires forall i | 0 <= i < |before| :: !a.alnum(before[i])
    ensures var (out, separator) := KeyFold(a, t);
      var (all, pending) := KeyFold(a, before + t); all == out && (out != "" ==> pending == separator)
  {
    hide KeyFold;
    if t != "" {
      var n := |t| - 1;
      assert t == t[..n] + [t[n]] && before + t == (before + t[..n]) + [t[n]];
      LeadingIgnored(a, before, t[..n]);
      FoldReads(a, t[..n], t[n]);
      FoldReads(a, before + t[..n], t[n]);
    } else if before != "" {
      var n := |before| - 1;
      assert before == before[..n] + [before[n]] && before[..n] + "" == before[..n] && before + t == before;
      LeadingIgnored(a, before[..n], "");
      FoldReads(a, before[..n], before[n]);
    } else {
      assert before + t == t;
      FoldReads(a, "", '-');
    }
  }

  lemma {:induction false} TrailingIgnored(a: Alphabet, s: string, after: string)
    requires forall i | 0 <= i < |after| :: !a.alnum(after[i])
    ensures KeyFold(a, s + after).0 == KeyFold(a, s).0
  {
    hide KeyFold;
    if after == "" {
      assert s + after == s;
    } else {
      var n := |after| - 1;
      assert s + after == (s + after[..n]) + [after[n]];
      TrailingIgnored(a, s, after[..n]);
      FoldReads(a, s + after[..n], after[n]);
    }
  }

  /** A normal key spells the letters and digits of the value it was made from, in order and in upper
      case, and has a dash exactly where other characters stand between two of them. */
  lemma NormalizeKeySpells(a: Alphabet, value: string, ps: seq<nat>)
    requires Marks(a, value, ps)
    ensures forall i | 0 <= i < |ps| :: ps[i] < |value|
    ensures NormalizeKey(a, value) == Spelled(a, value, ps)
  {
    hide KeyFold, Trim, IsSpace, Spelled;
    var t := Trim(value);
    TrimCuts(value);
    var before, after :| Spaced(value, before, t, after);
    LeadingIgnored(a, before, t);
    TrailingIgnored(a, before + t, after);
    assert value[..|value|] == value;
    FoldSpells(a, value, |value|, ps);
    NormalizedKeyForm(a, value);
  }

  /** The positions of the letters and digits can always be listed. */
  lemma {:induction false} MarksExist(a: Alphabet, s: string) returns (ps: seq<nat>)
    ensures Marks(a, s, ps)
  {
    ps := [];
    if s != "" {
      var n := |s| - 1;
      ps := MarksExist(a, s[..n]);
      if a.alnum(s[n]) {
        ps := ps + [n];
      }
    }
  }

  method NormalizeKeyLoop(a: Alphabet, value: string) returns (r: string)
    ensures r == NormalizeKey(a, value)
  {
    var s := Trim(value);
    var out, separator := "", false;
    for n := 0 to |s|
      invariant (out, separator) == KeyFold(a, s[..n])
    {
      assert s[..n + 1][..n] == s[..n];
      if a.alnum(s[n]) {
        if separator && out != "" {
          out := out + ['-'];
        }
        separator := false;
        out := out + [a.upper(s[n])];
      } else {
        separator := true;
      }
    }
    assert s[..|s|] == s;
    r := TrimDashes(out);
  }

  // ---- lists ------------------------------------------------------------------

  function AppendNew(out: seq<string>, v: string): seq<string> {
    if v == "" || v in out then out else out + [v]
  }

  /** Trimmed, without empty entries, each value where it first stood. */
  function NormalizeList(values: seq<string>): seq<string> {
    if values == [] then []
    else AppendNew(NormalizeList(values[..|values| - 1]), Trim(values[|values| - 1]))
  }

  predicate Distinct<T(==)>(s: seq<T>) {
    forall i, j | 0 <= i < j < |s| :: s[i] != s[j]
  }

  predicate ListForm(s: seq<string>) {
    Distinct(s) && forall i | 0 <= i < |s| :: s[i] != "" && Trimmed(s[i])
  }

  lemma {:induction false} NormalizedListForm(values: seq<string>)
    ensures ListForm(NormalizeList(values))
    ensures forall v | v in NormalizeList(values) :: exists w | w in values :: v == Trim(w)
  {
    hide Trim, Trimmed;
    if values == [] {
    } else {
      var n := |values| - 1;
      NormalizedListForm(values[..n]);
      TrimForm(values[n]);
      forall v | v in NormalizeList(values) ensures exists w | w in values :: v == Trim(w) {
        if v in NormalizeList(values[..n]) {
          var w :| w in values[..n] && v == Trim(w);
          assert w in values;
        } else {
          assert values[n] in values;
        }
      }
    }
  }

  lemma {:induction false} NormalizeListIdentity(values: seq<string>)
    requires ListForm(values)
    ensures NormalizeList(values) == values
  {
    if values == [] {
    } else {
      var n := |values| - 1;
      assert values == values[..n] + [values[n]];
      NormalizeListIdentity(values[..n]);
      TrimIdentity(values[n]);
    }
  }

  /** A value is in the result exactly when it is the trimmed, non-empty form of an entry. */
  lemma {:induction false} NormalizeListKeeps(values: seq<string>, w: string)
    requires w in values && Trim(w) != ""
    ensures Trim(w) in NormalizeList(values)
  {
    hide Trim, Trimmed;
    var n := |values| - 1;
    if w in values[..n] {
      NormalizeListKeeps(values[..n], w);
    }
  }

  /** Values come out in the order in which they first stand among the entries. */
  lemma {:induction false} NormalizeListOrder(values: seq<string>, i: nat, j: nat) returns (p: nat)
    requires i < j < |NormalizeList(values)|
    ensures p < |values| && Trim(values[p]) == NormalizeList(values)[i]
    ensures forall q | 0 <= q <= p :: Trim(values[q]) != NormalizeList(values)[j]
  {
    hide Trim, Trimmed;
    var n := |values| - 1;
    var shorter := NormalizeList(values[..n]);
    if j < |shorter| {
      p := NormalizeListOrder(values[..n], i, j);
    } else {
      NormalizedListForm(values[..n]);
      assert shorter[i] in shorter;
      var w :| w in values[..n] && shorter[i] == Trim(w);
      p :| 0 <= p < n && values[p] == w;
      forall q | 0 <= q <= p ensures Trim(values[q]) != NormalizeList(values)[j] {
        assert values[q] in values[..n];
        if Trim(values[q]) != "" {
          NormalizeListKeeps(values[..n], values[q]);
        }
      }
    }
  }

  method NormalizeListLoop(values: seq<string>) returns (out: seq<string>)
    ensures out == NormalizeList(values)
  {
    hide Trim, Trimmed;
    out := [];
    var seen: set<string> := {};
    for n := 0 to |values|
      invariant out == NormalizeList(values[..n])
      invariant forall v :: v in seen <==> v in out
    {
      assert values[..n + 1][..n] == values[..n];
      var value := Trim(values[n]);
      if value != "" && value !in seen {
        seen := seen + {value};
        out := out + [value];
      }
    }
    assert values[..|values|] == values;
  }

  /** The dependency keys of a task. */
  function NormalizeKeys(a: Alphabet, values: seq<string>): seq<string> {
    NormalizeList(seq(|values|, i requires 0 <= i < |values| => NormalizeKey(a, values[i])))
  }

  method NormalizeKeysLoop(a: Alphabet, values: seq<string>) returns (out: seq<string>)
    ensures out == NormalizeKeys(a, values)
  {
    hide NormalizeKey, NormalizeList;
    var keys: seq<string> := [];
    for n := 0 to |values|
      invariant |keys| == n && forall k | 0 <= k < n :: keys[k] == NormalizeKey(a, values[k])
    {
      var key := NormalizeKeyLoop(a, values[n]);
      keys := keys + [key];
    }
    assert keys == seq(|values|, i requires 0 <= i < |values| => NormalizeKey(a, values[i]));
    out := NormalizeListLoop(keys);
  }

  lemma NormalizedKeysForm(a: Alphabet, values: seq<string>)
    ensures ListForm(NormalizeKeys(a, values))
    ensures forall v | v in NormalizeKeys(a, values) :: KeyForm(a, v)
  {
    hide Trim, Trimmed;
    var keys := seq(|values|, i requires 0 <= i < |values| => NormalizeKey(a, values[i]));
    NormalizedListForm(keys);
    forall v | v in NormalizeList(keys) ensures KeyForm(a, v) {
      var w :| w in keys && v == Trim(w);
      var i :| 0 <= i < |keys| && keys[i] == w;
      NormalizedKeyForm(a, values[i]);
      KeyFormTrimmed(a, w);
    }
  }

  lemma NormalizeKeysIdentity(a: Alphabet, values: seq<string>)
    requires ListForm(values) && forall v | v in values :: KeyForm(a, v)
    ensures NormalizeKeys(a, values) == values
  {
    var keys := seq(|values|, i requires 0 <= i < |values| => NormalizeKey(a, values[i]));
    forall i | 0 <= i < |values| ensures keys[i] == values[i] {
      assert values[i] in values;
      NormalizeKeyIdentity(a, values[i]);
    }
    assert keys == values;
    NormalizeListIdentity(values);
  }

  /** The n-th generated key: `prefix` and the number, padded to three digits. */
  function Digits(n: nat): (d: string)
    ensures d != ""
  {
    if n < 10 then [('0' as int + n) as char] else Digits(n / 10) + [('0' as int + n % 10) as char]
  }

  function Padded(n: nat): string {
    var d := Digits(n);
    if |d| == 1 then "00" + d else if |d| == 2 then "0" + d else d
  }

  /** Decimal numerals determine their number. */
  lemma {:induction false} DigitsInjective(m: nat, n: nat)
    requires Digits(m) == Digits(n)
    ensures m == n
  {
    if m >= 10 && n >= 10 {
      var dm, dn := Digits(m), Digits(n);
      assert dm[..|dm| - 1] == Digits(m / 10) && dn[..|dn| - 1] == Digits(n / 10);
      assert dm[|dm| - 1] == dn[|dn| - 1];
      DigitsInjective(m / 10, n / 10);
    }
  }
}
