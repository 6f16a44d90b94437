/** The NUL-delimited output of `git status --porcelain -z` and `git diff --name-status -z`. */
module GitZ {
  import opened Lifecycle
  import opened Words
  import opened Paths
  import opened Decimal

  const NUL := '\0'

  // ---- fields --------------------------------------------------------------------

  /** The pieces between NULs. */
  function Fields(s: string): (fs: seq<string>)
    ensures fs != []
  {
    if s == "" then [""]
    else if s[0] == NUL then [""] + Fields(s[1..])
    else
      var fs := Fields(s[1..]);
      [[s[0]] + fs[0]] + fs[1..]
  }

  lemma {:induction false} FieldsCons(x: string, rest: string)
    requires NUL !in x
    ensures Fields(x + [NUL] + rest) == [x] + Fields(rest)
  {
    var s := x + [NUL] + rest;
    if x == "" {
      assert s[1..] == rest;
    } else {
      FieldsCons(x[1..], rest);
      assert s[1..] == x[1..] + [NUL] + rest;
      assert [x[0]] + x[1..] == x;
    }
  }

  /** Every field followed by a NUL. */
  function Terminated(fs: seq<string>): string {
    if fs == [] then "" else fs[0] + [NUL] + Terminated(fs[1..])
  }

  lemma {:induction false} FieldsReturn(fs: seq<string>)
    requires forall f | f in fs :: NUL !in f
    ensures Fields(Terminated(fs)) == fs + [""]
  {
    if fs == [] {
    } else {
      assert fs[0] in fs;
      FieldsReturn(fs[1..]);
      FieldsCons(fs[0], Terminated(fs[1..]));
      assert fs == [fs[0]] + fs[1..];
    }
  }

  /** A path that stays inside the work tree. */
  predicate Safe(p: string) {
    && p != "" && p[0] != '/'
    && var c := Clean(p); c != "." && c != ".." && !(|c| >= 3 && c[..3] == "../")
  }

  /** A path is safe exactly when it is relative and leads to a name below its start, never above it. */
  lemma SafeLeadsBelow(p: string)
    ensures Safe(p) <==> p != "" && p[0] != '/' && PlaceOf(p).up == 0 && PlaceOf(p).down != []
  {
    hide Clean, PlaceOf;
    if p != "" && p[0] != '/' {
      PlaceRead(p);
    }
  }

  predicate StorablePath(p: string) { Safe(p) && NUL !in p }

  function Then<T>(done: seq<T>, rest: Option<seq<T>>): Option<seq<T>> {
    if rest.Some? then Some(done + rest.value) else None
  }

  lemma ThenJoins<T>(a: seq<T>, b: seq<T>, o: Option<seq<T>>)
    ensures Then([], o) == o && Then(a, Then(b, o)) == Then(a + b, o)
  {
    if o.Some? {
      assert a + (b + o.value) == a + b + o.value && [] + o.value == o.value;
    }
  }

  lemma ThenEnds<T>(a: seq<T>)
    ensures Then(a, Some([])) == Some(a)
  {
    assert a + [] == a;
  }

  // ---- status records -------------------------------------------------------------

  datatype Record = Record(index: char, worktree: char, path: string, original: Option<string>)

  predicate HasOriginal(index: char, worktree: char) {
    index == 'R' || index == 'C' || worktree == 'R' || worktree == 'C'
  }

  predicate RecordOk(r: Record) {
    && Safe(r.path) && (r.original.Some? <==> HasOriginal(r.index, r.worktree))
    && (r.original.Some? ==> Safe(r.original.value))
  }

  predicate RecordPrints(r: Record) {
    && RecordOk(r) && r.index != NUL && r.worktree != NUL && NUL !in r.path
    && (r.original.Some? ==> NUL !in r.original.value)
  }

  function RecordFields(r: Record): seq<string> {
    [[r.index, r.worktree, ' '] + r.path] + if r.original.Some? then [r.original.value] else []
  }

  function StatusFields(rs: seq<Record>): seq<string> {
    if rs == [] then [] else RecordFields(rs[0]) + StatusFields(rs[1..])
  }

  /** Porcelain format version 1 with -z. */
  function PrintStatus(rs: seq<Record>): string { Terminated(StatusFields(rs)) }

  function ParseStatus(fs: seq<string>): (o: Option<seq<Record>>)
    ensures o.Some? ==> forall r | r in o.value :: RecordOk(r)
    decreases |fs|
  {
    if fs == [] then Some([])
    else if fs[0] == "" then ParseStatus(fs[1..])
    else if |fs[0]| < 4 || fs[0][2] != ' ' then None
    else
      var part := fs[0];
      if HasOriginal(part[0], part[1]) then
        if |fs| < 2 || fs[1] == "" then None
        else if !Safe(part[3..]) || !Safe(fs[1]) then None
        else Then([Record(part[0], part[1], part[3..], Some(fs[1]))], ParseStatus(fs[2..]))
      else if !Safe(part[3..]) then None
      else Then([Record(part[0], part[1], part[3..], None)], ParseStatus(fs[1..]))
  }

  /** parsePorcelainV1Z */
  method ParsePorcelain(raw: string) returns (records: Option<seq<Record>>)
    ensures records == if raw == "" then Some([]) else ParseStatus(Fields(raw))
  {
    if raw == "" {
      return Some([]);
    }
    hide Safe, Fields;
    var parts := Fields(raw);
    var out: seq<Record> := [];
    var index := 0;
    assert parts[0..] == parts;
    ThenJoins([], out, ParseStatus(parts));
    while index < |parts|
      invariant index <= |parts| && ParseStatus(parts) == Then(out, ParseStatus(parts[index..]))
    {
      ghost var rest := parts[index..];
      var part := parts[index];
      index := index + 1;
      assert rest[1..] == parts[index..];
      if part == "" {
        continue;
      }
      if |part| < 4 || part[2] != ' ' {
        return None;
      }
      var original: Option<string> := None;
      if HasOriginal(part[0], part[1]) {
        if index >= |parts| || parts[index] == "" {
          return None;
        }
        original := Some(parts[index]);
        index := index + 1;
        assert rest[2..] == parts[index..];
      }
      if !Safe(part[3..]) || (original.Some? && !Safe(original.value)) {
        return None;
      }
      var record := Record(part[0], part[1], part[3..], original);
      ThenJoins(out, [record], ParseStatus(parts[index..]));
      out := out + [record];
    }
    ThenEnds(out);
    return Some(out);
  }

  lemma {:induction false} StatusReturns(rs: seq<Record>, tail: seq<string>)
    requires forall r | r in rs :: RecordOk(r)
    ensures ParseStatus(StatusFields(rs) + tail) == Then(rs, ParseStatus(tail))
  {
    hide RecordOk, RecordFields, ParseStatus;
    if rs == [] {
      assert StatusFields(rs) + tail == tail;
      ThenJoins(rs, rs, ParseStatus(tail));
    } else {
      assert rs[0] in rs;
      StatusReturns(rs[1..], tail);
      OneRecord(rs[0], StatusFields(rs[1..]) + tail);
      assert StatusFields(rs) + tail == RecordFields(rs[0]) + (StatusFields(rs[1..]) + tail);
      ThenJoins([rs[0]], rs[1..], ParseStatus(tail));
      assert rs == [rs[0]] + rs[1..];
    }
  }

  lemma OneRecord(r: Record, rest: seq<string>)
    requires RecordOk(r)
    ensures ParseStatus(RecordFields(r) + rest) == Then([r], ParseStatus(rest))
  {
  }

  lemma PathNotEmpty(p: string)
    requires Safe(p)
    ensures p != ""
  {
  }

  lemma {:induction false} StatusNulFree(rs: seq<Record>)
    requires forall r | r in rs :: RecordPrints(r)
    ensures forall f | f in StatusFields(rs) :: NUL !in f
  {
    if rs == [] {
    } else {
      assert rs[0] in rs;
      StatusNulFree(rs[1..]);
    }
  }

  /** Parsing what Git prints for a list of status records gives the list back. */
  lemma PorcelainRoundTrip(rs: seq<Record>)
    requires forall r | r in rs :: RecordPrints(r)
    ensures ParseStatus(Fields(PrintStatus(rs))) == Some(rs)
  {
    hide Safe, RecordFields;
    StatusNulFree(rs);
    FieldsReturn(StatusFields(rs));
    StatusReturns(rs, [""]);
    assert [""][1..] == [] && ParseStatus([""]) == Some([]);
    ThenEnds(rs);
  }

  function WithoutEmpty(fs: seq<string>): seq<string> {
    if fs == [] then [] else (if fs[0] == "" then [] else [fs[0]]) + WithoutEmpty(fs[1..])
  }

  lemma FirstParsed(fs: seq<string>) returns (r: Record, n: nat)
    requires fs != [] && fs[0] != "" && ParseStatus(fs).Some?
    ensures 0 < n <= |fs| && RecordFields(r) == fs[..n] && ParseStatus(fs) == Then([r], ParseStatus(fs[n..]))
    ensures forall i | 0 <= i < n :: fs[i] != ""
  {
    hide Safe, HasOriginal;
    var part := fs[0];
    assert part == [part[0], part[1], ' '] + part[3..];
    if HasOriginal(part[0], part[1]) {
      r, n := Record(part[0], part[1], part[3..], Some(fs[1])), 2;
      assert fs[..2] == [fs[0], fs[1]];
    } else {
      r, n := Record(part[0], part[1], part[3..], None), 1;
    }
  }

  lemma {:induction false} FieldsStay(fs: seq<string>, n: nat)
    requires n <= |fs| && forall i | 0 <= i < n :: fs[i] != ""
    ensures WithoutEmpty(fs) == fs[..n] + WithoutEmpty(fs[n..])
  {
    if n > 0 {
      FieldsStay(fs[1..], n - 1);
      assert fs[..n] == [fs[0]] + fs[1..][..n - 1] && fs[1..][n - 1..] == fs[n..];
    } else {
      assert fs[0..] == fs;
    }
  }

  /** Whatever is parsed at all is parsed without loss: printing the records gives every non-empty field
      back. */
  lemma {:induction false} StatusKept(fs: seq<string>)
    requires ParseStatus(fs).Some?
    ensures StatusFields(ParseStatus(fs).value) == WithoutEmpty(fs)
    decreases |fs|
  {
    if fs != [] {
      if fs[0] == "" {
        StatusKept(fs[1..]);
      } else {
        hide ParseStatus, RecordFields, WithoutEmpty;
        var r, n := FirstParsed(fs);
        FieldsStay(fs, n);
        StatusKept(fs[n..]);
        var rs := ParseStatus(fs[n..]).value;
        assert ([r] + rs)[1..] == rs;
      }
    }
  }

  // ---- name-status changes --------------------------------------------------------------

  datatype Kind = Added | Modified | Deleted | TypeChanged | Renamed | Copied | UnknownChange

  datatype Change = Change(kind: Kind, similarity: int, previous: string, path: string)

  function KindOf(c: char): Kind {
    match c
    case 'A' => Added
    case 'M' => Modified
    case 'D' => Deleted
    case 'T' => TypeChanged
    case 'R' => Renamed
    case 'C' => Copied
    case _ => UnknownChange
  }

  predicate TwoPaths(k: Kind) { k == Renamed || k == Copied }

  const MAX_INT := 0x7FFF_FFFF_FFFF_FFFF

  /** A numeral with an optional sign, held within 64 bits; anything else reads as zero. */
  function Atoi(s: string): int {
    var negative := s != "" && s[0] == '-';
    var digits := if s != "" && (s[0] == '-' || s[0] == '+') then s[1..] else s;
    if digits == "" || !AllDigits(digits) then 0
    else
      var n: int := NumVal(digits);
      if negative then (if n > MAX_INT + 1 then -(MAX_INT + 1) else -n)
      else if n > MAX_INT then MAX_INT else n
  }

  function ParseChanges(fs: seq<string>): (o: Option<seq<Change>>)
    ensures o.Some? ==> forall c | c in o.value :: Safe(c.path) && (TwoPaths(c.kind) ==> Safe(c.previous))
    decreases |fs|
  {
    if fs == [] then Some([])
    else if fs[0] == "" then ParseChanges(fs[1..])
    else if |fs| < 2 || fs[1] == "" then None
    else
      var code := fs[0];
      var kind := KindOf(code[0]);
      if TwoPaths(kind) then
        if |fs| < 3 || fs[2] == "" || !Safe(fs[2]) || !Safe(fs[1]) then None
        else Then([Change(kind, if |code| > 1 then Atoi(code[1..]) else 0, fs[1], fs[2])], ParseChanges(fs[3..]))
      else if !Safe(fs[1]) then None
      else Then([Change(kind, 0, "", fs[1])], ParseChanges(fs[2..]))
  }

  /** parseNameStatusZ */
  method ParseNameStatus(raw: string) returns (changes: Option<seq<Change>>)
    ensures changes == ParseChanges(Fields(raw))
  {
    hide Safe, Fields, Atoi;
    var parts := Fields(raw);
    var out: seq<Change> := [];
    var index := 0;
    assert parts[0..] == parts;
    ThenJoins([], out, ParseChanges(parts));
    while index < |parts|
      invariant index <= |parts| && ParseChanges(parts) == Then(out, ParseChanges(parts[index..]))
    {
      ghost var rest := parts[index..];
      var code := parts[index];
      index := index + 1;
      if code == "" {
        assert rest[1..] == parts[index..];
        continue;
      }
      if index >= |parts| || parts[index] == "" {
        return None;
      }
      var change := Change(KindOf(code[0]), 0, "", "");
      if TwoPaths(change.kind) {
        if |code| > 1 {
          change := change.(similarity := Atoi(code[1..]));
        }
        change := change.(previous := parts[index]);
        index := index + 1;
        if index >= |parts| || parts[index] == "" {
          return None;
        }
      }
      change := change.(path := parts[index]);
      index := index + 1;
      assert parts[index..] == rest[if TwoPaths(change.kind) then 3 else 2..];
      if !Safe(change.path) || (change.previous != "" && !Safe(change.previous)) {
        return None;
      }
      ThenJoins(out, [change], ParseChanges(parts[index..]));
      out := out + [change];
    }
    ThenEnds(out);
    return Some(out);
  }

  /** What Git prints: a status letter, with a three-digit similarity for renames and copies. */
  predicate ChangePrints(c: Change) {
    && c.kind != UnknownChange && StorablePath(c.path)
    && if TwoPaths(c.kind) then StorablePath(c.previous) && 0 <= c.similarity <= 100
       else c.previous == "" && c.similarity == 0
  }

  function StatusLetter(k: Kind): char {
    match k
    case Added => 'A'
    case Modified => 'M'
    case Deleted => 'D'
    case TypeChanged => 'T'
    case Renamed => 'R'
    case Copied => 'C'
    case UnknownChange => 'X'
  }

  function ChangeFields(c: Change): seq<string>
    requires ChangePrints(c)
  {
    if TwoPaths(c.kind) then [[StatusLetter(c.kind)] + Padded(c.similarity), c.previous, c.path]
    else [[StatusLetter(c.kind)], c.path]
  }

  function NameStatusFields(cs: seq<Change>): seq<string>
    requires forall c | c in cs :: ChangePrints(c)
  {
    if cs == [] then []
    else
      assert cs[0] in cs;
      ChangeFields(cs[0]) + NameStatusFields(cs[1..])
  }

  lemma PaddedRead(n: nat)
    requires n <= 100
    ensures Atoi(Padded(n)) == n && AllDigits(Padded(n))
  {
    PaddedReads(n);
    assert Digit(Padded(n)[0]);
  }

  lemma {:induction false} ChangesReturn(cs: seq<Change>, tail: seq<string>)
    requires forall c | c in cs :: ChangePrints(c)
    ensures ParseChanges(NameStatusFields(cs) + tail) == Then(cs, ParseChanges(tail))
  {
    hide ParseChanges, ChangePrints, ChangeFields;
    if cs == [] {
      assert NameStatusFields(cs) + tail == tail;
      ThenJoins(cs, cs, ParseChanges(tail));
    } else {
      assert cs[0] in cs;
      ChangesReturn(cs[1..], tail);
      OneChange(cs[0], NameStatusFields(cs[1..]) + tail);
      assert NameStatusFields(cs) + tail == ChangeFields(cs[0]) + (NameStatusFields(cs[1..]) + tail);
      ThenJoins([cs[0]], cs[1..], ParseChanges(tail));
      assert cs == [cs[0]] + cs[1..];
    }
  }

  lemma OneChange(c: Change, rest: seq<string>)
    requires ChangePrints(c)
    ensures ParseChanges(ChangeFields(c) + rest) == Then([c], ParseChanges(rest))
  {
    hide Safe, Atoi, Padded;
    var fs := ChangeFields(c) + rest;
    assert fs[|ChangeFields(c)|..] == rest;
    PathNotEmpty(c.path);
    assert KindOf(StatusLetter(c.kind)) == c.kind;
    if TwoPaths(c.kind) {
      PathNotEmpty(c.previous);
      PaddedRead(c.similarity);
      PaddedReads(c.similarity);
      var code := [StatusLetter(c.kind)] + Padded(c.similarity);
      assert fs[0] == code && fs[1] == c.previous && fs[2] == c.path && code[1..] == Padded(c.similarity);
    } else {
      assert fs[0] == [StatusLetter(c.kind)] && fs[1] == c.path;
    }
  }

  lemma {:induction false} ChangesNulFree(cs: seq<Change>)
    requires forall c | c in cs :: ChangePrints(c)
    ensures forall f | f in NameStatusFields(cs) :: NUL !in f
  {
    hide Clean, Padded;
    if cs == [] {
    } else {
      var c := cs[0];
      assert c in cs;
      ChangesNulFree(cs[1..]);
      if TwoPaths(c.kind) {
        PaddedRead(c.similarity);
        var code := [StatusLetter(c.kind)] + Padded(c.similarity);
        assert forall i | 0 <= i < |code| :: code[i] != NUL;
      }
    }
  }

  /** Parsing what Git prints for a list of changes gives the list back, renames and copies with
      both their paths. */
  lemma NameStatusRoundTrip(cs: seq<Change>)
    requires forall c | c in cs :: ChangePrints(c)
    ensures ParseChanges(Fields(Terminated(NameStatusFields(cs)))) == Some(cs)
  {
    hide ChangePrints, Clean;
    ChangesNulFree(cs);
    FieldsReturn(NameStatusFields(cs));
    ChangesReturn(cs, [""]);
    assert [""][1..] == [] && ParseChanges([""]) == Some([]);
    ThenEnds(cs);
  }
}
