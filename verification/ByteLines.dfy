/** Byte streams and the lines they are made of. */
module ByteLines {

  newtype byte = b: int | 0 <= b < 256

  type Bytes = seq<byte>

  const NEWLINE: byte := 10

  predicate Unbroken(s: Bytes) { NEWLINE !in s }

  /** The finished lines of a stream, without their newlines, and the unfinished tail. */
  function Scan(s: Bytes): (seq<Bytes>, Bytes) {
    if s == [] then ([], [])
    else
      var (lines, tail) := Scan(s[..|s| - 1]);
      var b := s[|s| - 1];
      if b == NEWLINE then (lines + [tail], []) else (lines, tail + [b])
  }

  function Finished(s: Bytes): seq<Bytes> { Scan(s).0 }

  function Tail(s: Bytes): Bytes { Scan(s).1 }

  lemma {:induction false} ScanPart(s: Bytes, part: Bytes)
    requires Unbroken(part)
    ensures Scan(s + part) == (Finished(s), Tail(s) + part)
  {
    if part == [] {
      assert s + part == s && Tail(s) + part == Tail(s);
    } else {
      var n := |part| - 1;
      ScanPart(s, part[..n]);
      assert (s + part)[..|s + part| - 1] == s + part[..n];
      assert part[n] in part;
      assert (Tail(s) + part[..n]) + [part[n]] == Tail(s) + part;
    }
  }

  lemma ScanNewline(s: Bytes)
    ensures Scan(s + [NEWLINE]) == (Finished(s) + [Tail(s)], [])
  {
  }

  /** The stream that a list of lines and a tail make. */
  function Joined(lines: seq<Bytes>, tail: Bytes): Bytes {
    if lines == [] then tail else Joined(lines[..|lines| - 1], lines[|lines| - 1] + [NEWLINE] + tail)
  }

  lemma {:induction false} JoinedAppend(lines: seq<Bytes>, x: Bytes, y: Bytes)
    ensures Joined(lines, x + y) == Joined(lines, x) + y
  {
    if lines == [] {
    } else {
      var n := |lines| - 1;
      JoinedAppend(lines[..n], lines[n] + [NEWLINE] + x, y);
      assert lines[n] + [NEWLINE] + (x + y) == lines[n] + [NEWLINE] + x + y;
    }
  }

  /** Scanning splits: the lines hold no newline and make up the stream. */
  lemma {:induction false} ScanSplits(s: Bytes)
    ensures Unbroken(Tail(s)) && forall i | 0 <= i < |Finished(s)| :: Unbroken(Finished(s)[i])
    ensures Joined(Finished(s), Tail(s)) == s
  {
    if s == [] {
    } else {
      var t := s[..|s| - 1];
      ScanSplits(t);
      var b := s[|s| - 1];
      if b == NEWLINE {
        assert Finished(s)[..|Finished(s)| - 1] == Finished(t);
        assert Tail(t) + [NEWLINE] + [] == Tail(t) + [NEWLINE];
      }
      JoinedAppend(Finished(t), Tail(t), [b]);
      assert t + [b] == s;
    }
  }

  /** And it is the only splitting. */
  lemma {:induction false} ScanUnique(lines: seq<Bytes>, tail: Bytes)
    requires Unbroken(tail) && forall i | 0 <= i < |lines| :: Unbroken(lines[i])
    ensures Scan(Joined(lines, tail)) == (lines, tail)
  {
    if lines == [] {
      ScanPart([], tail);
      assert [] + tail == tail;
    } else {
      var n := |lines| - 1;
      ScanUnique(lines[..n], lines[n]);
      var head := Joined(lines[..n], lines[n]);
      JoinedAppend(lines[..n], lines[n], [NEWLINE] + tail);
      assert lines[n] + ([NEWLINE] + tail) == lines[n] + [NEWLINE] + tail;
      assert head + ([NEWLINE] + tail) == head + [NEWLINE] + tail;
      ScanNewline(head);
      ScanPart(head + [NEWLINE], tail);
      assert lines == lines[..n] + [lines[n]] && [] + tail == tail;
    }
  }

  /** All lines of a stream, its tail last. */
  function Lines(s: Bytes): seq<Bytes> { Finished(s) + [Tail(s)] }

  lemma LinesLast(s: Bytes, sep: nat)
    requires sep < |s| && s[sep] == NEWLINE && Unbroken(s[sep + 1..])
    ensures Lines(s) == Lines(s[..sep]) + [s[sep + 1..]]
  {
    ScanNewline(s[..sep]);
    ScanPart(s[..sep] + [NEWLINE], s[sep + 1..]);
    assert s == s[..sep] + [NEWLINE] + s[sep + 1..];
    assert [] + s[sep + 1..] == s[sep + 1..];
  }

  lemma LinesWhole(s: Bytes)
    requires Unbroken(s)
    ensures Lines(s) == [s]
  {
    ScanPart([], s);
    assert [] + s == s;
  }

  function NonEmpty(lines: seq<Bytes>): seq<Bytes> {
    if lines == [] then []
    else NonEmpty(lines[..|lines| - 1]) + if lines[|lines| - 1] == [] then [] else [lines[|lines| - 1]]
  }

  lemma {:induction false} NonEmptyAppend(x: seq<Bytes>, y: seq<Bytes>)
    ensures NonEmpty(x + y) == NonEmpty(x) + NonEmpty(y)
  {
    if y == [] {
      assert x + y == x;
    } else {
      NonEmptyAppend(x, y[..|y| - 1]);
      assert (x + y)[..|x + y| - 1] == x + y[..|y| - 1];
    }
  }

  lemma BlankLine()
    ensures Lines([]) == [[]] && NonEmpty([[]]) == []
  {
  }
}
