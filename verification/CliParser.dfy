/** The streaming parser of an agent's output: chunks in, lines out. */
module CliParser {
  import opened ByteLines

  const MAX_EVENT_BYTES: nat := 0x10_0000

  predicate Fits(line: Bytes) { |line| <= MAX_EVENT_BYTES }

  /** The lines that are not too long. */
  function Fitting(lines: seq<Bytes>): seq<Bytes> {
    if lines == [] then []
    else Fitting(lines[..|lines| - 1]) + if Fits(lines[|lines| - 1]) then [lines[|lines| - 1]] else []
  }

  predicate AnyOversized(lines: seq<Bytes>) {
    exists i | 0 <= i < |lines| :: !Fits(lines[i])
  }

  method IndexOfNewline(s: Bytes) returns (i: nat)
    ensures i <= |s| && Unbroken(s[..i]) && (i < |s| ==> s[i] == NEWLINE)
  {
    i := 0;
    while i < |s| && s[i] != NEWLINE
      invariant i <= |s| && Unbroken(s[..i])
    {
      assert s[..i + 1] == s[..i] + [s[i]];
      i := i + 1;
    }
  }

  /** `parsed` records the lines handed to parseLine; `stream` is a history variable with
      everything written so far. */
  class OutputParser {
    var line: Bytes
    var discarding: bool
    var hadOutput: bool
    var partialLine: bool
    var newlineCount: nat
    var oversized: bool
    var parsed: seq<Bytes>
    ghost var stream: Bytes

    /** The parser has read exactly `stream`, in whatever chunks it came. */
    ghost predicate Reading()
      reads this
    {
      && parsed == Fitting(Finished(stream))
      && newlineCount == |Finished(stream)|
      && hadOutput == (stream != [])
      && oversized == (AnyOversized(Finished(stream)) || !Fits(Tail(stream)))
      && discarding == !Fits(Tail(stream))
      && line == (if Fits(Tail(stream)) then Tail(stream) else [])
      && !partialLine
    }

    constructor ()
      ensures Reading() && stream == []
    {
      line, discarding, hadOutput, partialLine := [], false, false, false;
      newlineCount, oversized, parsed, stream := 0, false, [], [];
    }

    /** Takes the part of a line that a chunk holds. */
    method Take(part: Bytes)
      requires Reading() && Unbroken(part)
      modifies this
      ensures Reading() && stream == old(stream) + part
    {
      ScanPart(stream, part);
      if !discarding {
        if |part| > MAX_EVENT_BYTES - |line| {
          line := [];
          discarding := true;
          oversized := true;
        } else {
          line := line + part;
        }
      }
      hadOutput := hadOutput || part != [];
      stream := stream + part;
    }

    /** Ends the line at a newline. */
    method EndLine()
      requires Reading()
      modifies this
      ensures Reading() && stream == old(stream) + [NEWLINE]
    {
      ScanNewline(stream);
      var lines := Finished(stream) + [Tail(stream)];
      assert lines[..|lines| - 1] == Finished(stream);
      newlineCount := newlineCount + 1;
      if !discarding {
        parsed := parsed + [line];
      }
      line := [];
      discarding := false;
      hadOutput := true;
      stream := stream + [NEWLINE];
    }

    method Write(chunk: Bytes)
      requires Reading()
      modifies this
      ensures Reading() && stream == old(stream) + chunk
    {
      hide Reading;
      var rest := chunk;
      while rest != []
        invariant Reading() && stream + rest == old(stream) + chunk
        decreases |rest|
      {
        var newline := IndexOfNewline(rest);
        Take(rest[..newline]);
        if newline == |rest| {
          assert stream == old(stream) + chunk;
          return;
        }
        assert rest == rest[..newline] + [NEWLINE] + rest[newline + 1..];
        EndLine();
        rest := rest[newline + 1..];
      }
    }

    method Finish()
      requires Reading()
      modifies this
      ensures parsed == Fitting(Finished(stream)) + (if Tail(stream) != [] && Fits(Tail(stream)) then [Tail(stream)] else [])
      ensures stream == old(stream) && newlineCount == old(newlineCount) && hadOutput == old(hadOutput)
      ensures oversized == exists l | l in Lines(stream) :: !Fits(l)
      ensures line == [] && discarding == !Fits(Tail(stream)) && partialLine == (Tail(stream) != [])
    {
      partialLine := |line| > 0 || discarding;
      if !discarding && |line| > 0 {
        parsed := parsed + [line];
      }
      line := [];
      assert Lines(stream)[|Finished(stream)|] == Tail(stream);
      assert forall i | 0 <= i < |Finished(stream)| :: Lines(stream)[i] == Finished(stream)[i];
    }

    /** Before or after Finish: the newlines, and one more for a tail. */
    method OutputLines() returns (n: nat)
      requires newlineCount == |Finished(stream)| && hadOutput == (stream != [])
      requires partialLine || line != [] || discarding <==> Tail(stream) != []
      ensures n == |Finished(stream)| + if Tail(stream) != [] then 1 else 0
    {
      if !hadOutput {
        return 0;
      }
      n := if partialLine || |line| > 0 || discarding then newlineCount + 1 else newlineCount;
    }
  }

  function Concat(chunks: seq<Bytes>): Bytes {
    if chunks == [] then [] else Concat(chunks[..|chunks| - 1]) + chunks[|chunks| - 1]
  }

  /** However a stream is cut into chunks, the parser hands over the lines that splitting the whole
      stream gives, less those that are too long, and the last one if it has no newline. */
  method ParseChunks(chunks: seq<Bytes>) returns (parsed: seq<Bytes>, oversized: bool, outputLines: nat)
    ensures var s := Concat(chunks);
      && parsed == Fitting(Finished(s)) + (if Tail(s) != [] && Fits(Tail(s)) then [Tail(s)] else [])
      && (oversized <==> exists l | l in Lines(s) :: !Fits(l))
      && outputLines == |Finished(s)| + if Tail(s) != [] then 1 else 0
  {
    var parser := new OutputParser();
    for n := 0 to |chunks|
      invariant fresh(parser) && parser.Reading() && parser.stream == Concat(chunks[..n])
    {
      assert chunks[..n + 1][..n] == chunks[..n];
      parser.Write(chunks[n]);
    }
    assert chunks[..|chunks|] == chunks;
    parser.Finish();
    parsed, oversized := parser.parsed, parser.oversized;
    outputLines := parser.OutputLines();
  }
}
