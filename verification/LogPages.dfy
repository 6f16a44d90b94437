/** Reading a log backwards, a page of lines at a time. */
module LogPages {
  import opened Lifecycle
  import opened ByteLines

  const DEFAULT_LINES: nat := 50

  function PageLimit(limit: int): nat { if limit <= 0 then DEFAULT_LINES else limit }

  /** The part of the log a request looks at. */
  function PageEnd(body: Bytes, before: Option<nat>): (end: nat)
    ensures end <= |body|
  {
    if before.Some? && before.value < |body| then before.value else |body|
  }

  function Segment(body: Bytes, end: nat): Bytes
    requires end <= |body|
  {
    if end > 0 && body[end - 1] == NEWLINE then body[..end - 1] else body[..end]
  }

  /** The lines of a log, each ended by a newline but perhaps the last. */
  function LogLines(s: Bytes): seq<Bytes> {
    Finished(s) + if Tail(s) == [] then [] else [Tail(s)]
  }

  lemma SegmentLines(body: Bytes, end: nat)
    requires 0 < end <= |body|
    ensures Lines(Segment(body, end)) == LogLines(body[..end])
  {
    if body[end - 1] == NEWLINE {
      assert body[..end] == body[..end - 1] + [NEWLINE];
      ScanNewline(body[..end - 1]);
    } else {
      assert body[..end][..end - 1] == body[..end - 1];
    }
  }

  /** What a page is: whole consecutive lines at the end of what it looks at, and a cursor
      exactly when something is left before them. */
  predicate IsPage(body: Bytes, end: nat, limit: nat, lines: seq<Bytes>, next: Option<nat>)
    requires end <= |body|
  {
    && |lines| <= limit
    && (next.Some? ==>
          && 0 < next.value < end && |lines| == limit
          && body[next.value] == NEWLINE
          && Lines(Segment(body, end)) == Lines(body[..next.value]) + lines)
    && (next.None? ==>
          Lines(Segment(body, end)) == (if end == 0 || body[0] == NEWLINE then [[]] else []) + lines)
  }

  method LastNewline(s: Bytes) returns (sep: int)
    ensures -1 <= sep < |s|
    ensures sep >= 0 ==> s[sep] == NEWLINE && Unbroken(s[sep + 1..])
    ensures sep < 0 ==> Unbroken(s)
  {
    sep := |s| - 1;
    while sep >= 0 && s[sep] != NEWLINE
      invariant -1 <= sep < |s| && Unbroken(s[sep + 1..])
    {
      assert s[sep..] == [s[sep]] + s[sep + 1..];
      sep := sep - 1;
    }
    assert s[0..] == s;
  }

  function Reversed(s: seq<Bytes>): (r: seq<Bytes>)
    ensures |r| == |s| && forall i | 0 <= i < |s| :: r[i] == s[|s| - 1 - i]
  {
    seq(|s|, i requires 0 <= i < |s| => s[|s| - 1 - i])
  }

  method ReverseLines(collected: seq<Bytes>) returns (lines: seq<Bytes>)
    ensures lines == Reversed(collected)
  {
    lines := collected;
    var left, right := 0, |lines| - 1;
    while left < right
      invariant |lines| == |collected| && 0 <= left && left + right == |lines| - 1
      invariant forall i | 0 <= i < |lines| && (i < left || right < i) :: lines[i] == collected[|lines| - 1 - i]
      invariant forall i | left <= i <= right :: lines[i] == collected[i]
    {
      lines := lines[left := lines[right]][right := lines[left]];
      left, right := left + 1, right - 1;
    }
  }

  lemma ReversedGrows(s: seq<Bytes>, x: Bytes)
    ensures Reversed(s + [x]) == [x] + Reversed(s)
  {
  }

  /** readAgentRunLog, once the file is read. */
  method ReadPage(body: Bytes, before: Option<nat>, limit: int) returns (lines: seq<Bytes>, next: Option<nat>)
    ensures IsPage(body, PageEnd(body, before), PageLimit(limit), lines, next)
  {
    var end := PageEnd(body, before);
    var segment := Segment(body, end);
    var collected: seq<Bytes> := [];
    var cut: int := |segment|;
    assert segment[..cut] == segment;
    while |collected| < PageLimit(limit) && cut > 0
      invariant -1 <= cut <= |segment| && |collected| <= PageLimit(limit)
      invariant cut < |segment| ==> collected != []
      invariant 0 <= cut < |segment| ==> segment[cut] == NEWLINE
      invariant cut >= 0 ==> Lines(segment) == Lines(segment[..cut]) + Reversed(collected)
      invariant cut < 0 ==> Lines(segment) == Reversed(collected) && segment != [] && segment[0] != NEWLINE
      decreases cut
    {
      var sep := LastNewline(segment[..cut]);
      var line := segment[sep + 1..cut];
      assert segment[..cut][sep + 1..] == line;
      if sep >= 0 {
        assert segment[..cut][..sep] == segment[..sep];
        LinesLast(segment[..cut], sep);
      } else {
        LinesWhole(segment[..cut]);
        assert line == segment[..cut] && segment[0] in segment[..cut];
      }
      ReversedGrows(collected, line);
      collected := collected + [line];
      cut := sep;
    }
    lines := ReverseLines(collected);
    if cut > 0 {
      assert segment[..cut] == body[..cut];
      next := Some(cut);
    } else {
      next := None;
      if cut == 0 {
        assert segment[..0] == [];
        assert Lines([]) == [[]];
      }
    }
  }

  // ---- following the cursors ----------------------------------------------------------

  /** One request: the log as it was then, and what came back. */
  datatype Page = Page(body: Bytes, before: Option<nat>, limit: nat, lines: seq<Bytes>, next: Option<nat>)

  predicate Answers(p: Page) {
    p.limit > 0 && IsPage(p.body, PageEnd(p.body, p.before), p.limit, p.lines, p.next)
  }

  predicate Prefix(a: Bytes, b: Bytes) { |a| <= |b| && b[..|a|] == a }

  /** Page q asks for what is before page p; the log may have grown meanwhile. */
  predicate Continues(p: Page, q: Page) {
    p.next.Some? && q.before == p.next && Prefix(p.body, q.body)
  }

  predicate ContinuesAt(pages: seq<Page>, i: nat)
    requires i + 1 < |pages|
  {
    Continues(pages[i], pages[i + 1])
  }

  predicate Followed(pages: seq<Page>) {
    && pages != [] && pages[0].before == None
    && (forall i | 0 <= i < |pages| :: Answers(pages[i]))
    && (forall i | 0 <= i < |pages| - 1 :: ContinuesAt(pages, i))
  }

  /** The pages joined, the oldest first. */
  function OldestFirst(pages: seq<Page>): seq<Bytes> {
    if pages == [] then [] else pages[|pages| - 1].lines + OldestFirst(pages[..|pages| - 1])
  }

  /** The start of the log that the pages so far leave unread. */
  function Unread(pages: seq<Page>): Bytes
    requires pages != []
  {
    var last := pages[|pages| - 1];
    if last.next.Some? && last.next.value <= |last.body| then last.body[..last.next.value] else []
  }

  /** An empty line that no page holds: it stands where a page ends, or at the start of the log. */
  predicate DropsLine(p: Page) {
    var end := PageEnd(p.body, p.before);
    if p.next.Some? then 0 < p.next.value <= |p.body| && p.body[p.next.value - 1] == NEWLINE
    else end > 0 && p.body[0] == NEWLINE
  }

  function Dropped(p: Page): seq<Bytes> { if DropsLine(p) then [[]] else [] }

  predicate DropsNone(pages: seq<Page>) { forall i | 0 <= i < |pages| :: !DropsLine(pages[i]) }

  /** The pages joined, with the empty lines that they drop. */
  function Completed(pages: seq<Page>): seq<Bytes> {
    if pages == [] then []
    else
      var last := pages[|pages| - 1];
      Dropped(last) + last.lines + Completed(pages[..|pages| - 1])
  }

  lemma PageSplits(p: Page)
    requires Answers(p)
    ensures var end := PageEnd(p.body, p.before);
      LogLines(p.body[..end]) == LogLines(Unread([p])) + Dropped(p) + p.lines
  {
    var end := PageEnd(p.body, p.before);
    BlankLine();
    if p.next.Some? {
      var c := p.next.value;
      SegmentLines(p.body, end);
      assert p.body[..c][..c - 1] == p.body[..c - 1];
    } else if end > 0 {
      SegmentLines(p.body, end);
      assert LogLines([]) == [];
    } else {
      assert p.body[..0] == [] && p.lines == [];
    }
  }

  lemma FrontFollowed(pages: seq<Page>)
    requires Followed(pages) && |pages| > 1
    ensures var n := |pages| - 1;
      Followed(pages[..n]) && Continues(pages[n - 1], pages[n]) && Answers(pages[n - 1]) && Answers(pages[n])
  {
    hide Answers, Continues;
    var n := |pages| - 1;
    assert ContinuesAt(pages, n - 1);
    assert forall i | 0 <= i < n - 1 :: ContinuesAt(pages, i) ==> ContinuesAt(pages[..n], i);
  }

  /** A further page reads the end of what the page before left. */
  lemma NextPageReads(p: Page, q: Page)
    requires Answers(p) && Answers(q) && Continues(p, q)
    ensures LogLines(Unread([p])) == LogLines(Unread([q])) + Dropped(q) + q.lines
    ensures q.next.Some? ==> q.next.value < p.next.value
  {
    hide LogLines, Dropped;
    PageSplits(q);
    var c := p.next.value;
    assert c < |p.body|;
    hide IsPage;
    assert q.body[..c] == p.body[..c];
    assert PageEnd(q.body, q.before) == c && Unread([p]) == p.body[..c];
  }

  lemma LastUnread(pages: seq<Page>)
    requires pages != []
    ensures Unread(pages) == Unread([pages[|pages| - 1]])
  {
  }

  /** Whatever was asked and however the log grew, the unread start and the pages together hold the
      lines that the log had at the first request, in file order, but for one empty line wherever
      a page drops one. */
  lemma {:induction false} PagesCover(pages: seq<Page>)
    requires pages != [] && Followed(pages)
    ensures LogLines(pages[0].body) == LogLines(Unread(pages)) + Completed(pages)
    decreases |pages|
  {
    hide Followed, Answers, Continues, Unread, LogLines, Dropped, Completed;
    var n := |pages| - 1;
    if n == 0 {
      FirstPage(pages);
    } else {
      FrontFollowed(pages);
      PagesCover(pages[..n]);
      LastUnread(pages);
      LastUnread(pages[..n]);
      NextPageReads(pages[n - 1], pages[n]);
      CompletedMore(LogLines(Unread(pages)), pages);
    }
  }

  lemma CompletedMore(unread: seq<Bytes>, pages: seq<Page>)
    requires pages != []
    ensures var n := |pages| - 1;
      unread + Dropped(pages[n]) + pages[n].lines + Completed(pages[..n]) == unread + Completed(pages)
  {
    hide Dropped;
    var n := |pages| - 1;
    Regrouped(unread, Dropped(pages[n]), pages[n].lines, Completed(pages[..n]));
  }

  lemma Regrouped<T>(a: seq<T>, b: seq<T>, c: seq<T>, d: seq<T>)
    ensures a + b + c + d == a + (b + c + d)
  {
  }

  lemma FirstPage(pages: seq<Page>)
    requires Followed(pages) && |pages| == 1
    ensures LogLines(pages[0].body) == LogLines(Unread(pages)) + Completed(pages)
  {
    hide LogLines, Dropped, IsPage;
    var p := pages[0];
    assert Answers(p);
    PageSplits(p);
    hide Unread, Followed;
    assert p.body[..|p.body|] == p.body && pages == [p];
    assert pages[..0] == [] && Completed(pages) == Dropped(p) + p.lines;
  }

  lemma DroppedIsBlank(p: Page)
    ensures NonEmpty(Dropped(p)) == [] && NonEmpty([]) == []
  {
    BlankLine();
  }

  /** The dropped lines are empty, */
  lemma {:induction false} DroppedAreEmpty(pages: seq<Page>)
    ensures NonEmpty(Completed(pages)) == NonEmpty(OldestFirst(pages))
  {
    hide NonEmpty, Dropped;
    if pages == [] {
    } else {
      var n := |pages| - 1;
      DroppedAreEmpty(pages[..n]);
      DroppedIsBlank(pages[n]);
      NonEmptyAppend(Dropped(pages[n]) + pages[n].lines, Completed(pages[..n]));
      NonEmptyAppend(Dropped(pages[n]), pages[n].lines);
      NonEmptyAppend(pages[n].lines, OldestFirst(pages[..n]));
    }
  }

  /** and all that the pages lack. */
  lemma {:induction false} OnlyDroppedLack(pages: seq<Page>)
    ensures DropsNone(pages) ==> Completed(pages) == OldestFirst(pages)
    ensures |Completed(pages)| >= |OldestFirst(pages)|
    ensures !DropsNone(pages) ==> |Completed(pages)| > |OldestFirst(pages)|
  {
    hide DropsLine;
    if pages == [] {
    } else {
      var n := |pages| - 1;
      OnlyDroppedLack(pages[..n]);
      assert DropsNone(pages) <==> DropsNone(pages[..n]) && !DropsLine(pages[n]);
    }
  }

  lemma NothingUnread(pages: seq<Page>)
    requires pages != [] && pages[|pages| - 1].next == None
    ensures LogLines(Unread(pages)) == []
  {
  }

  /** Following the cursors to the end visits every non-empty line exactly once, in file order; and
      it visits all lines exactly when no page drops an empty one. */
  lemma PagingIsComplete(pages: seq<Page>)
    requires pages != [] && Followed(pages) && pages[|pages| - 1].next == None
    ensures NonEmpty(OldestFirst(pages)) == NonEmpty(LogLines(pages[0].body))
    ensures OldestFirst(pages) == LogLines(pages[0].body) <==> DropsNone(pages)
  {
    hide *;
    PagesCover(pages);
    NothingUnread(pages);
    assert LogLines(pages[0].body) == Completed(pages);
    DroppedAreEmpty(pages);
    OnlyDroppedLack(pages);
  }

  const GAP: Bytes := [97, NEWLINE, NEWLINE, 98, NEWLINE]

  lemma GapLines()
    ensures LogLines(GAP) == [[97], [], [98]] && Lines(GAP[..4]) == [[97], [], [98]]
    ensures Lines(GAP[..2]) == [[97], []] && Lines(GAP[..1]) == [[97]]
  {
    assert GAP[..1] == [97] && GAP[..2] == [97] + [NEWLINE] && GAP[..3] == GAP[..2] + [NEWLINE];
    assert GAP[..4] == GAP[..3] + [98] && GAP == GAP[..4] + [NEWLINE];
    assert [] + [97] == [97] && [] + [98] == [98];
    ScanPart([], [97]);
    ScanNewline([97]);
    ScanNewline(GAP[..2]);
    ScanPart(GAP[..3], [98]);
    ScanNewline(GAP[..4]);
  }

  /** Reading the lines "a", "" and "b" one by one loses the empty one. */
  lemma EmptyLineDropped()
    ensures var pages := [Page(GAP, None, 1, [[98]], Some(2)), Page(GAP, Some(2), 1, [[97]], None)];
      Followed(pages) && OldestFirst(pages) == [[97], [98]] && LogLines(GAP) == [[97], [], [98]]
  {
    GapLines();
    hide Lines, LogLines;
    var p, q := Page(GAP, None, 1, [[98]], Some(2)), Page(GAP, Some(2), 1, [[97]], None);
    var pages := [p, q];
    assert Segment(GAP, 5) == GAP[..4] && Segment(GAP, 2) == GAP[..1];
    assert Lines(GAP[..4]) == Lines(GAP[..2]) + [[98]];
    assert [[97]] == [] + [[97]];
    assert Answers(pages[0]) && Answers(pages[1]) && Continues(pages[0], pages[1]);
    hide Answers, Continues, Segment;
    assert forall i | 0 <= i < |pages| - 1 :: ContinuesAt(pages, i);
    assert pages[..1] == [p] && OldestFirst([p]) == [[98]] by {
      assert [p][..0] == [];
    }
    assert OldestFirst(pages) == [[97]] + [[98]];
  }

  /** The cursors fall strictly, so there are at most as many pages as bytes. */
  lemma {:induction false} PagingEnds(pages: seq<Page>)
    requires Followed(pages)
    ensures pages[|pages| - 1].next.Some? ==> pages[|pages| - 1].next.value + |pages| <= |pages[0].body|
    ensures |pages| <= |pages[0].body| + 1
    decreases |pages|
  {
    var n := |pages| - 1;
    if n == 0 {
      assert Answers(pages[0]);
    } else {
      hide Followed;
      FrontFollowed(pages);
      PagingEnds(pages[..n]);
      NextPageReads(pages[n - 1], pages[n]);
    }
  }
}
