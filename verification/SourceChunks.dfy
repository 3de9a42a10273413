/** Overlapping windows with paragraph back-off, and the chunks cut from them (application/sources/service.py). */
module SourceChunks {
  import opened Wrappers
  import opened PyText

  // The keys that chunk metadata and segment locators use, and the values stored under them.
  datatype MetaKey = CharStart | CharEnd | PageNumber | EvidenceType | ParserVersion | ChunkVersion | EmbeddingVersion

  datatype MetaValue = Absent | Number(number: int) | Label(name: string)

  type Metadata = map<MetaKey, MetaValue>

  datatype Chunk = Chunk(ordinal: nat, content: string, charStart: nat, charEnd: nat,
                         pageNumber: Option<int>, metadata: Metadata)

  datatype Window = Window(start: nat, end: nat)

  datatype ChunkError = InvalidLimits

  const TEXT_SPAN := Label("TEXT_SPAN")

  const EVIDENCE: Metadata := map[EvidenceType := TEXT_SPAN]

  predicate ValidLimits(size: int, overlap: int) {
    size > 0 && 0 <= overlap < size
  }

  /** Where the window that opens at start closes: at a paragraph break in its second half, else at its full size. */
  function WindowEnd(text: string, start: nat, size: nat): (end: nat)
    requires start < |text| && size > 0
    ensures start < end <= |text| && end - start <= size
    ensures end < |text| ==> end - start > size / 2
  {
    var hardEnd := Min(start + size, |text|);
    var paragraphEnd := if hardEnd < |text| then RFindBreak(text, start, hardEnd) else -1;
    if paragraphEnd > start + size / 2 then paragraphEnd else hardEnd
  }

  function Windows(text: string, start: nat, size: nat, overlap: nat): seq<Window>
    requires ValidLimits(size, overlap)
    decreases |text| - start
  {
    if start >= |text| then []
    else
      var end := WindowEnd(text, start, size);
      [Window(start, end)] + if end >= |text| then [] else Windows(text, NextStart(start, end, overlap), size, overlap)
  }

  function NextStart(start: nat, end: nat, overlap: nat): nat { Max(end - overlap, start + 1) }

  function Following(text: string, start: nat, size: nat, overlap: nat): seq<Window>
    requires ValidLimits(size, overlap) && start < |text|
  {
    var end := WindowEnd(text, start, size);
    if end >= |text| then [] else Windows(text, NextStart(start, end, overlap), size, overlap)
  }

  lemma Unroll(text: string, start: nat, size: nat, overlap: nat)
    requires ValidLimits(size, overlap) && start < |text|
    ensures var ws := Windows(text, start, size, overlap);
            ws != [] && ws[0] == Window(start, WindowEnd(text, start, size)) && ws[1..] == Following(text, start, size, overlap)
  {
    var w := Window(start, WindowEnd(text, start, size));
    assert Windows(text, start, size, overlap) == [w] + Following(text, start, size, overlap);
  }

  predicate InText(text: string, windows: seq<Window>) {
    forall i | 0 <= i < |windows| :: windows[i].start < windows[i].end <= |text|
  }

  function ChunkAt(text: string, w: Window, ordinal: nat): Chunk
    requires w.start < w.end <= |text|
  {
    Chunk(ordinal, Strip(text[w.start..w.end]), w.start, w.end, None, EVIDENCE)
  }

  /** One chunk for each window that is not blank, numbered from ordinal. */
  function ChunksOf(text: string, ws: seq<Window>, ordinal: nat): seq<Chunk>
    requires InText(text, ws)
  {
    if ws == [] then []
    else if ChunkAt(text, ws[0], ordinal).content == "" then ChunksOf(text, ws[1..], ordinal)
    else [ChunkAt(text, ws[0], ordinal)] + ChunksOf(text, ws[1..], ordinal + 1)
  }

  /** Windows that open at start, close at the end of the text, always move on and leave no gap. */
  ghost predicate Tiling(text: string, ws: seq<Window>, start: nat, size: nat, overlap: nat) {
    && (start < |text| ==> ws != [] && ws[0].start == start && ws[|ws| - 1].end == |text|)
    && (forall i | 0 <= i < |ws| :: start <= ws[i].start < ws[i].end <= |text| && ws[i].end - ws[i].start <= size)
    && (forall i, j | 0 <= i && j == i + 1 < |ws| ::
          && ws[i].start < ws[j].start <= ws[i].end
          && ws[i].end - ws[j].start <= overlap)
  }

  lemma {:induction false} WindowsTile(text: string, start: nat, size: nat, overlap: nat)
    requires ValidLimits(size, overlap)
    ensures Tiling(text, Windows(text, start, size, overlap), start, size, overlap)
    decreases |text| - start
  {
    if start < |text| {
      var end := WindowEnd(text, start, size);
      var ws := Windows(text, start, size, overlap);
      if end < |text| {
        var next := NextStart(start, end, overlap);
        WindowsTile(text, next, size, overlap);
        TilingCons(text, Window(start, end), Windows(text, next, size, overlap), next, size, overlap);
      } else {
        assert ws == [Window(start, end)];
      }
    }
  }

  lemma TilingCons(text: string, w: Window, rest: seq<Window>, next: nat, size: nat, overlap: nat)
    requires Tiling(text, rest, next, size, overlap) && next < |text|
    requires w.start < next <= w.end < |text| && w.end - next <= overlap && w.end - w.start <= size
    ensures Tiling(text, [w] + rest, w.start, size, overlap)
  {
    var ws := [w] + rest;
    assert forall i | 0 < i < |ws| :: ws[i] == rest[i - 1];
  }

  lemma {:induction false} WindowsInText(text: string, start: nat, size: nat, overlap: nat)
    requires ValidLimits(size, overlap)
    ensures InText(text, Windows(text, start, size, overlap))
  {
    WindowsTile(text, start, size, overlap);
  }

  function ChunkText(text: string, size: nat, overlap: nat): seq<Chunk>
    requires ValidLimits(size, overlap)
  {
    WindowsInText(text, 0, size, overlap);
    ChunksOf(text, Windows(text, 0, size, overlap), 0)
  }

  /** The chunks are those cut so far and those of the windows from start on. */
  ghost predicate Remaining(text: string, size: nat, overlap: nat, all: seq<Chunk>, done: seq<Chunk>, start: nat, ordinal: nat)
    requires ValidLimits(size, overlap)
  {
    var ws := Windows(text, start, size, overlap);
    InText(text, ws) && all == done + ChunksOf(text, ws, ordinal)
  }

  /** A window that is not blank moves its chunk from the work that remains to the work that is done. */
  lemma WindowStep(text: string, size: nat, overlap: nat, all: seq<Chunk>, done: seq<Chunk>, start: nat, ordinal: nat)
    requires ValidLimits(size, overlap) && start < |text| && Remaining(text, size, overlap, all, done, start, ordinal)
    ensures var end := WindowEnd(text, start, size);
            var c := ChunkAt(text, Window(start, end), ordinal);
            var now, next := if c.content == "" then done else done + [c], if c.content == "" then ordinal else ordinal + 1;
            if end >= |text| then all == now else Remaining(text, size, overlap, all, now, NextStart(start, end, overlap), next)
  {
    hide WindowEnd, NextStart;
    Unroll(text, start, size, overlap);
    var ws := Windows(text, start, size, overlap);
    var rest := ws[1..];
    assert forall i | 0 <= i < |rest| :: rest[i] == ws[i + 1];
    var c := ChunkAt(text, ws[0], ordinal);
    if c.content == "" {
      assert ChunksOf(text, ws, ordinal) == ChunksOf(text, rest, ordinal);
    } else {
      assert ChunksOf(text, ws, ordinal) == [c] + ChunksOf(text, rest, ordinal + 1);
      assert done + ([c] + ChunksOf(text, rest, ordinal + 1)) == (done + [c]) + ChunksOf(text, rest, ordinal + 1);
    }
  }

  lemma NothingRemains(text: string, size: nat, overlap: nat, all: seq<Chunk>, done: seq<Chunk>, start: nat, ordinal: nat)
    requires ValidLimits(size, overlap) && start >= |text| && Remaining(text, size, overlap, all, done, start, ordinal)
    ensures all == done
  {
  }

  method BuildSourceChunks(text: string, size: int, overlap: int) returns (r: Result<seq<Chunk>, ChunkError>)
    ensures r == if ValidLimits(size, overlap) then Ok(ChunkText(text, size, overlap)) else Err(InvalidLimits)
    ensures r.Err? <==> size <= 0 || overlap < 0 || overlap >= size
  {
    hide Remaining, Strip;
    if size <= 0 || !(0 <= overlap < size) {
      return Err(InvalidLimits);
    }
    var chunks: seq<Chunk>, start: nat, ordinal: nat := [], 0, 0;
    ghost var all := ChunkText(text, size, overlap);
    AllRemains(text, size, overlap);
    while start < |text|
      invariant Remaining(text, size, overlap, all, chunks, start, ordinal)
    {
      WindowStep(text, size, overlap, all, chunks, start, ordinal);
      var hardEnd := Min(start + size, |text|);
      var end := hardEnd;
      if hardEnd < |text| {
        var paragraphEnd := RFindBreak(text, start, hardEnd);
        if paragraphEnd > start + size / 2 {
          end := paragraphEnd;
        }
      }
      assert end == WindowEnd(text, start, size);
      var content := Strip(text[start..end]);
      if content != "" {
        chunks := chunks + [Chunk(ordinal, content, start, end, None, EVIDENCE)];
        ordinal := ordinal + 1;
      }
      if end >= |text| {
        return Ok(chunks);
      }
      start := NextStart(start, end, overlap);
    }
    NothingRemains(text, size, overlap, all, chunks, start, ordinal);
    r := Ok(chunks);
  }

  lemma AllRemains(text: string, size: nat, overlap: nat)
    requires ValidLimits(size, overlap)
    ensures Remaining(text, size, overlap, ChunkText(text, size, overlap), [], 0, 0)
  {
    hide Windows;
    WindowsInText(text, 0, size, overlap);
    assert ChunkText(text, size, overlap) == [] + ChunksOf(text, Windows(text, 0, size, overlap), 0);
  }

  /** A window ends at the last paragraph break of its second half, if the text goes on behind its full size and there is such a break, and
      otherwise at its full size or the end of the text. */
  ghost predicate EndsAtBreak(text: string, w: Window, size: nat) {
    if w.start + size >= |text| then w.end == |text|
    else if exists p :: w.start + size / 2 < p <= w.start + size - 2 && BreakAt(text, p) then
      && w.start + size / 2 < w.end <= w.start + size - 2 && BreakAt(text, w.end)
      && forall p | w.end < p <= w.start + size - 2 :: !BreakAt(text, p)
    else w.end == w.start + size
  }

  /** The window starts the overlap before the end of the one before it, but at least one character later than that one. */
  predicate Continues(before: Window, w: Window, overlap: nat) {
    w.start == if before.end - overlap > before.start then before.end - overlap else before.start + 1
  }

  /** Every window ends where it should, the last one and only that one at the end of the text, and every other one is continued. */
  lemma {:induction false} WindowsAreExact(text: string, start: nat, size: nat, overlap: nat)
    requires ValidLimits(size, overlap)
    ensures var ws := Windows(text, start, size, overlap);
            && (forall i | 0 <= i < |ws| :: EndsAtBreak(text, ws[i], size) && (i == |ws| - 1 <==> ws[i].end >= |text|))
            && (forall i, j | 0 <= i && j == i + 1 < |ws| :: Continues(ws[i], ws[j], overlap))
    decreases |text| - start
  {
    hide EndsAtBreak, Continues, WindowEnd, NextStart, Windows;
    if start < |text| {
      Unroll(text, start, size, overlap);
      var w := Window(start, WindowEnd(text, start, size));
      WindowEndIsExact(text, start, size);
      if w.end < |text| {
        var next := NextStart(start, w.end, overlap);
        NextContinues(w, if next < |text| then WindowEnd(text, next, size) else 0, overlap);
        NextAdvances(w, overlap);
        WindowsAreExact(text, next, size, overlap);
        Unroll(text, next, size, overlap);
        ExactCons(text, w, Windows(text, next, size, overlap), size, overlap);
      }
      assert Windows(text, start, size, overlap) == [w] + Following(text, start, size, overlap);
    } else {
      assert Windows(text, start, size, overlap) == [] by { NoWindows(text, start, size, overlap); }
    }
  }

  lemma NoWindows(text: string, start: nat, size: nat, overlap: nat)
    requires ValidLimits(size, overlap) && start >= |text|
    ensures Windows(text, start, size, overlap) == []
  {
  }

  lemma NextContinues(w: Window, end: nat, overlap: nat)
    ensures Continues(w, Window(NextStart(w.start, w.end, overlap), end), overlap)
  {
  }

  lemma NextAdvances(w: Window, overlap: nat)
    ensures NextStart(w.start, w.end, overlap) > w.start
  {
  }

  lemma ExactCons(text: string, w: Window, rest: seq<Window>, size: nat, overlap: nat)
    requires EndsAtBreak(text, w, size) && w.end < |text| && rest != [] && Continues(w, rest[0], overlap)
    requires forall i | 0 <= i < |rest| :: EndsAtBreak(text, rest[i], size) && (i == |rest| - 1 <==> rest[i].end >= |text|)
    requires forall i, j | 0 <= i && j == i + 1 < |rest| :: Continues(rest[i], rest[j], overlap)
    ensures var ws := [w] + rest;
            && (forall i | 0 <= i < |ws| :: EndsAtBreak(text, ws[i], size) && (i == |ws| - 1 <==> ws[i].end >= |text|))
            && (forall i, j | 0 <= i && j == i + 1 < |ws| :: Continues(ws[i], ws[j], overlap))
  {
    hide EndsAtBreak, Continues;
    var ws := [w] + rest;
    assert forall i | 0 < i < |ws| :: ws[i] == rest[i - 1];
  }

  lemma WindowEndIsExact(text: string, start: nat, size: nat)
    requires start < |text| && size > 0
    ensures EndsAtBreak(text, Window(start, WindowEnd(text, start, size)), size)
  {
  }

  /** With at most half of the window shared, the ends increase strictly as well as the starts. */
  lemma {:induction false} EndsIncrease(text: string, start: nat, size: nat, overlap: nat)
    requires ValidLimits(size, overlap) && overlap <= size / 2
    ensures var ws := Windows(text, start, size, overlap); forall i, j | 0 <= i && j == i + 1 < |ws| :: ws[i].end < ws[j].end
    decreases |text| - start
  {
    if start < |text| {
      Unroll(text, start, size, overlap);
      var end := WindowEnd(text, start, size);
      var ws := Windows(text, start, size, overlap);
      if end < |text| {
        var next := NextStart(start, end, overlap);
        EndsIncrease(text, next, size, overlap);
        Unroll(text, next, size, overlap);
        var rest := Windows(text, next, size, overlap);
        assert forall i | 0 < i < |ws| :: ws[i] == rest[i - 1];
      }
    }
  }

  /** The text of the windows with each one cut where the one before it stopped. */
  function DropOverlaps(text: string, windows: seq<Window>, from: nat): string {
    if windows == [] then ""
    else
      var end := windows[0].end;
      (if from <= end <= |text| then text[from..end] else "") + DropOverlaps(text, windows[1..], end)
  }

  lemma {:induction false} DroppedOverlapsRebuild(text: string, start: nat, from: nat, size: nat, overlap: nat)
    requires ValidLimits(size, overlap) && overlap <= size / 2
    requires start < |text| && from < WindowEnd(text, start, size)
    ensures DropOverlaps(text, Windows(text, start, size, overlap), from) == text[from..]
    decreases |text| - start
  {
    hide WindowEnd;
    Unroll(text, start, size, overlap);
    var end := WindowEnd(text, start, size);
    if end < |text| {
      var next := NextStart(start, end, overlap);
      DroppedOverlapsRebuild(text, next, end, size, overlap);
      assert text[from..] == text[from..end] + text[end..];
    } else {
      assert text[from..] == text[from..end] + "";
    }
  }

  /** Dropping the overlaps gives back the whole text. */
  lemma {:induction false} WindowsRebuildText(text: string, size: nat, overlap: nat)
    requires ValidLimits(size, overlap) && overlap <= size / 2
    ensures DropOverlaps(text, Windows(text, 0, size, overlap), 0) == text
  {
    if text != "" {
      DroppedOverlapsRebuild(text, 0, 0, size, overlap);
    }
  }

  /** Every window but the last moves on by at least size/2 + 1 - overlap, which bounds their number. */
  lemma {:induction false} WindowCount(text: string, start: nat, size: nat, overlap: nat)
    requires ValidLimits(size, overlap) && overlap <= size / 2 && start < |text|
    ensures (|Windows(text, start, size, overlap)| - 1) * (size / 2 + 1 - overlap) < |text| - start
    decreases |text| - start
  {
    hide WindowEnd;
    Unroll(text, start, size, overlap);
    var stride := size / 2 + 1 - overlap;
    var end := WindowEnd(text, start, size);
    if end < |text| {
      var next := NextStart(start, end, overlap);
      WindowCount(text, next, size, overlap);
      StrideSum(|Windows(text, next, size, overlap)|, stride);
    }
  }

  lemma StrideSum(n: nat, stride: nat)
    ensures n * stride == (n - 1) * stride + stride
  {
  }

  /** The stored span of a chunk reads back as its content. */
  ghost predicate Evident(stored: string, c: Chunk) {
    && c.charStart < c.charEnd <= |stored|
    && c.content == Strip(stored[c.charStart..c.charEnd]) != ""
  }

  ghost predicate Numbered(chunks: seq<Chunk>, from: nat) {
    forall i | 0 <= i < |chunks| :: chunks[i].ordinal == from + i
  }

  /** Position i of the stored text lies in the span of some chunk. */
  ghost predicate Covered(chunks: seq<Chunk>, i: nat) {
    exists k | 0 <= k < |chunks| :: chunks[k].charStart <= i < chunks[k].charEnd
  }

  ghost predicate PlainChunks(text: string, chunks: seq<Chunk>) {
    forall k | 0 <= k < |chunks| ::
      Evident(text, chunks[k]) && chunks[k].pageNumber == None && chunks[k].metadata == EVIDENCE
  }

  lemma NumberedConcat(a: seq<Chunk>, b: seq<Chunk>, from: nat)
    requires Numbered(a, from) && Numbered(b, from + |a|)
    ensures Numbered(a + b, from)
  {
  }

  lemma PlainConcat(text: string, a: seq<Chunk>, b: seq<Chunk>)
    requires PlainChunks(text, a) && PlainChunks(text, b)
    ensures PlainChunks(text, a + b)
  {
  }

  lemma CoveredConcat(a: seq<Chunk>, b: seq<Chunk>, i: nat)
    requires Covered(a, i) || Covered(b, i)
    ensures Covered(a + b, i)
  {
    var c := a + b;
    if Covered(a, i) {
      var k :| 0 <= k < |a| && a[k].charStart <= i < a[k].charEnd;
      assert c[k] == a[k];
    } else {
      var k :| 0 <= k < |b| && b[k].charStart <= i < b[k].charEnd;
      assert c[|a| + k] == b[k];
    }
  }

  lemma {:induction false} ChunksOfFaithful(text: string, ws: seq<Window>, ordinal: nat)
    requires InText(text, ws)
    ensures Numbered(ChunksOf(text, ws, ordinal), ordinal)
    ensures PlainChunks(text, ChunksOf(text, ws, ordinal))
    ensures forall c | c in ChunksOf(text, ws, ordinal) :: c.pageNumber == None && c.metadata == map[EvidenceType := Label("TEXT_SPAN")]
  {
    if ws != [] {
      var c := ChunkAt(text, ws[0], ordinal);
      if c.content == "" {
        ChunksOfFaithful(text, ws[1..], ordinal);
      } else {
        ChunksOfFaithful(text, ws[1..], ordinal + 1);
        NumberedConcat([c], ChunksOf(text, ws[1..], ordinal + 1), ordinal);
        PlainConcat(text, [c], ChunksOf(text, ws[1..], ordinal + 1));
      }
    }
  }

  lemma {:induction false} ChunksOfCover(text: string, ws: seq<Window>, ordinal: nat, n: nat, i: nat)
    requires InText(text, ws)
    requires n < |ws| && ws[n].start <= i < ws[n].end && !IsSpace(text[i])
    ensures Covered(ChunksOf(text, ws, ordinal), i)
    decreases n
  {
    var c := ChunkAt(text, ws[0], ordinal);
    if c.content == "" {
      if n == 0 {
        SolidIsKept(text, ws[0], i);
        assert false;
      }
      assert ws[1..][n - 1] == ws[n];
      ChunksOfCover(text, ws[1..], ordinal, n - 1, i);
      assert ChunksOf(text, ws, ordinal) == ChunksOf(text, ws[1..], ordinal);
    } else {
      var rest := ChunksOf(text, ws[1..], ordinal + 1);
      assert ChunksOf(text, ws, ordinal) == [c] + rest;
      if n == 0 {
        assert [c][0].charStart <= i < [c][0].charEnd;
      } else {
        assert ws[1..][n - 1] == ws[n];
        ChunksOfCover(text, ws[1..], ordinal + 1, n - 1, i);
      }
      CoveredConcat([c], rest, i);
    }
  }

  /** A window with a solid character has content. */
  lemma SolidIsKept(text: string, w: Window, i: nat)
    requires w.start <= i < w.end <= |text| && !IsSpace(text[i])
    ensures Strip(text[w.start..w.end]) != ""
  {
    var slice := text[w.start..w.end];
    var lo, hi := StripFacts(slice);
    assert slice[i - w.start] == text[i];
  }

  /** Every position is inside a window. */
  lemma {:induction false} WindowAt(text: string, start: nat, size: nat, overlap: nat, i: nat) returns (n: nat)
    requires ValidLimits(size, overlap) && start <= i < |text|
    ensures var ws := Windows(text, start, size, overlap); n < |ws| && ws[n].start <= i < ws[n].end
    decreases |text| - start
  {
    Unroll(text, start, size, overlap);
    var end := WindowEnd(text, start, size);
    if i < end {
      n := 0;
    } else {
      n := WindowAt(text, NextStart(start, end, overlap), size, overlap, i);
      n := n + 1;
    }
  }

  /** The chunks of one text are numbered from 0, read back from it and hold each of its solid characters. */
  lemma ChunkTextFaithful(text: string, size: nat, overlap: nat)
    requires ValidLimits(size, overlap)
    ensures var chunks := ChunkText(text, size, overlap);
            && (forall c | c in chunks :: c.pageNumber == None && c.metadata == map[EvidenceType := Label("TEXT_SPAN")])
            && Numbered(chunks, 0)
            && PlainChunks(text, chunks)
            && (forall i | 0 <= i < |text| && !IsSpace(text[i]) :: Covered(chunks, i))
  {
    var windows := Windows(text, 0, size, overlap);
    WindowsInText(text, 0, size, overlap);
    ChunksOfFaithful(text, windows, 0);
    forall i | 0 <= i < |text| && !IsSpace(text[i]) ensures Covered(ChunkText(text, size, overlap), i) {
      var n := WindowAt(text, 0, size, overlap, i);
      ChunksOfCover(text, windows, 0, n, i);
    }
  }
}
