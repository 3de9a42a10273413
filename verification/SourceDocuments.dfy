/**
 * From raw pages to stored text, chunks, retrieval segments and trimmed context: the parser
 * (infrastructure/sources/text_parser.py), the processing service (application/sources/service.py)
 * and the segment mapping (application/files/sync.py, application/files/retrieval.py).
 */
module SourceDocuments {
  import opened Wrappers
  import opened PyText
  import opened SourceChunks

  // A raw page is its number, if it has one, and the lines that splitlines() finds in it.
  datatype RawPage = RawPage(number: Option<int>, lines: seq<string>)

  datatype Page = Page(number: Option<int>, text: string)

  datatype Parsed = Parsed(text: string, pages: seq<Page>)

  datatype SourceError = NoExtractableText | EmptyText | BadLimits

  const SEPARATOR: string := ['\n', '\n']

  /** The text of a page: its lines without trailing whitespace, joined and stripped. */
  function PageText(lines: seq<string>): string {
    Strip(JoinLines(seq(|lines|, i requires 0 <= i < |lines| => RStrip(lines[i]))))
  }

  function JoinPages(pages: seq<Page>): string {
    if pages == [] then ""
    else if |pages| == 1 then pages[0].text
    else pages[0].text + SEPARATOR + JoinPages(pages[1..])
  }

  function Truncate(text: string, n: nat): string { if |text| <= n then text else text[..n] }

  /** The pages kept from raw when kept are already there and remaining characters are left. */
  function KeepPages(raw: seq<RawPage>, kept: seq<Page>, remaining: int): seq<Page> {
    if raw == [] then kept
    else
      var left := remaining - if kept != [] then 2 else 0;
      if left <= 0 then kept
      else
        var text := Truncate(PageText(raw[0].lines), left);
        if text == "" then KeepPages(raw[1..], kept, left)
        else KeepPages(raw[1..], kept + [Page(raw[0].number, text)], left - |text|)
  }

  function ParsePages(raw: seq<RawPage>, limit: int): Result<Parsed, SourceError> {
    var pages := KeepPages(raw, [], limit);
    var text := JoinPages(pages);
    if text == "" then Err(NoExtractableText) else Ok(Parsed(text, pages))
  }

  method Parse(raw: seq<RawPage>, limit: int) returns (r: Result<Parsed, SourceError>)
    requires limit > 0
    ensures r == ParsePages(raw, limit)
  {
    hide PageText, JoinPages, Truncate;
    var pages: seq<Page>, remaining := [], limit;
    for k := 0 to |raw|
      invariant KeepPages(raw, [], limit) == KeepPages(raw[k..], pages, remaining)
    {
      var separatorCost := if pages != [] then 2 else 0;
      remaining := remaining - separatorCost;
      if remaining <= 0 {
        assert KeepPages(raw, [], limit) == pages;
        break;
      }
      var text := PageText(raw[k].lines);
      text := Truncate(text, remaining);
      assert raw[k..][1..] == raw[k + 1..];
      if text != "" {
        pages := pages + [Page(raw[k].number, text)];
        remaining := remaining - |text|;
      }
    }
    var text := JoinPages(pages);
    if text == "" {
      return Err(NoExtractableText);
    }
    r := Ok(Parsed(text, pages));
  }

  /** Every page is trimmed, except that the last one may end in whitespace. */
  ghost predicate Shaped(pages: seq<Page>) {
    && (forall i | 0 <= i < |pages| :: StartsSolid(pages[i].text))
    && (forall i | 0 <= i < |pages| - 1 :: Trimmed(pages[i].text))
  }

  ghost predicate AllTrimmed(pages: seq<Page>) {
    forall i | 0 <= i < |pages| :: Trimmed(pages[i].text)
  }

  lemma {:induction false} JoinSnoc(pages: seq<Page>, p: Page)
    requires pages != []
    ensures JoinPages(pages + [p]) == JoinPages(pages) + SEPARATOR + p.text
  {
    var all := pages + [p];
    if |pages| == 1 {
      assert all[1..] == [p];
    } else {
      JoinSnoc(pages[1..], p);
      assert all[1..] == pages[1..] + [p];
    }
  }

  /** What the parsing loop keeps true: the limit, and that only the last page can have been cut. */
  ghost predicate ParserState(pages: seq<Page>, remaining: int, limit: int) {
    && remaining >= 0
    && |JoinPages(pages)| + remaining <= limit
    && Shaped(pages)
    && (remaining > 0 ==> AllTrimmed(pages))
  }

  lemma TruncatedPage(lines: seq<string>, n: nat)
    ensures var text := Truncate(PageText(lines), n);
            && |text| <= n
            && (text != "" ==> StartsSolid(text))
            && (text != "" && |text| < n ==> Trimmed(text))
  {
    var lo, hi := StripFacts(JoinLines(seq(|lines|, i requires 0 <= i < |lines| => RStrip(lines[i]))));
  }

  lemma {:induction false} KeepPagesState(raw: seq<RawPage>, kept: seq<Page>, remaining: int, limit: int)
    requires ParserState(kept, remaining, limit)
    ensures var pages := KeepPages(raw, kept, remaining); Shaped(pages) && |JoinPages(pages)| <= limit
    decreases raw
  {
    hide PageText, Truncate;
    if raw != [] {
      var left := remaining - if kept != [] then 2 else 0;
      if left > 0 {
        var text := Truncate(PageText(raw[0].lines), left);
        TruncatedPage(raw[0].lines, left);
        if text == "" {
          KeepPagesState(raw[1..], kept, left, limit);
        } else {
          var more := kept + [Page(raw[0].number, text)];
          if kept != [] {
            JoinSnoc(kept, Page(raw[0].number, text));
          }
          KeepPagesState(raw[1..], more, left - |text|, limit);
        }
      }
    }
  }

  /** The parsed text respects the character limit, is the join of its pages, and only its last page can be cut short. */
  lemma ParsedIsBounded(raw: seq<RawPage>, limit: int)
    requires limit > 0 && ParsePages(raw, limit).Ok?
    ensures var parsed := ParsePages(raw, limit).value;
            && 0 < |parsed.text| <= limit
            && parsed.text == JoinPages(parsed.pages)
            && parsed.pages != [] && Shaped(parsed.pages)
  {
    KeepPagesState(raw, [], limit, limit);
  }

  /** Each page but the last is the whole text of a raw page with the same number; the last is a prefix of one. */
  ghost predicate FromRaw(raw: seq<RawPage>, p: Page, whole: bool) {
    exists k | 0 <= k < |raw| ::
      && p.number == raw[k].number
      && if whole then p.text == PageText(raw[k].lines) else p.text <= PageText(raw[k].lines)
  }

  ghost predicate AllFromRaw(raw: seq<RawPage>, pages: seq<Page>, lastWhole: bool) {
    forall i | 0 <= i < |pages| :: FromRaw(raw, pages[i], lastWhole || i < |pages| - 1)
  }

  lemma {:induction false} PagesComeFromRaw(raw: seq<RawPage>, n: nat, kept: seq<Page>, remaining: int)
    requires n <= |raw|
    requires AllFromRaw(raw, kept, remaining > 0)
    ensures AllFromRaw(raw, KeepPages(raw[n..], kept, remaining), false)
    decreases |raw| - n
  {
    hide PageText;
    forall i | 0 <= i < |kept| && FromRaw(raw, kept[i], true) ensures FromRaw(raw, kept[i], false) {
      var k :| 0 <= k < |raw| && kept[i].number == raw[k].number && kept[i].text == PageText(raw[k].lines);
      assert kept[i].text <= PageText(raw[k].lines);
    }
    if n < |raw| {
      var left := remaining - if kept != [] then 2 else 0;
      if left > 0 {
        var whole := PageText(raw[n].lines);
        var p := Page(raw[n].number, Truncate(whole, left));
        assert raw[n..][1..] == raw[n + 1..] && raw[n..][0] == raw[n];
        if p.text == "" {
          PagesComeFromRaw(raw, n + 1, kept, left);
        } else {
          assert p.text <= whole && (left > |p.text| ==> p.text == whole);
          assert FromRaw(raw, p, left > |p.text|);
          PagesComeFromRaw(raw, n + 1, kept + [p], left - |p.text|);
        }
      }
    }
  }

  // ----- processing: normalisation, paged chunks and their place in the stored text

  function NormalizePages(pages: seq<Page>): seq<Page> {
    if pages == [] then []
    else if Strip(pages[0].text) == "" then NormalizePages(pages[1..])
    else [Page(pages[0].number, Strip(pages[0].text))] + NormalizePages(pages[1..])
  }

  lemma {:induction false} NormalizeTrimmed(pages: seq<Page>)
    requires AllTrimmed(pages)
    ensures NormalizePages(pages) == pages
  {
    if pages != [] {
      StripOfTrimmed(pages[0].text);
      NormalizeTrimmed(pages[1..]);
      assert pages == [pages[0]] + pages[1..];
    }
  }

  lemma {:induction false} NormalizeSnoc(pages: seq<Page>, p: Page)
    requires AllTrimmed(pages) && Strip(p.text) != ""
    ensures NormalizePages(pages + [p]) == pages + [Page(p.number, Strip(p.text))]
  {
    var all := pages + [p];
    if pages == [] {
      assert all[1..] == [];
    } else {
      StripOfTrimmed(pages[0].text);
      NormalizeSnoc(pages[1..], p);
      assert all[1..] == pages[1..] + [p];
      assert pages == [pages[0]] + pages[1..];
    }
  }

  lemma LStripOfSolid(s: string)
    requires StartsSolid(s)
    ensures LStrip(s) == s && Strip(s) == RStrip(s) != ""
  {
    var k := RStripFacts(s);
  }

  /** Stripping the text as a whole and stripping each page give the same stored text. */
  lemma StrippedTextIsJoin(pages: seq<Page>)
    requires pages != [] && Shaped(pages)
    ensures Strip(JoinPages(pages)) == JoinPages(NormalizePages(pages)) != ""
    ensures AllTrimmed(NormalizePages(pages))
  {
    var front, last := pages[..|pages| - 1], pages[|pages| - 1];
    assert pages == front + [last];
    LStripOfSolid(last.text);
    var cut := Page(last.number, Strip(last.text));
    NormalizeSnoc(front, last);
    var lo, hi := StripFacts(last.text);
    if front != [] {
      JoinSnoc(front, last);
      JoinSnoc(front, cut);
      JoinStarts(pages);
      LStripOfSolid(JoinPages(pages));
      RStripAppend(JoinPages(front) + SEPARATOR, last.text);
    }
  }

  lemma JoinStarts(pages: seq<Page>)
    requires pages != [] && StartsSolid(pages[0].text)
    ensures StartsSolid(JoinPages(pages))
  {
  }

  function PageMeta(number: Option<int>): MetaValue {
    match number case Some(n) => Number(n) case None => Absent
  }

  /** The chunk of a page moved to its place in the joined text. */
  function Rebase(c: Chunk, page: Page, base: nat, ordinal: nat): Chunk {
    Chunk(ordinal, c.content, base + c.charStart, base + c.charEnd, page.number,
          c.metadata + map[PageNumber := PageMeta(page.number)])
  }

  function Place(chunks: seq<Chunk>, page: Page, base: nat, ordinal: nat): (r: seq<Chunk>)
    ensures |r| == |chunks|
  {
    seq(|chunks|, i requires 0 <= i < |chunks| => Rebase(chunks[i], page, base, ordinal + i))
  }

  function PagedChunks(pages: seq<Page>, base: nat, ordinal: nat, size: nat, overlap: nat): seq<Chunk>
    requires ValidLimits(size, overlap)
  {
    if pages == [] then []
    else
      var own := ChunkText(pages[0].text, size, overlap);
      Place(own, pages[0], base, ordinal)
      + PagedChunks(pages[1..], base + |pages[0].text| + 2, ordinal + |own|, size, overlap)
  }

  function ContentChunks(content: Parsed, size: nat, overlap: nat): seq<Chunk>
    requires ValidLimits(size, overlap)
  {
    if content.pages == [] then ChunkText(content.text, size, overlap)
    else PagedChunks(content.pages, 0, 0, size, overlap)
  }

  lemma PagedStep(all: seq<Chunk>, done: seq<Chunk>, placed: seq<Chunk>, pages: seq<Page>, base: nat, size: nat, overlap: nat)
    requires ValidLimits(size, overlap) && pages != []
    requires all == done + PagedChunks(pages, base, |done|, size, overlap)
    requires placed == Place(ChunkText(pages[0].text, size, overlap), pages[0], base, |done|)
    ensures all == (done + placed) + PagedChunks(pages[1..], base + |pages[0].text| + 2, |done + placed|, size, overlap)
  {
    hide ChunkText, Place;
    var rest := PagedChunks(pages[1..], base + |pages[0].text| + 2, |done| + |placed|, size, overlap);
    Regroup(done, placed, rest);
  }

  lemma Regroup(a: seq<Chunk>, b: seq<Chunk>, c: seq<Chunk>)
    ensures a + (b + c) == (a + b) + c
  {
  }

  method AppendPlaced(chunks: seq<Chunk>, own: seq<Chunk>, page: Page, base: nat) returns (r: seq<Chunk>)
    ensures r == chunks + Place(own, page, base, |chunks|)
  {
    r := chunks;
    ghost var placed := Place(own, page, base, |chunks|);
    for j := 0 to |own|
      invariant r == chunks + placed[..j]
    {
      r := r + [Rebase(own[j], page, base, |r|)];
      assert placed[..j + 1] == placed[..j] + [placed[j]];
    }
    assert placed[..|own|] == placed;
  }

  method BuildSourceChunksFromContent(content: Parsed, size: int, overlap: int) returns (r: Result<seq<Chunk>, ChunkError>)
    ensures r == if ValidLimits(size, overlap) then Ok(ContentChunks(content, size, overlap)) else Err(InvalidLimits)
    ensures r.Err? <==> size <= 0 || overlap < 0 || overlap >= size
  {
    hide ChunkText, Place;
    if content.pages == [] {
      r := BuildSourceChunks(content.text, size, overlap);
      return;
    }
    var chunks: seq<Chunk>, baseOffset: nat := [], 0;
    assert content.pages[0..] == content.pages;
    for k := 0 to |content.pages|
      invariant k > 0 ==> ValidLimits(size, overlap)
      invariant ValidLimits(size, overlap) ==>
                  PagedChunks(content.pages, 0, 0, size, overlap) == chunks + PagedChunks(content.pages[k..], baseOffset, |chunks|, size, overlap)
    {
      var page := content.pages[k];
      var built := BuildSourceChunks(page.text, size, overlap);
      if built.Err? {
        return Err(built.error);
      }
      ghost var placed := Place(built.value, page, baseOffset, |chunks|);
      PagedStep(PagedChunks(content.pages, 0, 0, size, overlap), chunks, placed, content.pages[k..], baseOffset, size, overlap);
      assert content.pages[k..][1..] == content.pages[k + 1..];
      chunks := AppendPlaced(chunks, built.value, page, baseOffset);
      baseOffset := baseOffset + |page.text| + 2;
    }
    assert chunks + [] == chunks;
    r := Ok(chunks);
  }

  /** Chunks that keep their place: they read back from the stored text and their metadata agrees with their page. */
  ghost predicate Faithful(stored: string, chunks: seq<Chunk>) {
    forall k | 0 <= k < |chunks| :: Evident(stored, chunks[k]) && MetaAgrees(chunks[k])
  }

  predicate MetaAgrees(c: Chunk) {
    && CharStart !in c.metadata && CharEnd !in c.metadata
    && (PageNumber in c.metadata ==> c.metadata[PageNumber] == PageMeta(c.pageNumber))
  }

  ghost predicate CoversFrom(stored: string, chunks: seq<Chunk>, from: nat) {
    forall i | from <= i < |stored| && !IsSpace(stored[i]) :: Covered(chunks, i)
  }

  lemma SliceOfSlice(s: string, a: nat, b: nat, c: nat, d: nat)
    requires a <= b <= |s| && c <= d <= b - a
    ensures s[a..b][c..d] == s[a + c..a + d]
  {
    assert forall k | 0 <= k < d - c :: s[a..b][c..d][k] == s[a + c + k] == s[a + c..a + d][k];
  }

  lemma RebasedFaithful(text: string, c: Chunk, stored: string, base: nat, page: Page, ordinal: nat)
    requires Evident(text, c) && c.metadata == EVIDENCE
    requires base + |text| <= |stored| && stored[base..base + |text|] == text
    ensures Evident(stored, Rebase(c, page, base, ordinal)) && MetaAgrees(Rebase(c, page, base, ordinal))
  {
    SliceOfSlice(stored, base, base + |text|, c.charStart, c.charEnd);
  }

  lemma PlacedFaithful(text: string, page: Page, own: seq<Chunk>, stored: string, base: nat, ordinal: nat)
    requires PlainChunks(text, own) && base + |text| <= |stored| && stored[base..base + |text|] == text
    ensures Faithful(stored, Place(own, page, base, ordinal)) && Numbered(Place(own, page, base, ordinal), ordinal)
  {
    var placed := Place(own, page, base, ordinal);
    forall k | 0 <= k < |placed| ensures Evident(stored, placed[k]) && MetaAgrees(placed[k]) {
      RebasedFaithful(text, own[k], stored, base, page, ordinal + k);
    }
  }

  lemma PlacedCover(page: Page, own: seq<Chunk>, base: nat, ordinal: nat, i: nat)
    requires Covered(own, i)
    ensures Covered(Place(own, page, base, ordinal), base + i)
  {
    var k :| 0 <= k < |own| && own[k].charStart <= i < own[k].charEnd;
    var c := Place(own, page, base, ordinal)[k];
    assert c.charStart <= base + i < c.charEnd;
  }

  lemma FaithfulConcat(stored: string, a: seq<Chunk>, b: seq<Chunk>)
    requires Faithful(stored, a) && Faithful(stored, b)
    ensures Faithful(stored, a + b)
  {
  }

  /** Placing the chunks of the first page before those of the other pages keeps all that holds of both. */
  lemma FirstPage(pages: seq<Page>, own: seq<Chunk>, rest: seq<Chunk>, stored: string, base: nat, ordinal: nat)
    requires pages != [] && base <= |stored| && stored[base..] == JoinPages(pages)
    requires PlainChunks(pages[0].text, own) && CoversFrom(pages[0].text, own, 0)
    requires |pages| == 1 ==> rest == []
    requires |pages| > 1 ==>
               && Faithful(stored, rest) && Numbered(rest, ordinal + |own|)
               && CoversFrom(stored, rest, base + |pages[0].text| + 2)
    ensures var chunks := Place(own, pages[0], base, ordinal) + rest;
            Faithful(stored, chunks) && Numbered(chunks, ordinal) && CoversFrom(stored, chunks, base)
  {
    var text := pages[0].text;
    var placed := Place(own, pages[0], base, ordinal);
    assert stored[base..base + |text|] == stored[base..][..|text|] == JoinPages(pages)[..|text|] == text;
    PlacedFaithful(text, pages[0], own, stored, base, ordinal);
    FaithfulConcat(stored, placed, rest);
    NumberedConcat(placed, rest, ordinal);
    forall i | base <= i < |stored| && !IsSpace(stored[i]) ensures Covered(placed + rest, i) {
      SolidInPage(pages, stored, base, i);
      if i - base < |text| {
        PlacedCover(pages[0], own, base, ordinal, i - base);
      }
      CoveredConcat(placed, rest, i);
    }
  }

  /** What follows the first page and its separator is the join of the other pages. */
  lemma JoinTail(pages: seq<Page>, stored: string, base: nat)
    requires |pages| > 1 && base <= |stored| && stored[base..] == JoinPages(pages)
    ensures base + |pages[0].text| + 2 <= |stored|
    ensures stored[base + |pages[0].text| + 2..] == JoinPages(pages[1..])
  {
    assert stored[base + |pages[0].text| + 2..] == stored[base..][|pages[0].text| + 2..];
  }

  /** Over all pages: each chunk reads back from the stored text, ordinals have no gap, no solid character is lost. */
  lemma {:induction false} PagedChunksFaithful(pages: seq<Page>, stored: string, base: nat, ordinal: nat, size: nat, overlap: nat)
    requires ValidLimits(size, overlap) && pages != []
    requires base <= |stored| && stored[base..] == JoinPages(pages)
    ensures var chunks := PagedChunks(pages, base, ordinal, size, overlap);
            Faithful(stored, chunks) && Numbered(chunks, ordinal) && CoversFrom(stored, chunks, base)
    decreases pages
  {
    hide ChunkText, Place, JoinPages, Faithful, Numbered, CoversFrom, PlainChunks;
    var text := pages[0].text;
    var own := ChunkText(text, size, overlap);
    var next := base + |text| + 2;
    ChunkTextFaithful(text, size, overlap);
    if |pages| > 1 {
      JoinTail(pages, stored, base);
      PagedChunksFaithful(pages[1..], stored, next, ordinal + |own|, size, overlap);
    }
    FirstPage(pages, own, PagedChunks(pages[1..], next, ordinal + |own|, size, overlap), stored, base, ordinal);
  }

  /** A solid character is in the first page or past the separator behind it. */
  lemma SolidInPage(pages: seq<Page>, stored: string, base: nat, i: nat)
    requires pages != [] && base <= i < |stored| && stored[base..] == JoinPages(pages) && !IsSpace(stored[i])
    ensures var text := pages[0].text;
            if i - base < |text| then stored[i] == text[i - base] else i - base >= |text| + 2 && |pages| > 1
  {
    var text := pages[0].text;
    assert stored[i] == JoinPages(pages)[i - base];
    assert IsSpace(SEPARATOR[0]) && IsSpace(SEPARATOR[1]);
    assert |pages| > 1 ==> JoinPages(pages)[|text|..|text| + 2] == SEPARATOR;
  }

  // ----- complete_processing

  const DEFAULT_SIZE: nat := 2_000
  const DEFAULT_OVERLAP: nat := 200

  const PARSER_VERSION := Label("text-source-v2")
  const CHUNK_VERSION := Label("character-overlap-v1")

  datatype Processed = Processed(stored: string, chunks: seq<Chunk>)

  function Stamp(c: Chunk, embedding: MetaValue): Chunk {
    c.(metadata := c.metadata + map[ParserVersion := PARSER_VERSION, ChunkVersion := CHUNK_VERSION, EmbeddingVersion := embedding])
  }

  function StampAll(chunks: seq<Chunk>, embedding: MetaValue): seq<Chunk> {
    seq(|chunks|, i requires 0 <= i < |chunks| => Stamp(chunks[i], embedding))
  }

  function ProcessParsed(parsed: Parsed, embedding: MetaValue): Result<Processed, SourceError> {
    var clean := Strip(parsed.text);
    if clean == "" then Err(EmptyText)
    else
      var chunks := ContentChunks(Parsed(clean, NormalizePages(parsed.pages)), DEFAULT_SIZE, DEFAULT_OVERLAP);
      Ok(Processed(clean, StampAll(chunks, embedding)))
  }

  method CompleteProcessing(parsed: Parsed, embedding: MetaValue) returns (r: Result<Processed, SourceError>)
    ensures r == ProcessParsed(parsed, embedding)
  {
    hide ContentChunks;
    var clean := Strip(parsed.text);
    if clean == "" {
      return Err(EmptyText);
    }
    var normalized := Parsed(clean, NormalizePages(parsed.pages));
    var chunks := BuildSourceChunksFromContent(normalized, DEFAULT_SIZE, DEFAULT_OVERLAP);
    r := Ok(Processed(clean, StampAll(chunks.value, embedding)));
  }

  lemma StampFaithful(stored: string, chunks: seq<Chunk>, embedding: MetaValue)
    requires Faithful(stored, chunks) && Numbered(chunks, 0) && CoversFrom(stored, chunks, 0)
    ensures var stamped := StampAll(chunks, embedding);
            Faithful(stored, stamped) && Numbered(stamped, 0) && CoversFrom(stored, stamped, 0)
  {
    var stamped := StampAll(chunks, embedding);
    forall i | 0 <= i < |stored| && !IsSpace(stored[i]) ensures Covered(stamped, i) {
      var k :| 0 <= k < |chunks| && chunks[k].charStart <= i < chunks[k].charEnd;
      assert stamped[k].charStart <= i < stamped[k].charEnd;
    }
  }

  /**
   * Evidence stays true end to end. Whatever pages the parser accepts, processing them cannot fail, the stored text
   * respects the limit, every chunk reads back from it, the ordinals are 0..n-1 and no solid character is lost.
   */
  lemma EvidenceEndToEnd(raw: seq<RawPage>, limit: int, embedding: MetaValue)
    requires limit > 0 && ParsePages(raw, limit).Ok?
    ensures var processed := ProcessParsed(ParsePages(raw, limit).value, embedding);
            && processed.Ok?
            && 0 < |processed.value.stored| <= limit
            && Faithful(processed.value.stored, processed.value.chunks)
            && Numbered(processed.value.chunks, 0)
            && CoversFrom(processed.value.stored, processed.value.chunks, 0)
  {
    hide ParsePages, PagedChunks, Strip, NormalizePages;
    var parsed := ParsePages(raw, limit).value;
    ParsedIsBounded(raw, limit);
    StrippedTextIsJoin(parsed.pages);
    var lo, hi := StripFacts(parsed.text);
    var stored := Strip(parsed.text);
    var pages := NormalizePages(parsed.pages);
    assert stored[0..] == stored;
    PagedChunksFaithful(pages, stored, 0, 0, DEFAULT_SIZE, DEFAULT_OVERLAP);
    StampFaithful(stored, PagedChunks(pages, 0, 0, DEFAULT_SIZE, DEFAULT_OVERLAP), embedding);
  }

  /** Processing fails exactly for a text that is all whitespace, and what it stores is the text without the whitespace around it. */
  lemma ProcessedExactly(parsed: Parsed, embedding: MetaValue)
    ensures ProcessParsed(parsed, embedding).Err? <==> Strip(parsed.text) == ""
    ensures ProcessParsed(parsed, embedding).Err? ==> ProcessParsed(parsed, embedding).error == EmptyText
    ensures ProcessParsed(parsed, embedding).Ok? ==> ProcessParsed(parsed, embedding).value.stored == Strip(parsed.text)
  {
    hide Strip, NormalizePages;
  }

  // ----- retrieval segments

  datatype Representation = PageTextKind | TextSpanKind

  datatype Segment = Segment(order: nat, kind: Representation, content: string, locator: Metadata)

  datatype ContextChunk = ContextChunk(ordinal: nat, content: string, charStart: int, charEnd: int, pageNumber: Option<int>)

  /** The segment mirrored from a chunk; keys of the metadata win over the keys set before them. */
  function ToSegment(c: Chunk): Segment {
    Segment(c.ordinal,
            if c.pageNumber.Some? then PageTextKind else TextSpanKind,
            c.content,
            map[CharStart := Number(c.charStart), CharEnd := Number(c.charEnd)]
            + (if c.pageNumber.Some? then map[PageNumber := Number(c.pageNumber.value)] else map[])
            + c.metadata)
  }

  function NumberAt(locator: Metadata, key: MetaKey, default: int): int {
    if key in locator && locator[key].Number? then locator[key].number else default
  }

  function ToContextChunk(s: Segment): ContextChunk {
    ContextChunk(s.order, s.content,
                 if CharStart in s.locator then NumberAt(s.locator, CharStart, 0) else 0,
                 NumberAt(s.locator, CharEnd, |s.content|),
                 if PageNumber in s.locator && s.locator[PageNumber].Number? then Some(s.locator[PageNumber].number) else None)
  }

  /** A chunk comes back from its segment unchanged exactly when its metadata does not overwrite its place. */
  lemma SegmentRoundTrip(c: Chunk)
    ensures ToContextChunk(ToSegment(c)) == ContextChunk(c.ordinal, c.content, c.charStart, c.charEnd, c.pageNumber)
       <==> && (CharStart in c.metadata ==> NumberAt(c.metadata, CharStart, 0) == c.charStart)
            && (CharEnd in c.metadata ==> NumberAt(c.metadata, CharEnd, |c.content|) == c.charEnd)
            && (PageNumber in c.metadata ==>
                  c.pageNumber == if c.metadata[PageNumber].Number? then Some(c.metadata[PageNumber].number) else None)
    ensures ToSegment(c).kind == PageTextKind <==> c.pageNumber.Some?
  {
    var locator := ToSegment(c).locator;
    assert forall k | k in c.metadata :: locator[k] == c.metadata[k];
    assert CharStart !in c.metadata ==> locator[CharStart] == Number(c.charStart);
    assert CharEnd !in c.metadata ==> locator[CharEnd] == Number(c.charEnd);
  }

  /** A locator that lacks a number, or holds something else under its key, counts as the start of the file, the length of the content, and no
      page. */
  lemma SegmentDefaults(s: Segment)
    ensures CharStart !in s.locator || !s.locator[CharStart].Number? ==> ToContextChunk(s).charStart == 0
    ensures CharEnd !in s.locator || !s.locator[CharEnd].Number? ==> ToContextChunk(s).charEnd == |s.content|
    ensures PageNumber !in s.locator || !s.locator[PageNumber].Number? ==> ToContextChunk(s).pageNumber == None
  {
  }

  /** Every chunk that processing stores survives the segment round trip. */
  lemma StoredSegmentsRoundTrip(raw: seq<RawPage>, limit: int, embedding: MetaValue, k: nat)
    requires limit > 0 && ParsePages(raw, limit).Ok?
    requires var processed := ProcessParsed(ParsePages(raw, limit).value, embedding); processed.Ok? && k < |processed.value.chunks|
    ensures var processed := ProcessParsed(ParsePages(raw, limit).value, embedding).value;
            var c := processed.chunks[k];
            var back := ToContextChunk(ToSegment(c));
            && back == ContextChunk(k, c.content, c.charStart, c.charEnd, c.pageNumber)
            && 0 <= back.charStart < back.charEnd <= |processed.stored|
            && back.content == Strip(processed.stored[back.charStart..back.charEnd])
  {
    hide ParsePages, ProcessParsed, Strip;
    EvidenceEndToEnd(raw, limit, embedding);
    SegmentRoundTrip(ProcessParsed(ParsePages(raw, limit).value, embedding).value.chunks[k]);
  }

  // ----- get_context_chunks

  function Shorten(c: ContextChunk, remaining: nat): ContextChunk {
    var content := Truncate(c.content, remaining);
    c.(content := content, charEnd := Min(c.charStart + |content|, c.charEnd))
  }

  function TrimmedContext(chunks: seq<ContextChunk>, remaining: int): seq<ContextChunk> {
    if chunks == [] || remaining <= 0 then []
    else
      var c := Shorten(chunks[0], remaining);
      [c] + TrimmedContext(chunks[1..], remaining - |c.content|)
  }

  method GetContextChunks(chunks: seq<ContextChunk>, maxCharacters: int) returns (r: Result<seq<ContextChunk>, SourceError>)
    ensures r == if maxCharacters <= 0 then Err(BadLimits) else Ok(TrimmedContext(chunks, maxCharacters))
  {
    if maxCharacters <= 0 {
      return Err(BadLimits);
    }
    var kept: seq<ContextChunk>, remaining := [], maxCharacters;
    for k := 0 to |chunks|
      invariant kept + TrimmedContext(chunks[k..], remaining) == TrimmedContext(chunks, maxCharacters)
    {
      if remaining <= 0 {
        assert kept + [] == kept;
        return Ok(kept);
      }
      var c := Shorten(chunks[k], remaining);
      assert chunks[k..][1..] == chunks[k + 1..];
      assert TrimmedContext(chunks[k..], remaining) == [c] + TrimmedContext(chunks[k + 1..], remaining - |c.content|);
      kept := kept + [c];
      remaining := remaining - |c.content|;
    }
    assert kept + [] == kept;
    r := Ok(kept);
  }

  function ContextLength(chunks: seq<ContextChunk>): nat {
    if chunks == [] then 0 else |chunks[0].content| + ContextLength(chunks[1..])
  }

  /** The trimmed context fits its budget, and what it leaves out it leaves out because the budget is spent. */
  lemma {:induction false} TrimmedContextFits(chunks: seq<ContextChunk>, remaining: nat)
    ensures var kept := TrimmedContext(chunks, remaining);
            && ContextLength(kept) <= remaining
            && |kept| <= |chunks|
            && (|kept| < |chunks| ==> ContextLength(kept) == remaining)
            && (forall k | 0 <= k < |kept| && kept[k].content != chunks[k].content :: ContextLength(kept) == remaining)
    decreases chunks
  {
    if chunks != [] && remaining > 0 {
      var c := Shorten(chunks[0], remaining);
      TrimmedContextFits(chunks[1..], remaining - |c.content|);
      assert TrimmedContext(chunks, remaining)[1..] == TrimmedContext(chunks[1..], remaining - |c.content|);
    }
  }

  /** Entry k of the trimmed context is entry k of the list with a prefix of its content, whole unless it is the last. */
  lemma {:induction false} TrimmedContextAt(chunks: seq<ContextChunk>, remaining: nat, k: nat)
    requires k < |TrimmedContext(chunks, remaining)|
    ensures var kept := TrimmedContext(chunks, remaining);
            && k < |chunks|
            && kept[k].content <= chunks[k].content
            && kept[k].charEnd == Min(chunks[k].charStart + |kept[k].content|, chunks[k].charEnd)
            && kept[k].(content := chunks[k].content, charEnd := chunks[k].charEnd) == chunks[k]
            && (k < |kept| - 1 ==> kept[k].content == chunks[k].content)
    decreases chunks
  {
    var c := Shorten(chunks[0], remaining);
    if k > 0 {
      TrimmedContextAt(chunks[1..], remaining - |c.content|, k - 1);
      assert chunks[k] == chunks[1..][k - 1];
    }
  }
}
