/** What parsing keeps of a document (infrastructure/sources/text_parser.py): everything when it fits, and otherwise as much from the front
    as the limit allows. */
module SourceParsing {
  import opened Wrappers
  import opened PyText
  import opened SourceChunks
  import opened SourceDocuments

  predicate Blank(p: RawPage) { PageText(p.lines) == "" }

  /** All pages that are not blank, whole, under their own numbers and in their order. */
  function WholePages(raw: seq<RawPage>): seq<Page> {
    if raw == [] then []
    else if Blank(raw[0]) then WholePages(raw[1..])
    else [Page(raw[0].number, PageText(raw[0].lines))] + WholePages(raw[1..])
  }

  /** The blank pages that have text somewhere after them. */
  function BlanksBeforeText(raw: seq<RawPage>): nat {
    if raw == [] then 0
    else (if Blank(raw[0]) && WholePages(raw[1..]) != [] then 1 else 0) + BlanksBeforeText(raw[1..])
  }

  /** The blank pages between two pages with text; each costs a separator that the text does not have. */
  function InnerBlanks(raw: seq<RawPage>): nat {
    if raw == [] then 0 else if Blank(raw[0]) then InnerBlanks(raw[1..]) else BlanksBeforeText(raw[1..])
  }

  // ----- joins

  lemma {:induction false} JoinExtends(a: seq<Page>, b: seq<Page>)
    requires a != []
    ensures JoinPages(a) <= JoinPages(a + b)
    ensures b != [] ==> |JoinPages(a + b)| >= |JoinPages(a)| + 2 + |b[0].text|
    decreases b
  {
    if b == [] {
      assert a + b == a;
    } else {
      JoinSnoc(a, b[0]);
      assert a + b == (a + [b[0]]) + b[1..];
      JoinExtends(a + [b[0]], b[1..]);
    }
  }

  lemma LongerPage(a: seq<Page>, number: Option<int>, text: string, whole: string, b: seq<Page>)
    requires text <= whole
    ensures JoinPages(a + [Page(number, text)]) <= JoinPages(a + [Page(number, whole)] + b)
  {
    if a != [] {
      JoinSnoc(a, Page(number, text));
      JoinSnoc(a, Page(number, whole));
    }
    JoinExtends(a + [Page(number, whole)], b);
  }

  lemma {:induction false} WholePagesHaveText(raw: seq<RawPage>)
    ensures forall i | 0 <= i < |WholePages(raw)| :: WholePages(raw)[i].text != ""
    ensures WholePages(raw) == [] ==> BlanksBeforeText(raw) == 0
  {
    if raw != [] {
      WholePagesHaveText(raw[1..]);
    }
  }

  // ----- the loop

  /** What the loop makes of the rest of the pages. */
  ghost predicate KeepsWhatFits(raw: seq<RawPage>, kept: seq<Page>, remaining: int) {
    var result, all := KeepPages(raw, kept, remaining), kept + WholePages(raw);
    var used, blanks := |JoinPages(kept)|, BlanksBeforeText(raw);
    && (result == all <==> WholePages(raw) == [] || |JoinPages(all)| + 2 * blanks <= used + remaining)
    && JoinPages(result) <= JoinPages(all)
    && (result != all ==> |JoinPages(result)| + 2 * blanks + 2 >= used + remaining)
  }

  lemma {:induction false} LoopKeepsWhatFits(raw: seq<RawPage>, kept: seq<Page>, remaining: int)
    requires kept != []
    ensures KeepsWhatFits(raw, kept, remaining)
    decreases raw
  {
    hide PageText, JoinPages, Truncate, KeepsWhatFits;
    WholePagesHaveText(raw);
    if raw == [] {
      NothingToKeep(kept, remaining);
    } else if remaining <= 2 {
      NoRoom(raw, kept, remaining);
    } else if Blank(raw[0]) {
      LoopKeepsWhatFits(raw[1..], kept, remaining - 2);
      AfterBlank(raw, kept, remaining);
    } else {
      var t := PageText(raw[0].lines);
      if |t| <= remaining - 2 {
        LoopKeepsWhatFits(raw[1..], kept + [Page(raw[0].number, t)], remaining - 2 - |t|);
        AfterWhole(raw, kept, remaining);
      } else {
        AfterCut(raw, kept, remaining);
      }
    }
  }

  lemma NothingToKeep(kept: seq<Page>, remaining: int)
    ensures KeepsWhatFits([], kept, remaining)
  {
    assert kept + WholePages([]) == kept;
  }

  lemma NoRoom(raw: seq<RawPage>, kept: seq<Page>, remaining: int)
    requires raw != [] && kept != [] && remaining <= 2
    ensures KeepsWhatFits(raw, kept, remaining)
  {
    hide PageText, JoinPages;
    var all := WholePages(raw);
    WholePagesHaveText(raw);
    JoinExtends(kept, all);
    if all == [] {
      assert kept + all == kept;
    } else {
      assert |kept + all| > |kept|;
    }
  }

  lemma AfterBlank(raw: seq<RawPage>, kept: seq<Page>, remaining: int)
    requires raw != [] && kept != [] && remaining > 2 && Blank(raw[0]) && KeepsWhatFits(raw[1..], kept, remaining - 2)
    ensures KeepsWhatFits(raw, kept, remaining)
  {
    hide PageText, JoinPages;
    assert KeepPages(raw, kept, remaining) == KeepPages(raw[1..], kept, remaining - 2);
    WholePagesHaveText(raw[1..]);
    assert WholePages(raw) == [] ==> kept + WholePages(raw) == kept;
  }

  lemma ShortStays(text: string, n: nat)
    requires |text| <= n
    ensures Truncate(text, n) == text
  {
  }

  lemma AfterWhole(raw: seq<RawPage>, kept: seq<Page>, remaining: int)
    requires raw != [] && kept != [] && !Blank(raw[0]) && |PageText(raw[0].lines)| <= remaining - 2
    requires var t := PageText(raw[0].lines); KeepsWhatFits(raw[1..], kept + [Page(raw[0].number, t)], remaining - 2 - |t|)
    ensures KeepsWhatFits(raw, kept, remaining)
  {
    hide PageText, JoinPages, Truncate;
    var t := PageText(raw[0].lines);
    var more := kept + [Page(raw[0].number, t)];
    assert Truncate(t, remaining - 2) == t by { ShortStays(t, remaining - 2); }
    JoinSnoc(kept, Page(raw[0].number, t));
    WholePagesHaveText(raw[1..]);
    assert WholePages(raw) == [Page(raw[0].number, t)] + WholePages(raw[1..]);
    assert kept + WholePages(raw) == more + WholePages(raw[1..]);
    assert KeepPages(raw, kept, remaining) == KeepPages(raw[1..], more, remaining - 2 - |t|);
    if WholePages(raw[1..]) == [] {
      assert more + WholePages(raw[1..]) == more;
    }
  }

  lemma AfterCut(raw: seq<RawPage>, kept: seq<Page>, remaining: int)
    requires raw != [] && kept != [] && remaining > 2 && |PageText(raw[0].lines)| > remaining - 2
    ensures KeepsWhatFits(raw, kept, remaining)
  {
    hide PageText, JoinPages;
    var t, number := PageText(raw[0].lines), raw[0].number;
    var cut := t[..remaining - 2];
    var more := kept + [Page(number, cut)];
    assert KeepPages(raw[1..], more, 0) == more;
    assert KeepPages(raw, kept, remaining) == more;
    var all := kept + WholePages(raw);
    assert all[|kept|] == Page(number, t) && more[|kept|] == Page(number, cut);
    assert all == kept + [Page(number, t)] + WholePages(raw[1..]);
    LongerPage(kept, number, cut, t, WholePages(raw[1..]));
    JoinSnoc(kept, Page(number, cut));
    JoinExtends(kept, WholePages(raw));
  }

  /** What parsing makes of all pages. */
  ghost predicate ParsesWhatFits(raw: seq<RawPage>, limit: int) {
    var result, all := KeepPages(raw, [], limit), WholePages(raw);
    && (result == [] <==> all == [])
    && (result == all <==> all == [] || |JoinPages(all)| + 2 * InnerBlanks(raw) <= limit)
    && JoinPages(result) <= JoinPages(all)
    && (result != all ==> |JoinPages(result)| + 2 * InnerBlanks(raw) + 2 >= limit)
  }

  lemma {:induction false} ParsingKeepsWhatFits(raw: seq<RawPage>, limit: int)
    requires limit > 0
    ensures ParsesWhatFits(raw, limit)
  {
    hide PageText, JoinPages, Truncate;
    if raw == [] {
    } else if Blank(raw[0]) {
      ParsingKeepsWhatFits(raw[1..], limit);
      assert KeepPages(raw, [], limit) == KeepPages(raw[1..], [], limit) by { BlankIsSkipped(raw, limit); }
    } else {
      FirstPage(raw, limit);
    }
  }

  lemma BlankIsSkipped(raw: seq<RawPage>, limit: int)
    requires limit > 0 && raw != [] && Blank(raw[0])
    ensures KeepPages(raw, [], limit) == KeepPages(raw[1..], [], limit)
  {
    hide PageText;
  }

  lemma FirstPage(raw: seq<RawPage>, limit: int)
    requires limit > 0 && raw != [] && !Blank(raw[0])
    ensures ParsesWhatFits(raw, limit)
  {
    hide PageText, KeepsWhatFits;
    var t, number := PageText(raw[0].lines), raw[0].number;
    var rest := WholePages(raw[1..]);
    assert WholePages(raw) == [Page(number, t)] + rest;
    if |t| <= limit {
      var first := [Page(number, t)];
      LoopKeepsWhatFits(raw[1..], first, limit - |t|);
      FirstWhole(raw, limit);
    } else {
      var first := [Page(number, t[..limit])];
      assert [] + first == first;
      assert KeepPages(raw[1..], first, 0) == first;
      LongerPage([], number, t[..limit], t, rest);
      assert [] + first == first && [] + [Page(number, t)] + rest == WholePages(raw);
      JoinExtends([Page(number, t)], rest);
      assert WholePages(raw)[0].text == t && first[0].text != t;
    }
  }

  lemma FirstWhole(raw: seq<RawPage>, limit: int)
    requires limit > 0 && raw != [] && !Blank(raw[0]) && |PageText(raw[0].lines)| <= limit
    requires var t := PageText(raw[0].lines); KeepsWhatFits(raw[1..], [Page(raw[0].number, t)], limit - |t|)
    ensures ParsesWhatFits(raw, limit)
  {
    hide PageText;
    var t := PageText(raw[0].lines);
    var first := [Page(raw[0].number, t)];
    assert [] + first == first;
    assert KeepPages(raw, [], limit) == KeepPages(raw[1..], first, limit - |t|);
    WholePagesHaveText(raw[1..]);
    if WholePages(raw[1..]) == [] {
      assert first + WholePages(raw[1..]) == first;
    } else {
      JoinExtends(first, WholePages(raw[1..]));
    }
    KeptIsNotEmpty(raw[1..], first, limit - |t|);
  }

  lemma {:induction false} KeptIsNotEmpty(raw: seq<RawPage>, kept: seq<Page>, remaining: int)
    requires kept != []
    ensures KeepPages(raw, kept, remaining) != []
    decreases raw
  {
    hide PageText, Truncate;
    if raw != [] && remaining > 2 {
      var text := Truncate(PageText(raw[0].lines), remaining - 2);
      if text == "" {
        KeptIsNotEmpty(raw[1..], kept, remaining - 2);
      } else {
        KeptIsNotEmpty(raw[1..], kept + [Page(raw[0].number, text)], remaining - 2 - |text|);
      }
    }
  }

  // ----- what parsing keeps

  /** Parsing fails exactly when all pages are blank. Its text is always the beginning of the whole document; its pages are all pages with
      text, whole and in order, exactly when they fit, where every blank page between them costs two characters; and when something is
      missing, the limit is used up. */
  lemma ParsedKeepsWhatFits(raw: seq<RawPage>, limit: int)
    requires limit > 0
    ensures ParsePages(raw, limit).Ok? <==> WholePages(raw) != []
    ensures ParsePages(raw, limit).Err? ==> ParsePages(raw, limit).error == NoExtractableText
    ensures ParsePages(raw, limit).Ok? ==>
              var parsed := ParsePages(raw, limit).value;
              && parsed.text <= JoinPages(WholePages(raw))
              && (parsed.pages == WholePages(raw) <==> |JoinPages(WholePages(raw))| + 2 * InnerBlanks(raw) <= limit)
              && (parsed.pages != WholePages(raw) ==> |parsed.text| + 2 * InnerBlanks(raw) + 2 >= limit)
  {
    ParsingKeepsWhatFits(raw, limit);
    KeepPagesState(raw, [], limit, limit);
    var pages := KeepPages(raw, [], limit);
    assert pages != [] ==> JoinPages(pages) != "" by {
      if pages != [] {
        JoinStarts(pages);
      }
    }
  }

  // ----- from raw pages to chunks

  function SolidLines(lines: seq<string>): string {
    if lines == [] then "" else SolidLines(lines[..|lines| - 1]) + Solid(lines[|lines| - 1])
  }

  /** The solid characters of all raw pages, in their order. */
  function SolidOf(raw: seq<RawPage>): string {
    if raw == [] then "" else SolidLines(raw[0].lines) + SolidOf(raw[1..])
  }

  lemma {:induction false} JoinKeepsSolid(lines: seq<string>)
    ensures Solid(JoinLines(lines)) == SolidLines(lines)
  {
    if lines != [] {
      var front, last := lines[..|lines| - 1], lines[|lines| - 1];
      JoinKeepsSolid(front);
      if front != [] {
        SolidConcat(JoinLines(front) + "\n", last);
        SolidConcat(JoinLines(front), "\n");
      }
    }
  }

  lemma {:induction false} RStripLinesKeepSolid(lines: seq<string>)
    ensures SolidLines(seq(|lines|, i requires 0 <= i < |lines| => RStrip(lines[i]))) == SolidLines(lines)
  {
    var stripped := seq(|lines|, i requires 0 <= i < |lines| => RStrip(lines[i]));
    if lines != [] {
      var front := lines[..|lines| - 1];
      RStripLinesKeepSolid(front);
      StripKeepsSolid(lines[|lines| - 1]);
      assert stripped[..|stripped| - 1] == seq(|front|, i requires 0 <= i < |front| => RStrip(front[i]));
    }
  }

  lemma PageKeepsSolid(lines: seq<string>)
    ensures Solid(PageText(lines)) == SolidLines(lines)
  {
    var stripped := seq(|lines|, i requires 0 <= i < |lines| => RStrip(lines[i]));
    StripKeepsSolid(JoinLines(stripped));
    JoinKeepsSolid(stripped);
    RStripLinesKeepSolid(lines);
  }

  lemma ConsKeepsSolid(p: Page, rest: seq<Page>)
    ensures Solid(JoinPages([p] + rest)) == Solid(p.text) + Solid(JoinPages(rest))
  {
    hide Solid;
    assert ([p] + rest)[1..] == rest;
    NothingSolid();
    if rest != [] {
      SolidConcat(p.text + SEPARATOR, JoinPages(rest));
      SolidConcat(p.text, SEPARATOR);
    }
  }

  lemma NothingSolid()
    ensures Solid("") == "" && Solid(SEPARATOR) == ""
  {
    SpaceIsNotSolid(SEPARATOR);
  }

  lemma {:induction false} WholePagesKeepSolid(raw: seq<RawPage>)
    ensures Solid(JoinPages(WholePages(raw))) == SolidOf(raw)
  {
    hide PageText, Solid, SolidLines, JoinPages;
    if raw == [] {
      assert JoinPages([]) == "" by { NoPages(); }
      NothingSolid();
    } else {
      WholePagesKeepSolid(raw[1..]);
      PageKeepsSolid(raw[0].lines);
      NothingSolid();
      if !Blank(raw[0]) {
        ConsKeepsSolid(Page(raw[0].number, PageText(raw[0].lines)), WholePages(raw[1..]));
      }
    }
  }

  lemma NoPages()
    ensures JoinPages([]) == ""
  {
  }

  lemma SolidOfPrefix(a: string, b: string)
    requires a <= b
    ensures Solid(a) <= Solid(b)
  {
    SolidConcat(a, b[|a|..]);
    assert b == a + b[|a|..];
  }

  /** From the raw pages to the stored chunks nothing solid is lost but what the limit cuts off the end: the solid characters of the stored
      text, each of which is in some chunk, are always a beginning of those of all raw pages, and all of them when the document fits. */
  lemma EvidenceOfEveryPage(raw: seq<RawPage>, limit: int, embedding: MetaValue)
    requires limit > 0 && ParsePages(raw, limit).Ok?
    ensures var processed := ProcessParsed(ParsePages(raw, limit).value, embedding);
            && processed.Ok?
            && var stored, chunks := processed.value.stored, processed.value.chunks;
               && Solid(stored) <= SolidOf(raw)
               && (|JoinPages(WholePages(raw))| + 2 * InnerBlanks(raw) <= limit ==> Solid(stored) == SolidOf(raw))
               && (forall i | 0 <= i < |stored| && !IsSpace(stored[i]) ::
                     exists k :: 0 <= k < |chunks| && chunks[k].charStart <= i < chunks[k].charEnd)
  {
    EvidenceEndToEnd(raw, limit, embedding);
    ParsedKeepsWhatFits(raw, limit);
    WholePagesKeepSolid(raw);
    var parsed := ParsePages(raw, limit).value;
    ProcessedExactly(parsed, embedding);
    StripKeepsSolid(parsed.text);
    SolidOfPrefix(parsed.text, JoinPages(WholePages(raw)));
    var processed := ProcessParsed(parsed, embedding).value;
    forall i | 0 <= i < |processed.stored| && !IsSpace(processed.stored[i])
      ensures exists k :: 0 <= k < |processed.chunks| && processed.chunks[k].charStart <= i < processed.chunks[k].charEnd
    {
      assert Covered(processed.chunks, i);
    }
  }

  // ----- pages and metadata of the chunks

  /** Where page k begins in the join of the pages. */
  function PageStart(pages: seq<Page>, k: nat): nat
    requires k < |pages|
  {
    if k == 0 then 0 else |pages[0].text| + 2 + PageStart(pages[1..], k - 1)
  }

  /** The chunk lies in page k and carries its number. */
  ghost predicate OnPage(c: Chunk, pages: seq<Page>, base: nat, k: nat) {
    && k < |pages| && c.pageNumber == pages[k].number
    && base + PageStart(pages, k) <= c.charStart < c.charEnd <= base + PageStart(pages, k) + |pages[k].text|
    && c.metadata == map[EvidenceType := Label("TEXT_SPAN"), PageNumber := if c.pageNumber.Some? then Number(c.pageNumber.value) else Absent]
  }

  ghost predicate OnPages(chunks: seq<Chunk>, pages: seq<Page>, base: nat) {
    forall i | 0 <= i < |chunks| :: OnSomePage(chunks[i], pages, base)
  }

  ghost predicate OnSomePage(c: Chunk, pages: seq<Page>, base: nat) {
    exists k: nat :: OnPage(c, pages, base, k)
  }

  lemma {:induction false} PagedChunksNamePages(pages: seq<Page>, base: nat, ordinal: nat, size: nat, overlap: nat)
    requires ValidLimits(size, overlap)
    ensures OnPages(PagedChunks(pages, base, ordinal, size, overlap), pages, base)
  {
    hide ChunkText, OnPage;
    if pages != [] {
      var own := ChunkText(pages[0].text, size, overlap);
      var placed := Place(own, pages[0], base, ordinal);
      var next := base + |pages[0].text| + 2;
      var rest := PagedChunks(pages[1..], next, ordinal + |own|, size, overlap);
      PagedChunksNamePages(pages[1..], next, ordinal + |own|, size, overlap);
      ChunkTextFaithful(pages[0].text, size, overlap);
      forall i | 0 <= i < |placed| ensures OnSomePage(placed[i], pages, base) {
        FirstPageChunk(own, pages, base, ordinal, i);
        assert OnPage(placed[i], pages, base, 0);
      }
      forall i | 0 <= i < |rest| ensures OnSomePage(rest[i], pages, base) {
        assert OnSomePage(rest[i], pages[1..], next);
        var k: nat :| OnPage(rest[i], pages[1..], next, k);
        LaterPageChunk(rest[i], pages, base, k);
        assert OnPage(rest[i], pages, base, k + 1);
      }
      OnPagesConcat(placed, rest, pages, base);
    }
  }

  lemma OnPagesConcat(a: seq<Chunk>, b: seq<Chunk>, pages: seq<Page>, base: nat)
    requires OnPages(a, pages, base) && OnPages(b, pages, base)
    ensures OnPages(a + b, pages, base)
  {
    hide OnSomePage;
  }

  lemma FirstPageChunk(own: seq<Chunk>, pages: seq<Page>, base: nat, ordinal: nat, i: nat)
    requires pages != [] && i < |own| && PlainChunks(pages[0].text, own)
    requires forall c | c in own :: c.pageNumber == None && c.metadata == map[EvidenceType := Label("TEXT_SPAN")]
    ensures OnPage(Place(own, pages[0], base, ordinal)[i], pages, base, 0)
  {
    assert own[i] in own;
    var c := Place(own, pages[0], base, ordinal)[i];
    assert c.metadata == map[EvidenceType := Label("TEXT_SPAN")] + map[PageNumber := PageMeta(pages[0].number)];
  }

  lemma LaterPageChunk(c: Chunk, pages: seq<Page>, base: nat, k: nat)
    requires pages != [] && OnPage(c, pages[1..], base + |pages[0].text| + 2, k)
    ensures OnPage(c, pages, base, k + 1)
  {
  }

  /** The metadata that processing adds to what chunking gave. */
  predicate Stamped(c: Chunk, from: Chunk, embedding: MetaValue) {
    && c.(metadata := from.metadata) == from
    && c.metadata == from.metadata + map[ParserVersion := Label("text-source-v2"), ChunkVersion := Label("character-overlap-v1"), EmbeddingVersion := embedding]
  }

  /** Every stored chunk of a parsed document lies in one page of the stored text, carries the number of that page, and is marked with it, with
      the kind of evidence and with the versions that made it. */
  lemma ChunksNameTheirPage(raw: seq<RawPage>, limit: int, embedding: MetaValue, i: nat)
    requires limit > 0 && ParsePages(raw, limit).Ok?
    requires var processed := ProcessParsed(ParsePages(raw, limit).value, embedding); processed.Ok? && i < |processed.value.chunks|
    ensures var parsed := ParsePages(raw, limit).value;
            exists c, k :: OnPage(c, NormalizePages(parsed.pages), 0, k) && Stamped(ProcessParsed(parsed, embedding).value.chunks[i], c, embedding)
    ensures var parsed := ParsePages(raw, limit).value;
            ProcessParsed(parsed, embedding).value.stored == JoinPages(NormalizePages(parsed.pages))
  {
    hide ParsePages, NormalizePages, Strip, PagedChunks;
    var parsed := ParsePages(raw, limit).value;
    ParsedIsBounded(raw, limit);
    StrippedTextIsJoin(parsed.pages);
    var pages := NormalizePages(parsed.pages);
    PagedChunksNamePages(pages, 0, 0, DEFAULT_SIZE, DEFAULT_OVERLAP);
    var chunks := PagedChunks(pages, 0, 0, DEFAULT_SIZE, DEFAULT_OVERLAP);
    assert ProcessParsed(parsed, embedding).value.chunks[i] == Stamp(chunks[i], embedding);
    assert Stamped(Stamp(chunks[i], embedding), chunks[i], embedding);
  }
}
