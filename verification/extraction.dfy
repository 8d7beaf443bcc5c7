/**
 Deterministic extraction of Markdown, plain text and the page texts of a PDF into located sections.
 */
module Extraction {
  import opened Wrappers
  import opened Text
  import opened Documents
  import opened Chunking

  const MAX_TEXT_CHARS: nat := 8 * 1024 * 1024
  const MAX_PDF_TEXT_CHARS: nat := 4 * 1024 * 1024
  const MAX_PDF_PAGES: nat := 200
  const MAX_PAGE_FRAGMENT_CHARS: nat := 700

  datatype ExtractionError = FileTooLarge | EmptyFile | PdfMalformed

  // ---- single lines ----

  function StripLeft(s: string): string {
    if s != [] && IsSpace(s[0]) then StripLeft(s[1..]) else s
  }

  function StripRight(s: string): string {
    if s != [] && IsSpace(s[|s| - 1]) then StripRight(s[..|s| - 1]) else s
  }

  function HashCount(line: string): nat {
    if line != [] && line[0] == '#' then 1 + HashCount(line[1..]) else 0
  }

  /** `^(#{1,6})\s+(.*\S)\s*$`: the level and the stripped title. */
  function Heading(line: string): (h: Option<(nat, string)>)
    ensures h.Some? ==> line != [] && line[0] == '#' && 1 <= h.value.0 <= 6
  {
    var n := HashCount(line);
    if 1 <= n <= 6 && n < |line| && IsSpace(line[n]) && !Blank(line[n..])
    then Some((n, StripRight(StripLeft(line[n..])))) else None
  }

  predicate IsFence(line: string) {
    "```" <= StripLeft(line) || "~~~" <= StripLeft(line)
  }

  lemma {:induction false} BlankStrips(s: string)
    requires Blank(s)
    ensures StripLeft(s) == []
  {
    if s != [] { BlankStrips(s[1..]); }
  }

  lemma FenceIsBody(line: string)
    requires IsFence(line)
    ensures !Blank(line) && Heading(line).None?
  {
    if Blank(line) { BlankStrips(line); }
  }

  // ---- what each line of a document is ----

  /** Whether line `k` is inside a fenced block: an odd number of fence lines come before it. */
  predicate InFence(lines: seq<string>, k: nat)
    requires k <= |lines|
  {
    k > 0 && (InFence(lines, k - 1) != IsFence(lines[k - 1]))
  }

  datatype LineClass = HeadingLine(level: nat, title: string) | GapLine | BodyLine

  function Classify(lines: seq<string>, markdown: bool, k: nat): LineClass
    requires k < |lines|
  {
    if InFence(lines, k) then BodyLine
    else if markdown && Heading(lines[k]).Some? then
      HeadingLine(Heading(lines[k]).value.0, Heading(lines[k]).value.1)
    else if Blank(lines[k]) then GapLine
    else BodyLine
  }

  /** A heading closes every entry of the path from position `level - 1` on. */
  function PathUnder(path: seq<string>, level: nat, title: string): seq<string> {
    (if level >= 1 && level - 1 <= |path| then path[..level - 1] else path) + [title]
  }

  /** The heading path in force after the first `k` lines. */
  function PathAt(lines: seq<string>, markdown: bool, k: nat): seq<string>
    requires k <= |lines|
  {
    if k == 0 then [] else
    var before := PathAt(lines, markdown, k - 1);
    match Classify(lines, markdown, k - 1)
    case HeadingLine(level, title) => PathUnder(before, level, title)
    case _ => before
  }

  ghost predicate AllBody(lines: seq<string>, markdown: bool, a: nat, b: nat) {
    b <= |lines| && forall k :: a <= k < b ==> Classify(lines, markdown, k).BodyLine?
  }

  predicate BodyAt(lines: seq<string>, markdown: bool, k: int) {
    0 <= k < |lines| && Classify(lines, markdown, k).BodyLine?
  }

  /** Lines `a` to `b` form a maximal run of body lines. */
  ghost predicate IsBlock(lines: seq<string>, markdown: bool, a: nat, b: nat) {
    a < b && AllBody(lines, markdown, a, b) && !BodyAt(lines, markdown, a - 1) && !BodyAt(lines, markdown, b)
  }

  /** A section is one heading line or one maximal run of body lines, under the heading path in force there. */
  ghost predicate FromLines(lines: seq<string>, markdown: bool, s: Section) {
    && s.locator.kind == LineRange && 1 <= s.locator.start <= s.locator.end <= |lines|
    && var a, b := s.locator.start - 1, s.locator.end;
    if s.level > 0 then
      && b == a + 1
      && Classify(lines, markdown, a).HeadingLine? && Classify(lines, markdown, a).level == s.level
      && s.headingPath == PathAt(lines, markdown, b)
    else IsBlock(lines, markdown, a, b) && s.headingPath == PathAt(lines, markdown, a)
  }

  ghost predicate AllFromLines(lines: seq<string>, markdown: bool, sections: seq<Section>) {
    forall i :: 0 <= i < |sections| ==> FromLines(lines, markdown, sections[i])
  }

  // ---- newline normalisation ----

  function NormalizeNewlines(s: string): string {
    if s == [] then []
    else if s[0] == '\r' then ['\n'] + NormalizeNewlines(if |s| > 1 && s[1] == '\n' then s[2..] else s[1..])
    else [s[0]] + NormalizeNewlines(s[1..])
  }

  lemma {:induction false} NormalizeKeepsText(s: string)
    ensures Blank(s) <==> Blank(NormalizeNewlines(s))
    ensures '\r' !in NormalizeNewlines(s)
  {
    if s != [] {
      var rest := if s[0] == '\r' && |s| > 1 && s[1] == '\n' then s[2..] else s[1..];
      NormalizeKeepsText(rest);
      var n, m := NormalizeNewlines(s), NormalizeNewlines(rest);
      assert n == [if s[0] == '\r' then '\n' else s[0]] + m;
      assert Blank(n) <==> IsSpace(n[0]) && Blank(m) by { assert n[1..] == m; BlankHead(n); }
      BlankHead(s);
      BlankHead(s[1..]);
    }
  }

  lemma {:induction false} NormalizeAppend(a: string, b: string)
    requires a == [] || b == [] || a[|a| - 1] != '\r' || b[0] != '\n'
    ensures NormalizeNewlines(a + b) == NormalizeNewlines(a) + NormalizeNewlines(b)
    decreases |a|
  {
    hide NormalizeNewlines;
    if a == [] {
      assert a + b == b;
      NormalizedEmpty();
    } else if a[0] == '\r' && |a| > 1 && a[1] == '\n' {
      NormalizedPair(a);
      NormalizedPair(a + b);
      assert (a + b)[2..] == a[2..] + b;
      NormalizeAppend(a[2..], b);
    } else {
      NormalizedChar(a);
      NormalizedChar(a + b);
      assert (a + b)[1..] == a[1..] + b;
      NormalizeAppend(a[1..], b);
    }
  }

  lemma NormalizedEmpty()
    ensures NormalizeNewlines([]) == []
  {
  }

  lemma NormalizedPair(s: string)
    requires |s| > 1 && s[0] == '\r' && s[1] == '\n'
    ensures NormalizeNewlines(s) == "\n" + NormalizeNewlines(s[2..])
  {
  }

  lemma NormalizedChar(s: string)
    requires s != [] && !(|s| > 1 && s[0] == '\r' && s[1] == '\n')
    ensures NormalizeNewlines(s) == [if s[0] == '\r' then '\n' else s[0]] + NormalizeNewlines(s[1..])
  {
  }

  /**
   What normalisation does, wherever it happens: a carriage return with a line feed becomes one line feed, and so does one
   without; any other text stays as it is. The text gets shorter by one character for each such pair.
   */
  lemma NormalizedBreaks(a: string, b: string)
    ensures NormalizeNewlines(a + "\r\n" + b) == NormalizeNewlines(a) + "\n" + NormalizeNewlines(b)
    ensures b == [] || b[0] != '\n' ==> NormalizeNewlines(a + "\r" + b) == NormalizeNewlines(a) + "\n" + NormalizeNewlines(b)
    ensures '\r' !in a ==> NormalizeNewlines(a) == a
    ensures |NormalizeNewlines(a)| + PairCount(a) == |a|
  {
    hide NormalizeNewlines;
    assert a + "\r\n" + b == a + ("\r\n" + b) && a + "\r" + b == a + ("\r" + b);
    NormalizeAppend(a, "\r\n" + b);
    NormalizeAppend(a, "\r" + b);
    NormalizeHead(b);
    NormalizedLength(a);
    if '\r' !in a { Unchanged(a); }
  }

  lemma NormalizeHead(b: string)
    ensures NormalizeNewlines("\r\n" + b) == "\n" + NormalizeNewlines(b)
    ensures b == [] || b[0] != '\n' ==> NormalizeNewlines("\r" + b) == "\n" + NormalizeNewlines(b)
  {
    var s, t := "\r\n" + b, "\r" + b;
    assert s[0] == '\r' && s[1] == '\n' && s[2..] == b;
    assert t[0] == '\r' && t[1..] == b;
  }

  lemma {:induction false} Unchanged(s: string)
    requires '\r' !in s
    ensures NormalizeNewlines(s) == s
  {
    if s != [] {
      Unchanged(s[1..]);
      assert s == [s[0]] + s[1..];
    }
  }

  /** The carriage returns that a line feed follows. */
  function PairCount(s: string): nat {
    if |s| < 2 then 0 else (if s[0] == '\r' && s[1] == '\n' then 1 else 0) + PairCount(s[1..])
  }

  lemma {:induction false} NormalizedLength(s: string)
    ensures |NormalizeNewlines(s)| + PairCount(s) == |s|
    decreases |s|
  {
    if s != [] {
      if s[0] == '\r' && |s| > 1 && s[1] == '\n' {
        NormalizedLength(s[2..]);
        assert s[1..][1..] == s[2..];
      } else {
        NormalizedLength(s[1..]);
      }
    }
  }

  lemma BlankHead(s: string)
    ensures s != [] ==> (Blank(s) <==> IsSpace(s[0]) && Blank(s[1..]))
  {
    if s != [] && IsSpace(s[0]) && Blank(s[1..]) {
      assert forall i :: 0 < i < |s| ==> s[i] == s[1..][i - 1];
    }
  }

  // ---- Markdown and plain text ----

  lemma NoSections(text: string)
    ensures Tiles(text, SectionPieces([]), 0, LineAt(text, 0))
  {
    TilesNone(text, 0);
  }

  /** Adds the section for lines `a` to `b`. */
  lemma SectionAdded(text: string, sections: seq<Section>, s: Section, a: nat, b: nat)
    requires a < b <= |Split(text, '\n')| && Tiles(text, SectionPieces(sections), 0, LineAt(text, a))
    requires s.text == Join(Split(text, '\n')[a..b], '\n') && s.locator == Locator(LineRange, a + 1, b, None)
    ensures Tiles(text, SectionPieces(sections + [s]), 0, LineAt(text, b))
  {
    hide Tiles, Split, Join, Offset;
    var p := Piece(s.text, s.locator);
    LinesExact(text, a, b);
    LineEnd(text, b);
    AddSection(sections, s);
    TilesAppend(text, SectionPieces(sections), p, 0, LineAt(text, a), LineAt(text, b));
  }

  /**
   `_extract_lines` after decoding. It fails only on an over-long or blank text; otherwise the sections are
   exactly the heading lines and the maximal runs of body lines of the newline-normalised text, and they tile it.
   */
  method ExtractLines(decoded: string, markdown: bool) returns (result: Result<Document, ExtractionError>)
    ensures result.Err? <==> |decoded| > MAX_TEXT_CHARS || Blank(decoded)
    ensures result.Err? ==> result.error == if |decoded| > 8_388_608 then FileTooLarge else EmptyFile
    ensures result.Ok? ==>
              && result.value.text == NormalizeNewlines(decoded)
              && WellExtracted(result.value)
              && AllFromLines(Split(result.value.text, '\n'), markdown, result.value.sections)
  {
    hide Tiles, Split, Join, Offset, NormalizeNewlines, Heading, StripLeft;
    if |decoded| > MAX_TEXT_CHARS { return Err(FileTooLarge); }
    if Blank(decoded) { return Err(EmptyFile); }
    var text := NormalizeNewlines(decoded);
    NormalizeKeepsText(decoded);
    var lines := Split(text, '\n');
    var sections: seq<Section> := [];
    var headingPath: seq<string> := [];
    var blockStart: Option<nat> := None;
    var inFence := false;
    NoSections(text);
    for k := 0 to |lines|
      invariant inFence == InFence(lines, k) && headingPath == PathAt(lines, markdown, k)
      invariant AllFromLines(lines, markdown, sections)
      invariant blockStart.None? ==> !BodyAt(lines, markdown, k - 1) && Tiles(text, SectionPieces(sections), 0, LineAt(text, k))
      invariant blockStart.Some? ==>
                  && blockStart.value < k && AllBody(lines, markdown, blockStart.value, k)
                  && !BodyAt(lines, markdown, blockStart.value - 1)
                  && headingPath == PathAt(lines, markdown, blockStart.value)
                  && Tiles(text, SectionPieces(sections), 0, LineAt(text, blockStart.value))
    {
      var line := lines[k];
      var fence := IsFence(line);
      if fence { FenceIsBody(line); }
      var heading := if inFence || !markdown then None else Heading(line);
      if heading.Some? {
        sections := Flush(text, markdown, blockStart, k, headingPath, sections);
        blockStart := None;
        var (level, title) := heading.value;
        headingPath := PathUnder(headingPath, level, title);
        var section := Section(line, Locator(LineRange, k + 1, k + 1, None), headingPath, level);
        JoinOne(lines, '\n', k);
        SectionAdded(text, sections, section, k, k + 1);
        sections := sections + [section];
      } else if Blank(line) && !inFence {
        sections := Flush(text, markdown, blockStart, k, headingPath, sections);
        blockStart := None;
        BlankLine(text, k);
        OffsetStep(lines, k);
        TilesSkip(text, SectionPieces(sections), 0, LineAt(text, k), LineAt(text, k + 1));
      } else {
        if blockStart == None { blockStart := Some(k); }
        if fence { inFence := !inFence; }
      }
    }
    sections := Flush(text, markdown, blockStart, |lines|, headingPath, sections);
    LinesTotal(text);
    NotEmpty(text, sections);
    result := Ok(Document(text, sections));
  }

  lemma NotEmpty(text: string, sections: seq<Section>)
    requires !Blank(text) && Tiles(text, SectionPieces(sections), 0, |text| + 1)
    ensures sections != []
    ensures forall i :: 0 <= i < |sections| ==> Located(text, sections[i].locator)
    ensures Tiles(text, SectionPieces(sections), 0, |text|)
  {
    hide Split, Offset;
    var k :| 0 <= k < |text| && !IsSpace(text[k]);
    assert Covered(text, SectionPieces(sections), k);
    forall i | 0 <= i < |sections|
      ensures Located(text, sections[i].locator)
    {
      assert Exact(text, SectionPieces(sections)[i]);
    }
  }

  /** The nested `flush`: closes the open block, if any, before line `k`. */
  method Flush(text: string, markdown: bool, blockStart: Option<nat>, k: nat, path: seq<string>, sections: seq<Section>)
    returns (more: seq<Section>)
    requires k <= |Split(text, '\n')|
    requires AllFromLines(Split(text, '\n'), markdown, sections)
    requires blockStart.None? ==> Tiles(text, SectionPieces(sections), 0, LineAt(text, k))
    requires blockStart.Some? ==>
               && IsBlock(Split(text, '\n'), markdown, blockStart.value, k)
               && path == PathAt(Split(text, '\n'), markdown, blockStart.value)
               && Tiles(text, SectionPieces(sections), 0, LineAt(text, blockStart.value))
    ensures AllFromLines(Split(text, '\n'), markdown, more)
    ensures Tiles(text, SectionPieces(more), 0, LineAt(text, k))
  {
    hide Tiles, Split, Join, Offset, Classify, PathAt;
    more := sections;
    if blockStart.Some? {
      var a := blockStart.value;
      var section := Section(Join(Split(text, '\n')[a..k], '\n'), Locator(LineRange, a + 1, k, None), path, 0);
      SectionAdded(text, sections, section, a, k);
      more := sections + [section];
    }
  }

  // ---- PDF pages ----

  function LastIndexOf(text: string, c: char, start: nat, end: nat): (at: int)
    requires start <= end <= |text|
    ensures at == -1 || (start <= at < end && text[at] == c)
    ensures forall i :: start <= i < end && i > at ==> text[i] != c
  {
    if start == end then -1
    else if text[end - 1] == c then end - 1
    else LastIndexOf(text, c, start, end - 1)
  }

  ghost predicate CutAfter(text: string, c: char, start: nat, end: nat, window: nat) {
    && start + 1 < end <= window <= |text| && text[end - 1] == c
    && forall i :: end <= i < window ==> text[i] != c
  }

  ghost predicate NoneIn(text: string, c: char, start: nat, window: nat) {
    window <= |text| && forall i :: start < i < window ==> text[i] != c
  }

  /** A fragment ends after the last newline of its window, else after the last space, else at the limit. */
  ghost predicate GoodCut(text: string, limit: nat, start: nat, end: nat) {
    var window := start + limit;
    if |text| <= window then end == |text|
    else
      || CutAfter(text, '\n', start, end, window)
      || (NoneIn(text, '\n', start, window) && CutAfter(text, ' ', start, end, window))
      || (NoneIn(text, '\n', start, window) && NoneIn(text, ' ', start, window) && end == window)
  }

  /** One round of the loop: where the fragment starting at `start` ends. */
  method NextCut(text: string, limit: nat, start: nat) returns (end: nat)
    requires limit > 0 && start < |text|
    ensures start < end <= |text| && end - start <= limit && GoodCut(text, limit, start, end)
  {
    end := if start + limit < |text| then start + limit else |text|;
    if end < |text| {
      var boundary := LastIndexOf(text, '\n', start, end);
      if boundary <= start { boundary := LastIndexOf(text, ' ', start, end); }
      if boundary > start { end := boundary + 1; }
    }
  }

  /** Cuts a page into fragments of at most `limit` characters, preferring line and word ends. */
  method FragmentRanges(text: string, limit: nat) returns (ranges: seq<(nat, nat)>)
    requires limit > 0
    ensures Partition(ranges, |text|)
    ensures forall i :: 0 <= i < |ranges| ==>
      ranges[i].1 - ranges[i].0 <= limit && GoodCut(text, limit, ranges[i].0, ranges[i].1)
  {
    hide GoodCut;
    ranges := [];
    var start := 0;
    while start < |text|
      invariant start <= |text| && Partition(ranges, start)
      invariant forall i :: 0 <= i < |ranges| ==>
        ranges[i].1 - ranges[i].0 <= limit && GoodCut(text, limit, ranges[i].0, ranges[i].1)
    {
      var end := NextCut(text, limit, start);
      ranges := ranges + [(start, end)];
      start := end;
    }
  }

  function ReplaceBreaks(s: string): (r: string)
    ensures |r| == |s| && PAGE_BREAK !in r
  {
    seq(|s|, i requires 0 <= i < |s| => if s[i] == PAGE_BREAK then '\n' else s[i])
  }

  /** A section of an assembled PDF: a non-blank fragment of one page. */
  ghost predicate FromPages(pages: seq<string>, s: Section) {
    && s.locator.kind == PageFragment && s.locator.page.Some? && 1 <= s.locator.page.value <= |pages|
    && 0 <= s.locator.start <= s.locator.end <= |pages[s.locator.page.value - 1]|
    && s.locator.end - s.locator.start <= MAX_PAGE_FRAGMENT_CHARS
    && s.text == pages[s.locator.page.value - 1][s.locator.start..s.locator.end] && !Blank(s.text)
    && s.headingPath == [] && s.level == 0
    && GoodCut(pages[s.locator.page.value - 1], MAX_PAGE_FRAGMENT_CHARS, s.locator.start, s.locator.end)
  }

  ghost predicate AllFromPages(pages: seq<string>, sections: seq<Section>) {
    forall i :: 0 <= i < |sections| ==> FromPages(pages, sections[i])
  }

  /** Sum of the lengths of the pages. */
  function TotalChars(pages: seq<string>): nat {
    if pages == [] then 0 else TotalChars(pages[..|pages| - 1]) + |pages[|pages| - 1]|
  }

  function PageTexts(contents: seq<Option<string>>): (pages: seq<string>)
    ensures Free(pages, PAGE_BREAK)
  {
    seq(|contents|, i requires 0 <= i < |contents| =>
      if contents[i].Some? then ReplaceBreaks(contents[i].value) else "")
  }

  lemma {:induction false} TotalPrefix(pages: seq<string>, k: nat)
    requires k <= |pages|
    ensures TotalChars(pages[..k]) <= TotalChars(pages)
  {
    if k < |pages| {
      assert pages[..|pages| - 1][..k] == pages[..k];
      TotalPrefix(pages[..|pages| - 1], k);
    } else {
      assert pages[..k] == pages;
    }
  }

  /**
   The page loop of `_extract_pdf`: `None` is a page whose content stream uses an unsupported filter and
   keeps its place as an empty page; form feeds inside a page become newlines. It fails exactly when the
   pages together are too long.
   */
  method AssemblePages(contents: seq<Option<string>>) returns (result: Result<seq<string>, ExtractionError>, skipped: bool)
    ensures result == if TotalChars(PageTexts(contents)) > MAX_PDF_TEXT_CHARS then Err(FileTooLarge)
                      else Ok(PageTexts(contents))
    ensures result.Ok? ==> (skipped <==> Skips(contents))
  {
    var pages: seq<string> := [];
    var total := 0;
    skipped := false;
    ghost var all := PageTexts(contents);
    for i := 0 to |contents|
      invariant |pages| == i && pages == all[..i] && total == TotalChars(pages) <= MAX_PDF_TEXT_CHARS
      invariant skipped <==> exists j :: 0 <= j < i && contents[j].None?
    {
      assert all[..i + 1] == pages + [all[i]] && all[..i + 1][..i] == pages;
      match contents[i]
      case None =>
        skipped := true;
        pages := pages + [""];
      case Some(content) =>
        var page := ReplaceBreaks(content);
        total := total + |page|;
        if total > MAX_PDF_TEXT_CHARS {
          TotalPrefix(all, i + 1);
          return Err(FileTooLarge), skipped;
        }
        pages := pages + [page];
    }
    assert all[..|contents|] == all;
    result := Ok(pages);
  }

  /** Keeps a fragment of page `p` as a section unless it is blank. */
  method KeepFragment(text: string, pages: seq<string>, p: nat, start: nat, end: nat, sections: seq<Section>)
    returns (more: seq<Section>)
    requires pages == Split(text, PAGE_BREAK) && p < |pages| && start <= end <= |pages[p]|
    requires end - start <= MAX_PAGE_FRAGMENT_CHARS && GoodCut(pages[p], MAX_PAGE_FRAGMENT_CHARS, start, end)
    requires AllFromPages(pages, sections) && Tiles(text, SectionPieces(sections), 0, Offset(pages, p) + start)
    ensures AllFromPages(pages, more) && Tiles(text, SectionPieces(more), 0, Offset(pages, p) + end)
  {
    hide Tiles, Split, Offset, Join, Blank, GoodCut;
    var body := pages[p][start..end];
    var section := Section(body, Locator(PageFragment, start, end, Some(p + 1)), [], 0);
    PagePiece(text, p, start, end);
    more := sections;
    if Blank(body) {
      BlankPiece(text, Piece(body, section.locator));
      TilesSkip(text, SectionPieces(more), 0, Offset(pages, p) + start, Offset(pages, p) + end);
    } else {
      AddSection(more, section);
      TilesAppend(text, SectionPieces(more), Piece(body, section.locator), 0, Offset(pages, p) + start, Offset(pages, p) + end);
      more := more + [section];
    }
  }

  /** One page: the non-blank fragments become sections; afterwards the text is tiled up to the end of the page. */
  method PageSections(text: string, pages: seq<string>, p: nat, sections: seq<Section>) returns (more: seq<Section>)
    requires p < |pages| && pages == Split(text, PAGE_BREAK)
    requires AllFromPages(pages, sections) && Tiles(text, SectionPieces(sections), 0, Offset(pages, p))
    ensures AllFromPages(pages, more) && Tiles(text, SectionPieces(more), 0, Offset(pages, p + 1))
  {
    hide Tiles, Split, Offset, Join, GoodCut, Blank, AllFromPages, SpaceBetween;
    var page := pages[p];
    ghost var base := Offset(pages, p);
    more := sections;
    PageEnd(text, p);
    if Blank(page) {
      BlankPage(text, p);
      TilesSkip(text, SectionPieces(more), 0, base, base + |page|);
    } else {
      var ranges := FragmentRanges(page, MAX_PAGE_FRAGMENT_CHARS);
      for i := 0 to |ranges|
        invariant AllFromPages(pages, more)
        invariant Tiles(text, SectionPieces(more), 0, base + if i == 0 then 0 else ranges[i - 1].1)
      {
        more := KeepFragment(text, pages, p, ranges[i].0, ranges[i].1, more);
      }
    }
    TilesSkip(text, SectionPieces(more), 0, base + |page|, Offset(pages, p + 1));
  }

  lemma BlankPage(text: string, p: nat)
    requires p < |Split(text, PAGE_BREAK)| && Blank(Split(text, PAGE_BREAK)[p])
    ensures var pages := Split(text, PAGE_BREAK);
            SpaceBetween(text, Offset(pages, p), Offset(pages, p) + |pages[p]|)
  {
    hide Split, Offset, Join;
    var page := Split(text, PAGE_BREAK)[p];
    PagePiece(text, p, 0, |page|);
    assert page[0..|page|] == page;
    BlankPiece(text, Piece(page, Locator(PageFragment, 0, |page|, Some(p + 1))));
  }

  lemma PagePiece(text: string, p: nat, start: nat, end: nat)
    requires p < |Split(text, PAGE_BREAK)| && start <= end <= |Split(text, PAGE_BREAK)[p]|
    ensures var piece := Piece(Split(text, PAGE_BREAK)[p][start..end], Locator(PageFragment, start, end, Some(p + 1)));
            && Exact(text, piece)
            && Lo(text, piece.locator) == Offset(Split(text, PAGE_BREAK), p) + start
            && Hi(text, piece.locator) == Offset(Split(text, PAGE_BREAK), p) + end
  {
    hide Split, Offset, Join;
    PageSlice(text, p, start, end);
  }

  lemma PageEnd(text: string, p: nat)
    requires p < |Split(text, PAGE_BREAK)|
    ensures var pages := Split(text, PAGE_BREAK);
            && Offset(pages, p + 1) == Offset(pages, p) + |pages[p]| + 1
            && SpaceBetween(text, Offset(pages, p + 1) - 1, Offset(pages, p + 1))
  {
    hide Split, Offset, Join;
    var pages := Split(text, PAGE_BREAK);
    JoinSplit(text, PAGE_BREAK);
    OffsetStep(pages, p);
    if p + 1 < |pages| {
      PieceAt(pages, PAGE_BREAK, p + 1);
    } else {
      JoinLength(pages, PAGE_BREAK);
    }
  }

  /** The pages that are read: at most the first 200. */
  function ReadPages(contents: seq<Option<string>>): seq<Option<string>> {
    if |contents| > MAX_PDF_PAGES then contents[..MAX_PDF_PAGES] else contents
  }

  /**
   The page texts from the contents: the first 200 pages, each with its own length, form feeds turned into line feeds and
   every other character kept, and nothing for an unreadable one; what is counted is the text without the page breaks.
   */
  lemma PagesAre(contents: seq<Option<string>>)
    ensures var pages := PageTexts(ReadPages(contents));
            && |pages| == (if |contents| <= 200 then |contents| else 200)
            && (forall p :: 0 <= p < |pages| && contents[p].None? ==> pages[p] == "")
            && (forall p :: 0 <= p < |pages| && contents[p].Some? ==> |pages[p]| == |contents[p].value|)
            && (forall p, i :: 0 <= p < |pages| && contents[p].Some? && 0 <= i < |pages[p]| ==>
                  pages[p][i] == if contents[p].value[i] == PAGE_BREAK then '\n' else contents[p].value[i])
            && (pages != [] ==> TotalChars(pages) + |pages| == |Join(pages, PAGE_BREAK)| + 1)
  {
    var pages := PageTexts(ReadPages(contents));
    if pages != [] {
      JoinLength(pages, PAGE_BREAK);
      TotalOffset(pages, |pages|);
      assert pages[..|pages|] == pages;
    }
  }

  lemma {:induction false} TotalOffset(pages: seq<string>, k: nat)
    requires k <= |pages|
    ensures Offset(pages, k) == TotalChars(pages[..k]) + k
  {
    if k > 0 {
      TotalOffset(pages, k - 1);
      assert pages[..k][..k - 1] == pages[..k - 1];
    }
  }

  ghost predicate AllBlank(pages: seq<string>) {
    forall p :: 0 <= p < |pages| ==> Blank(pages[p])
  }

  predicate Skips(contents: seq<Option<string>>) {
    exists i :: 0 <= i < |contents| && contents[i].None?
  }

  /** Why a list of page contents cannot be extracted, if it cannot. */
  ghost function PdfFailure(contents: seq<Option<string>>): Option<ExtractionError> {
    var pages := PageTexts(ReadPages(contents));
    if contents == [] then Some(PdfMalformed)
    else if TotalChars(pages) > MAX_PDF_TEXT_CHARS then Some(FileTooLarge)
    else if AllBlank(pages) && !Skips(ReadPages(contents)) then Some(EmptyFile)
    else None
  }

  /**
   `_extract_pdf` from the list of page texts: the sections are the non-blank fragments of the pages and they
   tile the joined text. It fails exactly without pages, on too much text, and on blank pages of which none was
   skipped; blank pages with a skipped one give an empty document.
   */
  method ExtractPdf(allContents: seq<Option<string>>) returns (result: Result<Document, ExtractionError>)
    ensures if PdfFailure(allContents).Some? then result == Err(PdfFailure(allContents).value) else result.Ok?
    ensures result.Ok? ==> WellExtracted(result.value)
    ensures result.Ok? ==>
              var pages := PageTexts(ReadPages(allContents));
              && (result.value.sections == [] <==> AllBlank(pages))
              && result.value.text == (if AllBlank(pages) then "" else Join(pages, PAGE_BREAK))
              && AllFromPages(pages, result.value.sections)
  {
    hide Tiles, Split, Offset, Join, Blank, AllFromPages, AllBlank, TotalChars;
    if allContents == [] { return Err(PdfMalformed); }
    var contents := ReadPages(allContents);
    var assembled, skipped := AssemblePages(contents);
    if assembled.Err? { return Err(assembled.error); }
    var pages := assembled.value;
    var text := Join(pages, PAGE_BREAK);
    SplitJoin(pages, PAGE_BREAK);
    var sections: seq<Section> := [];
    NoPages(text, pages);
    for p := 0 to |pages|
      invariant AllFromPages(pages, sections) && Tiles(text, SectionPieces(sections), 0, Offset(pages, p))
    {
      sections := PageSections(text, pages, p, sections);
    }
    JoinLength(pages, PAGE_BREAK);
    NoSectionsIff(text, pages, sections);
    if sections == [] {
      if skipped {
        NoPages("", pages);
        EmptyDocument();
        return Ok(Document("", []));
      }
      return Err(EmptyFile);
    }
    TilesTrim(text, SectionPieces(sections));
    PagesExtracted(text, pages, sections);
    result := Ok(Document(text, sections));
  }

  lemma PagesExtracted(text: string, pages: seq<string>, sections: seq<Section>)
    requires AllFromPages(pages, sections) && Tiles(text, SectionPieces(sections), 0, |text|)
    ensures WellExtracted(Document(text, sections))
  {
    hide Tiles, Blank;
  }

  /** No section is left of the pages exactly if all of them are blank. */
  lemma NoSectionsIff(text: string, pages: seq<string>, sections: seq<Section>)
    requires pages != [] && text == Join(pages, PAGE_BREAK) && AllFromPages(pages, sections)
    requires Tiles(text, SectionPieces(sections), 0, |text| + 1)
    ensures sections == [] <==> AllBlank(pages)
  {
    hide Split, Offset, Join;
    if sections == [] {
      forall p | 0 <= p < |pages|
        ensures Blank(pages[p])
      {
        UncoveredPage(text, pages, p);
      }
    } else {
      var s := sections[0];
      assert FromPages(pages, s);
      BlankSlice(pages[s.locator.page.value - 1], s.locator.start, s.locator.end);
    }
  }

  lemma UncoveredPage(text: string, pages: seq<string>, p: nat)
    requires p < |pages| && text == Join(pages, PAGE_BREAK) && Tiles(text, [], 0, |text| + 1)
    ensures Blank(pages[p])
  {
    hide Split, Offset, Join;
    PieceAt(pages, PAGE_BREAK, p);
    assert forall k :: 0 <= k < |text| && !IsSpace(text[k]) ==> Covered(text, [], k);
    forall i | 0 <= i < |pages[p]|
      ensures IsSpace(pages[p][i])
    {
      assert pages[p][i] == text[Offset(pages, p) + i];
    }
  }

  lemma BlankSlice(s: string, start: nat, end: nat)
    requires start <= end <= |s|
    ensures Blank(s) ==> Blank(s[start..end])
  {
  }

  lemma NoPages(text: string, pages: seq<string>)
    ensures AllFromPages(pages, []) && Tiles(text, SectionPieces([]), 0, Offset(pages, 0))
  {
    TilesNone(text, 0);
  }

  lemma EmptyDocument()
    ensures WellExtracted(Document("", []))
  {
    assert SectionPieces([]) == [];
  }

  lemma TilesTrim(text: string, pieces: seq<Piece>)
    requires Tiles(text, pieces, 0, |text| + 1)
    ensures Tiles(text, pieces, 0, |text|)
  {
    hide Split, Offset;
  }

  // ---- extraction and chunking together ----

  /** Text documents: whatever comes in, every chunk can be rebuilt and no visible character is lost. */
  method ChunkText(decoded: string, markdown: bool, maxChars: int)
    returns (doc: Document, chunks: seq<Chunk>, failed: bool)
    ensures failed <==> maxChars <= 0 || |decoded| > MAX_TEXT_CHARS || Blank(decoded)
    ensures !failed ==> GoodChunks(doc, chunks, maxChars) && Tiles(doc.text, ChunkPieces(chunks), 0, |doc.text|)
    ensures !failed ==> doc.text == NormalizeNewlines(decoded) && AllFromLines(Split(doc.text, '\n'), markdown, doc.sections)
    ensures !failed ==> chunks != []
  {
    hide Tiles, GoodChunks, AllFromLines, Split;
    doc, chunks := Document("", []), [];
    var extracted := ExtractLines(decoded, markdown);
    if extracted.Err? || maxChars <= 0 { return doc, chunks, true; }
    doc := extracted.value;
    var chunked, _ := ChunkDocument(doc, maxChars);
    chunks, failed := chunked.value, false;
    NormalizeKeepsText(decoded);
    SomeChunk(doc.text, chunks);
  }

  /** PDF documents, from the page texts on. */
  method ChunkPdf(contents: seq<Option<string>>, maxChars: int)
    returns (doc: Document, chunks: seq<Chunk>, failed: bool)
    ensures failed <==> maxChars <= 0 || PdfFailure(contents).Some?
    ensures !failed ==> GoodChunks(doc, chunks, maxChars) && Tiles(doc.text, ChunkPieces(chunks), 0, |doc.text|)
    ensures !failed ==>
              var pages := PageTexts(ReadPages(contents));
              && doc.text == (if AllBlank(pages) then "" else Join(pages, PAGE_BREAK))
              && (chunks == [] <==> AllBlank(pages))
  {
    hide Tiles, GoodChunks, AllFromPages, Split, Join, PageTexts, PdfFailure, AllBlank, ReadPages;
    doc, chunks := Document("", []), [];
    var extracted := ExtractPdf(contents);
    if extracted.Err? || maxChars <= 0 { return doc, chunks, true; }
    doc := extracted.value;
    var chunked, _ := ChunkDocument(doc, maxChars);
    chunks, failed := chunked.value, false;
    PdfChunks(PageTexts(ReadPages(contents)), doc, chunks, maxChars);
  }

  /** There are chunks exactly if some page is not blank. */
  lemma PdfChunks(pages: seq<string>, doc: Document, chunks: seq<Chunk>, maxChars: nat)
    requires doc.sections == [] <==> AllBlank(pages)
    requires doc.text == if AllBlank(pages) then "" else Join(pages, PAGE_BREAK)
    requires GoodChunks(doc, chunks, maxChars) && Tiles(doc.text, ChunkPieces(chunks), 0, |doc.text|)
    ensures chunks == [] <==> AllBlank(pages)
  {
    hide Join, Tiles, GoodChunks, Blank;
    NeedsSection(doc, chunks, maxChars);
    if p :| 0 <= p < |pages| && !Blank(pages[p]) {
      VisiblePage(pages, p);
      SomeChunk(doc.text, chunks);
    }
  }

  lemma NeedsSection(doc: Document, chunks: seq<Chunk>, maxChars: nat)
    requires GoodChunks(doc, chunks, maxChars)
    ensures chunks != [] ==> doc.sections != []
  {
    hide Bounded, Blank, InSection, RebuildChunkText;
    assert chunks == [] || GoodChunk(doc, chunks, 0, maxChars);
  }

  lemma VisiblePage(pages: seq<string>, p: nat)
    requires p < |pages| && !Blank(pages[p])
    ensures !Blank(Join(pages, PAGE_BREAK))
  {
    hide Offset, Join;
    PieceAt(pages, PAGE_BREAK, p);
    var text, at := Join(pages, PAGE_BREAK), Offset(pages, p);
    var i :| 0 <= i < |pages[p]| && !IsSpace(pages[p][i]);
    assert text[at..at + |pages[p]|][i] == text[at + i];
  }

  lemma SomeChunk(text: string, chunks: seq<Chunk>)
    requires !Blank(text) && Tiles(text, ChunkPieces(chunks), 0, |text|)
    ensures chunks != []
  {
    hide Split, Offset;
    var k :| 0 <= k < |text| && !IsSpace(text[k]);
    assert Covered(text, ChunkPieces(chunks), k);
  }
}
