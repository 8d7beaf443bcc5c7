/**
 Version-stable chunking: a section that is too large is cut into pieces at line ends, and a line that is too
 large into bounded character spans. Every piece keeps a locator from which its text can be rebuilt.
 */
module Chunking {
  import opened Wrappers
  import opened Text
  import opened Documents

  const MAX_CHUNK_BYTES: nat := 64 * 1024

  predicate Bounded(s: string, maxChars: nat) {
    |s| <= maxChars && Utf8Size(s) <= MAX_CHUNK_BYTES
  }

  /** Consecutive non-empty half-open spans from 0 up to `end`. */
  ghost predicate Partition(spans: seq<(nat, nat)>, end: nat) {
    && (forall i :: 0 <= i < |spans| ==> spans[i].0 < spans[i].1 <= end)
    && (forall i :: 0 < i < |spans| ==> spans[i].0 == spans[i - 1].1)
    && (if spans == [] then end == 0 else spans[0].0 == 0 && spans[|spans| - 1].1 == end)
  }

  /** A span is as long as the character limit allows, unless twice its length breaks the byte limit. */
  ghost predicate NotWasteful(text: string, start: nat, end: nat, maxChars: nat) {
    || end == start + maxChars || end == |text|
    || exists wider :: end < wider <= end + (end - start) + 1 && wider <= |text| && TooManyBytes(text, start, wider)
  }

  predicate TooManyBytes(text: string, start: nat, end: nat) {
    start <= end <= |text| && Utf8Size(text[start..end]) > MAX_CHUNK_BYTES
  }

  ghost predicate GoodSpan(text: string, start: nat, end: nat, maxChars: nat) {
    start < end <= |text| && Bounded(text[start..end], maxChars) && NotWasteful(text, start, end, maxChars)
  }

  /**
   The halving loop: a single character never needs more than four bytes, so it ends with a non-empty span.
   */
  method FitSpan(text: string, start: nat, maxChars: nat) returns (end: nat)
    requires maxChars > 0 && start < |text|
    ensures GoodSpan(text, start, end, maxChars)
  {
    hide Utf8Size;
    end := if start + maxChars < |text| then start + maxChars else |text|;
    while end > start && Utf8Size(text[start..end]) > MAX_CHUNK_BYTES
      invariant start < end <= |text| && end - start <= maxChars
      invariant NotWasteful(text, start, end, maxChars)
      decreases end - start
    {
      Utf8SizeBounds(text[start..end]);
      assert TooManyBytes(text, start, end);
      var half := (end - start) / 2;
      end := start + if half > 1 then half else 1;
    }
  }

  /** Cuts a text into consecutive bounded spans. */
  method BoundedSpans(text: string, maxChars: nat) returns (spans: seq<(nat, nat)>)
    requires maxChars > 0
    ensures Partition(spans, |text|)
    ensures forall i :: 0 <= i < |spans| ==> GoodSpan(text, spans[i].0, spans[i].1, maxChars)
  {
    hide NotWasteful, Bounded;
    spans := [];
    var start := 0;
    while start < |text|
      invariant start <= |text| && Partition(spans, start)
      invariant forall i :: 0 <= i < |spans| ==> GoodSpan(text, spans[i].0, spans[i].1, maxChars)
    {
      var end := FitSpan(text, start, maxChars);
      spans := spans + [(start, end)];
      start := end;
    }
  }

  ghost predicate AllBounded(pieces: seq<Piece>, maxChars: nat) {
    forall i :: 0 <= i < |pieces| ==> Bounded(pieces[i].text, maxChars)
  }

  /** `_line_offset`: the sum of the lengths of the lines before a 1-based line number, each with its newline. */
  method LineOffset(text: string, lineNumber: int) returns (offset: nat)
    ensures var lines := Split(text, '\n');
            offset == LineAt(text, if lineNumber <= 1 then 0 else if lineNumber - 1 <= |lines| then lineNumber - 1 else |lines|)
  {
    if lineNumber <= 1 { return 0; }
    var lines := Split(text, '\n');
    var before := if lineNumber - 1 <= |lines| then lines[..lineNumber - 1] else lines;
    offset := 0;
    for i := 0 to |before|
      invariant offset == Offset(lines, i)
    {
      offset := offset + |before[i]| + 1;
    }
  }

  predicate IsLineSection(text: string, section: Section) {
    && section.locator.kind.LineRange?
    && Exact(text, Piece(section.text, section.locator))
  }

  lemma SectionLines(text: string, section: Section)
    requires IsLineSection(text, section)
    ensures Split(section.text, '\n') == Split(text, '\n')[section.locator.start - 1..section.locator.end]
  {
    hide Split, Join;
    var lines := Split(text, '\n');
    var a, b := section.locator.start - 1, section.locator.end;
    LineSlice(text, a, b);
    SplitFree(text, '\n');
    SplitJoin(lines[a..b], '\n');
  }

  /** A fragment of a line is as long as the limits allow. */
  ghost predicate TightFragment(text: string, p: Piece, maxChars: nat) {
    exists k :: 0 <= k < |Split(text, '\n')| && TightIn(text, k, p, maxChars)
  }

  ghost predicate TightIn(text: string, k: nat, p: Piece, maxChars: nat)
    requires k < |Split(text, '\n')|
  {
    var base := LineAt(text, k);
    base <= p.locator.start <= p.locator.end && NotWasteful(Split(text, '\n')[k], p.locator.start - base, p.locator.end - base, maxChars)
  }

  ghost predicate AllTight(text: string, pieces: seq<Piece>, maxChars: nat) {
    forall i :: 0 <= i < |pieces| && pieces[i].locator.kind == DocumentFragment ==> TightFragment(text, pieces[i], maxChars)
  }

  lemma TightMore(text: string, pieces: seq<Piece>, more: seq<Piece>, maxChars: nat)
    requires AllTight(text, pieces, maxChars) && AllTight(text, more, maxChars)
    ensures AllTight(text, pieces + more, maxChars)
  {
    hide TightFragment;
  }

  lemma TightLines(text: string, p: Piece, maxChars: nat)
    ensures p.locator.kind != DocumentFragment ==> AllTight(text, [p], maxChars)
    ensures AllTight(text, [], maxChars)
  {
  }

  lemma TightSpan(text: string, k: nat, p: Piece, maxChars: nat)
    requires k < |Split(text, '\n')| && TightIn(text, k, p, maxChars)
    ensures AllTight(text, [p], maxChars)
  {
    hide TightIn;
    assert TightFragment(text, p, maxChars);
  }

  /** The pieces of one over-long line, as absolute fragments of the document. */
  method LineFragments(text: string, k: nat, maxChars: nat, pieces: seq<Piece>, ghost lo: nat)
    returns (more: seq<Piece>)
    requires maxChars > 0 && k < |Split(text, '\n')|
    requires lo <= LineAt(text, k) && Tiles(text, pieces, lo, LineAt(text, k)) && AllBounded(pieces, maxChars)
    ensures Tiles(text, more, lo, LineAt(text, k + 1) - 1) && AllBounded(more, maxChars)
    ensures pieces <= more && (Split(text, '\n')[k] != [] ==> more != pieces)
    ensures forall i :: |pieces| <= i < |more| ==> more[i].locator.kind == DocumentFragment
    ensures AllTight(text, pieces, maxChars) ==> AllTight(text, more, maxChars)
  {
    hide Tiles, Exact, Split, Join, Utf8Size, Offset, NotWasteful, AllTight, TightFragment;
    var line := Split(text, '\n')[k];
    JoinSplit(text, '\n');
    PieceAt(Split(text, '\n'), '\n', k);
    OffsetStep(Split(text, '\n'), k);
    var base := LineOffset(text, k + 1);
    var spans := BoundedSpans(line, maxChars);
    more := pieces;
    for i := 0 to |spans|
      invariant Tiles(text, more, lo, base + if i == 0 then 0 else spans[i - 1].1)
      invariant AllBounded(more, maxChars) && pieces <= more && |more| == |pieces| + i
      invariant forall j :: |pieces| <= j < |more| ==> more[j].locator.kind == DocumentFragment
      invariant AllTight(text, pieces, maxChars) ==> AllTight(text, more, maxChars)
    {
      var (start, end) := spans[i];
      var piece := Piece(line[start..end], Locator(DocumentFragment, base + start, base + end, None));
      FragmentExact(text, base, base + |line|, start, end);
      TilesAppend(text, more, piece, lo, base + start, base + end);
      TightSpan(text, k, piece, maxChars);
      if AllTight(text, more, maxChars) { TightMore(text, more, [piece], maxChars); }
      more := more + [piece];
    }
  }

  function Buffered(text: string, a: nat, b: nat): seq<Piece>
    requires a <= b <= |Split(text, '\n')|
  {
    if a == b then []
    else [Piece(Join(Split(text, '\n')[a..b], '\n'), Locator(LineRange, a + 1, b, None))]
  }

  /** Closes the buffered lines `a` to `b` into one line-range piece; an empty buffer adds nothing. */
  method FlushLines(text: string, a: nat, b: nat, maxChars: nat, pieces: seq<Piece>, ghost lo: nat)
    returns (more: seq<Piece>)
    requires a <= b <= |Split(text, '\n')| && lo <= LineAt(text, a)
    requires a < b ==> Bounded(Join(Split(text, '\n')[a..b], '\n'), maxChars)
    requires Tiles(text, pieces, lo, LineAt(text, a)) && AllBounded(pieces, maxChars)
    ensures AllBounded(more, maxChars)
    ensures Tiles(text, more, lo, LineAt(text, b))
    ensures a < b ==> Tiles(text, more, lo, LineAt(text, b) - 1)
    ensures more == pieces + Buffered(text, a, b)
    ensures a == b ==> more == pieces
    ensures AllTight(text, pieces, maxChars) ==> AllTight(text, more, maxChars)
  {
    hide Tiles, Split, Join, Utf8Size, Offset, AllTight;
    more := pieces;
    if a < b {
      var piece := Piece(Join(Split(text, '\n')[a..b], '\n'), Locator(LineRange, a + 1, b, None));
      LinesExact(text, a, b);
      LineEnd(text, b);
      TilesAppend(text, pieces, piece, lo, LineAt(text, a), LineAt(text, b) - 1);
      more := pieces + [piece];
      TightLines(text, piece, maxChars);
      if AllTight(text, pieces, maxChars) { TightMore(text, pieces, [piece], maxChars); }
      TilesSkip(text, more, lo, LineAt(text, b) - 1, LineAt(text, b));
    }
  }

  /** A line-range piece ends only where one more line would have made it too large (or a fragment follows). */
  ghost predicate Greedy(text: string, pieces: seq<Piece>, maxChars: nat) {
    forall i :: 0 < i < |pieces| && pieces[i - 1].locator.kind == LineRange && pieces[i].locator.kind == LineRange ==>
      TooLarge(text, pieces[i - 1].locator.start - 1, pieces[i].locator.start, maxChars)
  }

  ghost predicate TooLarge(text: string, a: int, b: int, maxChars: nat) {
    0 <= a <= b <= |Split(text, '\n')| && !Bounded(Join(Split(text, '\n')[a..b], '\n'), maxChars)
  }

  /** `pieces` are greedy, and stay so when the buffered lines from `a` (up to line `k`) become a piece. */
  ghost predicate Packed(text: string, pieces: seq<Piece>, a: nat, k: nat, maxChars: nat) {
    && a <= k && Greedy(text, pieces, maxChars)
    && (pieces == [] || pieces[|pieces| - 1].locator.kind != LineRange ||
        (a < k && TooLarge(text, pieces[|pieces| - 1].locator.start - 1, a + 1, maxChars)))
  }

  lemma PackedNone(text: string, k: nat, maxChars: nat)
    ensures Packed(text, [], k, k, maxChars) && AllBounded([], maxChars)
  {
  }

  lemma PackedMore(text: string, pieces: seq<Piece>, a: nat, k: nat, maxChars: nat)
    requires Packed(text, pieces, a, k, maxChars)
    ensures Packed(text, pieces, a, k + 1, maxChars)
  {
    hide TooLarge, Greedy;
  }

  lemma GreedyOne(text: string, p: Piece, maxChars: nat)
    ensures Greedy(text, [p], maxChars)
  {
  }

  lemma PackedFlush(text: string, pieces: seq<Piece>, a: nat, k: nat, maxChars: nat)
    requires k <= |Split(text, '\n')| && Packed(text, pieces, a, k, maxChars)
    ensures Greedy(text, pieces + Buffered(text, a, k), maxChars)
    ensures a < k < |Split(text, '\n')| && !Bounded(Join(Split(text, '\n')[a..k + 1], '\n'), maxChars) ==>
              Packed(text, pieces + Buffered(text, a, k), k, k + 1, maxChars)
  {
    hide Split, Join, Bounded;
  }

  lemma PackedFragments(text: string, pieces: seq<Piece>, more: seq<Piece>, k: nat, maxChars: nat)
    requires Greedy(text, pieces, maxChars) && pieces < more
    requires forall i :: |pieces| <= i < |more| ==> more[i].locator.kind == DocumentFragment
    ensures Packed(text, more, k, k, maxChars)
  {
    hide Split, Join, Bounded, TooLarge;
  }

  /**
   Packs consecutive lines greedily; a line too large by itself is cut into fragments. Lines are counted
   from 0 here; the buffer holds lines `bufferStart` up to the current one.
   */
  method SplitLines(doc: Document, section: Section, maxChars: nat) returns (pieces: seq<Piece>)
    requires maxChars > 0 && IsLineSection(doc.text, section)
    ensures AllBounded(pieces, maxChars) && Greedy(doc.text, pieces, maxChars) && AllTight(doc.text, pieces, maxChars)
    ensures Tiles(doc.text, pieces, Lo(doc.text, section.locator), Hi(doc.text, section.locator))
  {
    hide Tiles, Split, Utf8Size, Offset, Join, Greedy, Packed, Buffered, AllBounded, AllTight;
    var text := doc.text;
    SectionLines(text, section);
    var lines := Split(section.text, '\n');
    ghost var all := Split(text, '\n');
    var first := section.locator.start - 1;
    ghost var lo := LineAt(text, first);
    TilesNone(text, lo);
    PackedNone(text, first, maxChars);
    TightLines(text, Piece("", section.locator), maxChars);
    pieces := [];
    var bufferStart := first;
    for offset := 0 to |lines|
      invariant first <= bufferStart <= first + offset && lo <= LineAt(text, bufferStart)
      invariant bufferStart < first + offset ==> Bounded(Join(all[bufferStart..first + offset], '\n'), maxChars)
      invariant AllBounded(pieces, maxChars) && Tiles(text, pieces, lo, LineAt(text, bufferStart))
      invariant Packed(text, pieces, bufferStart, first + offset, maxChars) && AllTight(text, pieces, maxChars)
      invariant 0 < offset && bufferStart == first + offset ==> Tiles(text, pieces, lo, LineAt(text, bufferStart) - 1)
    {
      var k := first + offset;
      var line := lines[offset];
      assert line == all[k];
      OffsetMonotone(all, first, k);
      if |line| > maxChars || Utf8Size(line) > MAX_CHUNK_BYTES {
        Utf8SizeBounds(line);
        PackedFlush(text, pieces, bufferStart, k, maxChars);
        pieces := FlushLines(text, bufferStart, k, maxChars, pieces, lo);
        ghost var flushed := pieces;
        pieces := LineFragments(text, k, maxChars, pieces, lo);
        PackedFragments(text, flushed, pieces, k + 1, maxChars);
        OffsetMonotone(all, first, k + 1);
        LineEnd(text, k + 1);
        TilesSkip(text, pieces, lo, LineAt(text, k + 1) - 1, LineAt(text, k + 1));
        bufferStart := k + 1;
      } else {
        SliceOfSlice(all, first, first + |lines|, bufferStart - first, offset + 1);
        var candidate := Join(lines[bufferStart - first..offset + 1], '\n');
        JoinOne(all, '\n', k);
        if bufferStart < k && (|candidate| > maxChars || Utf8Size(candidate) > MAX_CHUNK_BYTES) {
          PackedFlush(text, pieces, bufferStart, k, maxChars);
          pieces := FlushLines(text, bufferStart, k, maxChars, pieces, lo);
          bufferStart := k;
        } else {
          PackedMore(text, pieces, bufferStart, k, maxChars);
        }
      }
    }
    PackedFlush(text, pieces, bufferStart, first + |lines|, maxChars);
    pieces := FlushLines(text, bufferStart, first + |lines|, maxChars, pieces, lo);
  }

  /**
   How a section is divided: kept whole when it fits; otherwise a line section is packed greedily and its fragments are as long
   as the limits allow, and so are the pieces of a page section.
   */
  ghost predicate Divides(text: string, section: Section, pieces: seq<Piece>, maxChars: nat) {
    if |section.text| <= maxChars && Utf8Size(section.text) <= 65536 then pieces == [Piece(section.text, section.locator)]
    else match section.locator.kind
      case LineRange => Greedy(text, pieces, maxChars) && AllTight(text, pieces, maxChars)
      case PageFragment => AllPageTight(section, pieces, maxChars)
      case DocumentFragment => pieces == [Piece(section.text, section.locator)]
  }

  ghost predicate AllPageTight(section: Section, pieces: seq<Piece>, maxChars: nat) {
    forall i :: 0 <= i < |pieces| ==> PageTight(section, pieces[i], maxChars)
  }

  ghost predicate PageTight(section: Section, p: Piece, maxChars: nat) {
    var base := section.locator.start;
    base <= p.locator.start <= p.locator.end && NotWasteful(section.text, p.locator.start - base, p.locator.end - base, maxChars)
  }

  /** One section becomes one piece when it fits, and bounded pieces otherwise. */
  method SplitSection(doc: Document, section: Section, maxChars: nat) returns (pieces: seq<Piece>)
    requires maxChars > 0 && Exact(doc.text, Piece(section.text, section.locator))
    ensures Tiles(doc.text, pieces, Lo(doc.text, section.locator), Hi(doc.text, section.locator))
    ensures section.locator.kind != DocumentFragment ==> AllBounded(pieces, maxChars)
    ensures section.locator.kind == LineRange ==> Greedy(doc.text, pieces, maxChars)
    ensures Bounded(section.text, maxChars) ==> pieces == [Piece(section.text, section.locator)]
    ensures Divides(doc.text, section, pieces, maxChars)
  {
    hide Tiles, Split, Utf8Size, Offset, NotWasteful, Greedy, AllTight;
    ghost var lo, hi := Lo(doc.text, section.locator), Hi(doc.text, section.locator);
    var whole := Piece(section.text, section.locator);
    TilesNone(doc.text, lo);
    GreedyOne(doc.text, whole, maxChars);
    assert [] + [whole] == [whole];
    if Bounded(section.text, maxChars) {
      TilesAppend(doc.text, [], whole, lo, lo, hi);
      pieces := [] + [whole];
    } else if section.locator.kind == LineRange {
      pieces := SplitLines(doc, section, maxChars);
    } else if section.locator.kind == PageFragment {
      var spans := BoundedSpans(section.text, maxChars);
      pieces := [];
      for i := 0 to |spans|
        invariant Tiles(doc.text, pieces, lo, lo + if i == 0 then 0 else spans[i - 1].1)
        invariant AllBounded(pieces, maxChars) && AllPageTight(section, pieces, maxChars)
      {
        var (start, end) := spans[i];
        var piece := Piece(section.text[start..end],
                           section.locator.(start := section.locator.start + start,
                                            end := section.locator.start + end));
        PagePartExact(doc.text, whole, start, end);
        TilesAppend(doc.text, pieces, piece, lo, lo + start, lo + end);
        pieces := pieces + [piece];
      }
    } else {
      TilesAppend(doc.text, [], whole, lo, lo, hi);
      pieces := [] + [whole];
    }
  }

  function ChunkPieces(chunks: seq<Chunk>): seq<Piece> {
    seq(|chunks|, i requires 0 <= i < |chunks| => Piece(chunks[i].text, chunks[i].locator))
  }

  /** The pieces that are not white space. */
  function Kept(pieces: seq<Piece>): seq<Piece> {
    if pieces == [] then []
    else
      var n := |pieces| - 1;
      Kept(pieces[..n]) + if Blank(pieces[n].text) then [] else [pieces[n]]
  }

  function KeptAll(parts: seq<seq<Piece>>): seq<Piece> {
    if parts == [] then [] else KeptAll(parts[..|parts| - 1]) + Kept(parts[|parts| - 1])
  }

  ghost predicate AllDivide(doc: Document, parts: seq<seq<Piece>>, maxChars: nat) {
    |parts| <= |doc.sections| && forall s :: 0 <= s < |parts| ==> Divides(doc.text, doc.sections[s], parts[s], maxChars)
  }

  lemma KeptMore(pieces: seq<Piece>, i: nat)
    requires i < |pieces|
    ensures Kept(pieces[..i + 1]) == Kept(pieces[..i]) + if Blank(pieces[i].text) then [] else [pieces[i]]
  {
    assert pieces[..i + 1][..i] == pieces[..i];
  }

  lemma KeptAllMore(parts: seq<seq<Piece>>, part: seq<Piece>)
    ensures KeptAll(parts + [part]) == KeptAll(parts) + Kept(part)
  {
    assert (parts + [part])[..|parts|] == parts;
  }

  /** A chunk lies inside one section and carries that section's heading path. */
  ghost predicate InSection(text: string, section: Section, chunk: Chunk) {
    && Located(text, section.locator) && Located(text, chunk.locator)
    && Lo(text, section.locator) <= Lo(text, chunk.locator)
    && Hi(text, chunk.locator) <= Hi(text, section.locator)
    && chunk.headingPath == section.headingPath
  }

  ghost predicate GoodChunk(doc: Document, chunks: seq<Chunk>, i: nat, maxChars: nat)
    requires i < |chunks|
  {
    && chunks[i].ordinal == i
    && !Blank(chunks[i].text) && |chunks[i].text| <= maxChars && Utf8Size(chunks[i].text) <= 65536
    && RebuildChunkText(doc, chunks[i].locator) == Some(chunks[i].text)
    && exists s :: 0 <= s < |doc.sections| && InSection(doc.text, doc.sections[s], chunks[i])
  }

  ghost predicate GoodChunks(doc: Document, chunks: seq<Chunk>, maxChars: nat) {
    forall i :: 0 <= i < |chunks| ==> GoodChunk(doc, chunks, i, maxChars)
  }

  lemma AddChunk(doc: Document, chunks: seq<Chunk>, s: nat, chunk: Chunk, maxChars: nat)
    requires s < |doc.sections| && GoodChunks(doc, chunks, maxChars)
    requires chunk.ordinal == |chunks| && !Blank(chunk.text) && Bounded(chunk.text, maxChars)
    requires Exact(doc.text, Piece(chunk.text, chunk.locator)) && InSection(doc.text, doc.sections[s], chunk)
    ensures GoodChunks(doc, chunks + [chunk], maxChars)
    ensures ChunkPieces(chunks + [chunk]) == ChunkPieces(chunks) + [Piece(chunk.text, chunk.locator)]
  {
    hide Split, Offset, Utf8Size, Join;
    RebuildIsSlice(doc, chunk.locator);
    var more := chunks + [chunk];
    forall i | 0 <= i < |more|
      ensures GoodChunk(doc, more, i, maxChars)
    {
      if i < |chunks| {
        assert GoodChunk(doc, chunks, i, maxChars);
      }
    }
  }

  /**
   The chunks of a document: numbered 0..n-1 in document order, never blank, within both size limits, never
   crossing a section, each rebuilt exactly by its own locator; together they leave out only white space. They
   are what is left of the sections' pieces without the blank ones.
   */
  method ChunkDocument(doc: Document, maxChars: int) returns (result: Result<seq<Chunk>, string>, ghost parts: seq<seq<Piece>>)
    requires WellExtracted(doc)
    ensures result.Ok? <==> maxChars > 0
    ensures result.Ok? ==>
              && GoodChunks(doc, result.value, maxChars)
              && Tiles(doc.text, ChunkPieces(result.value), 0, |doc.text|)
    ensures result.Ok? ==>
              && |parts| == |doc.sections| && AllDivide(doc, parts, maxChars)
              && ChunkPieces(result.value) == KeptAll(parts)
  {
    hide Tiles, Exact, Split, Offset, Utf8Size, GoodChunks, Blank, Join, Lo, Hi, Divides, Kept, KeptAll;
    parts := [];
    if maxChars <= 0 { return Err("max_chars must be a positive integer"), parts; }
    var chunks: seq<Chunk> := [];
    ghost var whole := SectionPieces(doc.sections);
    TilesExact(doc.text, whole, 0, |doc.text|);
    NoChunks(doc, maxChars);
    NoParts();
    for s := 0 to |doc.sections|
      invariant GoodChunks(doc, chunks, maxChars)
      invariant Tiles(doc.text, ChunkPieces(chunks), 0, EndBefore(doc.text, whole, 0, s))
      invariant |parts| == s && AllDivide(doc, parts, maxChars) && ChunkPieces(chunks) == KeptAll(parts)
    {
      var section := doc.sections[s];
      assert whole[s] == Piece(section.text, section.locator);
      var pieces := SplitSection(doc, section, maxChars);
      chunks := TakePieces(doc, chunks, s, pieces, maxChars);
      KeptAllMore(parts, pieces);
      parts := parts + [pieces];
    }
    TilesGap(doc.text, whole, 0, |doc.text|, |doc.sections|);
    TilesSkip(doc.text, ChunkPieces(chunks), 0, EndBefore(doc.text, whole, 0, |doc.sections|), |doc.text|);
    result := Ok(chunks);
  }

  lemma NoParts()
    ensures KeptAll([]) == [] && ChunkPieces([]) == []
  {
  }

  lemma NoChunks(doc: Document, maxChars: nat)
    ensures GoodChunks(doc, [], maxChars) && Tiles(doc.text, ChunkPieces([]), 0, 0)
  {
    TilesNone(doc.text, 0);
  }

  /** The inner loop of `chunk_document`: keeps the pieces of section `s` that are not blank. */
  method TakePieces(doc: Document, chunks: seq<Chunk>, s: nat, pieces: seq<Piece>, maxChars: nat)
    returns (more: seq<Chunk>)
    requires WellExtracted(doc) && s < |doc.sections| && GoodChunks(doc, chunks, maxChars)
    requires AllExact(doc.text, SectionPieces(doc.sections))
    requires Exact(doc.text, Piece(doc.sections[s].text, doc.sections[s].locator))
    requires Tiles(doc.text, pieces, Lo(doc.text, doc.sections[s].locator), Hi(doc.text, doc.sections[s].locator))
    requires AllBounded(pieces, maxChars)
    requires Tiles(doc.text, ChunkPieces(chunks), 0, EndBefore(doc.text, SectionPieces(doc.sections), 0, s))
    ensures GoodChunks(doc, more, maxChars)
    ensures Tiles(doc.text, ChunkPieces(more), 0, EndBefore(doc.text, SectionPieces(doc.sections), 0, s + 1))
    ensures ChunkPieces(more) == ChunkPieces(chunks) + Kept(pieces)
  {
    hide Tiles, Split, Offset, Utf8Size, GoodChunks, Blank, Join, Lo, Hi, Kept, ChunkPieces;
    KeptNone(pieces);
    var section := doc.sections[s];
    ghost var whole := SectionPieces(doc.sections);
    ghost var lo, hi := Lo(doc.text, section.locator), Hi(doc.text, section.locator);
    TilesGap(doc.text, whole, 0, |doc.text|, s);
    assert whole[s] == Piece(section.text, section.locator);
    TilesSkip(doc.text, ChunkPieces(chunks), 0, EndBefore(doc.text, whole, 0, s), lo);
    TilesExact(doc.text, pieces, lo, hi);
    more := chunks;
    for i := 0 to |pieces|
      invariant GoodChunks(doc, more, maxChars)
      invariant Tiles(doc.text, ChunkPieces(more), 0, EndBefore(doc.text, pieces, lo, i))
      invariant ChunkPieces(more) == ChunkPieces(chunks) + Kept(pieces[..i])
    {
      var p := pieces[i];
      KeptMore(pieces, i);
      TilesGap(doc.text, pieces, lo, hi, i);
      TilesSkip(doc.text, ChunkPieces(more), 0, EndBefore(doc.text, pieces, lo, i), Lo(doc.text, p.locator));
      if Blank(p.text) {
        BlankPiece(doc.text, p);
        TilesSkip(doc.text, ChunkPieces(more), 0, Lo(doc.text, p.locator), Hi(doc.text, p.locator));
      } else {
        var chunk := Chunk(|more|, p.text, p.locator, section.headingPath);
        AddChunk(doc, more, s, chunk, maxChars);
        TilesAppend(doc.text, ChunkPieces(more), p, 0, Lo(doc.text, p.locator), Hi(doc.text, p.locator));
        more := more + [chunk];
      }
    }
    TilesGap(doc.text, pieces, lo, hi, |pieces|);
    TilesSkip(doc.text, ChunkPieces(more), 0, EndBefore(doc.text, pieces, lo, |pieces|), hi);
    assert pieces[..|pieces|] == pieces;
  }

  lemma KeptNone(pieces: seq<Piece>)
    ensures Kept(pieces[..0]) == []
  {
  }
}
