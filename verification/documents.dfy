/**
 Extracted documents, their locators, and what it means for a list of located pieces to tile a text:
 every piece is exactly the slice its locator names, pieces follow each other without overlapping, and
 nothing but white space is left out.
 */
module Documents {
  import opened Wrappers
  import opened Text

  datatype LocatorKind = LineRange | PageFragment | DocumentFragment

  /** 1-based inclusive lines, or 0-based half-open character offsets (inside a 1-based page, or the whole text). */
  datatype Locator = Locator(kind: LocatorKind, start: int, end: int, page: Option<int>)

  datatype Section = Section(text: string, locator: Locator, headingPath: seq<string>, level: nat)

  datatype Document = Document(text: string, sections: seq<Section>)

  datatype Chunk = Chunk(ordinal: nat, text: string, locator: Locator, headingPath: seq<string>)

  /** Re-derives the text a locator names; None when the locator does not fit the document. */
  function RebuildChunkText(doc: Document, loc: Locator): Option<string> {
    match loc.kind
    case LineRange =>
      var lines := Split(doc.text, '\n');
      if loc.start < 1 || loc.end > |lines| || loc.start > loc.end then None
      else Some(Join(lines[loc.start - 1..loc.end], '\n'))
    case PageFragment =>
      if loc.page.None? || loc.page.value < 1 then None else
      var pages := Split(doc.text, PAGE_BREAK);
      if loc.page.value > |pages| then None else
      var page := pages[loc.page.value - 1];
      if loc.start < 0 || loc.end > |page| || loc.start > loc.end then None
      else Some(page[loc.start..loc.end])
    case DocumentFragment =>
      if loc.start < 0 || loc.end > |doc.text| || loc.start > loc.end then None
      else Some(doc.text[loc.start..loc.end])
  }

  predicate Located(text: string, loc: Locator) {
    match loc.kind
    case LineRange => 1 <= loc.start <= loc.end <= |Split(text, '\n')|
    case PageFragment =>
      && loc.page.Some? && 1 <= loc.page.value <= |Split(text, PAGE_BREAK)|
      && 0 <= loc.start <= loc.end <= |Split(text, PAGE_BREAK)[loc.page.value - 1]|
    case DocumentFragment => 0 <= loc.start <= loc.end <= |text|
  }

  /** The absolute position in the text at which a locator starts. */
  function Lo(text: string, loc: Locator): int
    requires Located(text, loc)
  {
    match loc.kind
    case LineRange => Offset(Split(text, '\n'), loc.start - 1)
    case PageFragment => Offset(Split(text, PAGE_BREAK), loc.page.value - 1) + loc.start
    case DocumentFragment => loc.start
  }

  function Hi(text: string, loc: Locator): int
    requires Located(text, loc)
  {
    match loc.kind
    case LineRange => Offset(Split(text, '\n'), loc.end) - 1
    case PageFragment => Offset(Split(text, PAGE_BREAK), loc.page.value - 1) + loc.end
    case DocumentFragment => loc.end
  }

  lemma LineSlice(text: string, a: nat, b: nat)
    requires a < b <= |Split(text, '\n')|
    ensures 0 <= Offset(Split(text, '\n'), a) <= Offset(Split(text, '\n'), b) - 1 <= |text|
    ensures Join(Split(text, '\n')[a..b], '\n') ==
            text[Offset(Split(text, '\n'), a)..Offset(Split(text, '\n'), b) - 1]
  {
    hide Split, Join, Offset;
    JoinSplit(text, '\n');
    JoinSlice(Split(text, '\n'), '\n', a, b);
  }

  lemma PageSlice(text: string, p: nat, a: nat, b: nat)
    requires p < |Split(text, PAGE_BREAK)| && a <= b <= |Split(text, PAGE_BREAK)[p]|
    ensures Offset(Split(text, PAGE_BREAK), p) + b <= |text|
    ensures Split(text, PAGE_BREAK)[p][a..b] ==
            text[Offset(Split(text, PAGE_BREAK), p) + a..Offset(Split(text, PAGE_BREAK), p) + b]
  {
    hide Split, Join, Offset;
    var pages := Split(text, PAGE_BREAK);
    JoinSplit(text, PAGE_BREAK);
    PieceAt(pages, PAGE_BREAK, p);
    var at := Offset(pages, p);
    SliceOfSlice(text, at, at + |pages[p]|, a, b);
  }

  /**
   A locator that fits is rebuilt as one contiguous slice of the document, whichever of the three coordinate
   systems it uses; one that does not fit is refused.
   */
  lemma {:induction false} RebuildIsSlice(doc: Document, loc: Locator)
    ensures RebuildChunkText(doc, loc) ==
            if Located(doc.text, loc) && 0 <= Lo(doc.text, loc) <= Hi(doc.text, loc) <= |doc.text|
            then Some(doc.text[Lo(doc.text, loc)..Hi(doc.text, loc)]) else None
    ensures Located(doc.text, loc) ==> 0 <= Lo(doc.text, loc) <= Hi(doc.text, loc) <= |doc.text|
  {
    hide Split, Join, Offset;
    if Located(doc.text, loc) {
      if loc.kind.LineRange? {
        LineSlice(doc.text, loc.start - 1, loc.end);
      } else if loc.kind.PageFragment? {
        PageSlice(doc.text, loc.page.value - 1, loc.start, loc.end);
      }
    }
  }

  datatype Piece = Piece(text: string, locator: Locator)

  predicate Exact(text: string, p: Piece) {
    && Located(text, p.locator)
    && 0 <= Lo(text, p.locator) <= Hi(text, p.locator) <= |text|
    && p.text == text[Lo(text, p.locator)..Hi(text, p.locator)]
  }

  predicate Within(text: string, p: Piece, k: int)
    requires Exact(text, p)
  {
    Lo(text, p.locator) <= k < Hi(text, p.locator)
  }

  ghost predicate SpaceBetween(text: string, lo: int, hi: int) {
    forall k :: 0 <= lo <= k < hi && k < |text| ==> IsSpace(text[k])
  }

  ghost predicate AllExact(text: string, pieces: seq<Piece>) {
    forall i :: 0 <= i < |pieces| ==> Exact(text, pieces[i])
  }

  /** `pieces` tile `text` from `lo` to `hi`. */
  ghost predicate Tiles(text: string, pieces: seq<Piece>, lo: int, hi: int) {
    && AllExact(text, pieces)
    && (forall i :: 0 <= i < |pieces| ==> lo <= Lo(text, pieces[i].locator) && Hi(text, pieces[i].locator) <= hi)
    && (forall i, j :: 0 <= i < j < |pieces| ==> Hi(text, pieces[i].locator) <= Lo(text, pieces[j].locator))
    && (forall k :: 0 <= lo <= k < hi && k < |text| && !IsSpace(text[k]) ==> Covered(text, pieces, k))
  }

  ghost predicate Covered(text: string, pieces: seq<Piece>, k: int)
    requires AllExact(text, pieces)
  {
    exists i :: 0 <= i < |pieces| && Within(text, pieces[i], k)
  }

  lemma CoveredMore(text: string, pieces: seq<Piece>, p: Piece, k: int)
    requires AllExact(text, pieces) && Exact(text, p)
    requires Covered(text, pieces, k) || Within(text, p, k)
    ensures AllExact(text, pieces + [p])
    ensures Covered(text, pieces + [p], k)
  {
    if Covered(text, pieces, k) {
      var i :| 0 <= i < |pieces| && Within(text, pieces[i], k);
      assert (pieces + [p])[i] == pieces[i];
    } else {
      assert (pieces + [p])[|pieces|] == p;
    }
  }

  /** Lays one more piece after `mid`; only white space may be skipped before and after it. */
  lemma TilesAppend(text: string, pieces: seq<Piece>, p: Piece, lo: int, mid: int, hi: int)
    requires 0 <= lo <= mid && Tiles(text, pieces, lo, mid)
    requires Exact(text, p) && mid <= Lo(text, p.locator) && Hi(text, p.locator) <= hi
    requires SpaceBetween(text, mid, Lo(text, p.locator)) && SpaceBetween(text, Hi(text, p.locator), hi)
    ensures Tiles(text, pieces + [p], lo, hi)
  {
    var more := pieces + [p];
    assert forall i :: 0 <= i < |more| ==> more[i] == (if i < |pieces| then pieces[i] else p);
    forall k | 0 <= lo <= k < hi && k < |text| && !IsSpace(text[k])
      ensures Covered(text, more, k)
    {
      CoveredMore(text, pieces, p, k);
    }
  }

  lemma TilesSkip(text: string, pieces: seq<Piece>, lo: int, mid: int, hi: int)
    requires 0 <= lo <= mid <= hi && Tiles(text, pieces, lo, mid) && SpaceBetween(text, mid, hi)
    ensures Tiles(text, pieces, lo, hi)
  {
  }

  lemma TilesNone(text: string, lo: int)
    ensures Tiles(text, [], lo, lo)
  {
  }

  /** Cutting the slice `lo..hi` again gives an exact fragment of the whole document. */
  lemma FragmentExact(text: string, lo: nat, hi: nat, a: nat, b: nat)
    requires lo <= hi <= |text| && a <= b <= hi - lo
    ensures var p := Piece(text[lo..hi][a..b], Locator(DocumentFragment, lo + a, lo + b, None));
            Exact(text, p) && Lo(text, p.locator) == lo + a && Hi(text, p.locator) == lo + b
  {
    SliceOfSlice(text, lo, hi, a, b);
  }

  /** Cutting a page fragment again gives an exact fragment of the same page. */
  lemma PagePartExact(text: string, whole: Piece, a: nat, b: nat)
    requires Exact(text, whole) && whole.locator.kind.PageFragment? && a <= b <= |whole.text|
    ensures var loc := whole.locator;
            var p := Piece(whole.text[a..b], loc.(start := loc.start + a, end := loc.start + b));
            && Exact(text, p)
            && Lo(text, p.locator) == Lo(text, loc) + a && Hi(text, p.locator) == Lo(text, loc) + b
  {
    hide Split, Offset;
    SliceOfSlice(text, Lo(text, whole.locator), Hi(text, whole.locator), a, b);
  }

  ghost function EndBefore(text: string, pieces: seq<Piece>, lo: int, i: nat): int
    requires AllExact(text, pieces) && i <= |pieces|
  {
    if i == 0 then lo else Hi(text, pieces[i - 1].locator)
  }

  ghost function StartAt(text: string, pieces: seq<Piece>, hi: int, i: nat): int
    requires AllExact(text, pieces) && i <= |pieces|
  {
    if i == |pieces| then hi else Lo(text, pieces[i].locator)
  }

  /** Between two neighbouring pieces of a tiling (or its two ends) there is only white space. */
  lemma TilesGap(text: string, pieces: seq<Piece>, lo: int, hi: int, i: nat)
    requires 0 <= lo <= hi && Tiles(text, pieces, lo, hi) && i <= |pieces|
    ensures lo <= EndBefore(text, pieces, lo, i) <= StartAt(text, pieces, hi, i) <= hi
    ensures SpaceBetween(text, EndBefore(text, pieces, lo, i), StartAt(text, pieces, hi, i))
  {
    var a, b := EndBefore(text, pieces, lo, i), StartAt(text, pieces, hi, i);
    forall k | a <= k < b && k < |text|
      ensures IsSpace(text[k])
    {
      forall j | 0 <= j < |pieces|
        ensures !Within(text, pieces[j], k)
      {
        if j < i - 1 {
          assert Hi(text, pieces[j].locator) <= Lo(text, pieces[i - 1].locator);
        } else if j > i {
          assert Hi(text, pieces[i].locator) <= Lo(text, pieces[j].locator);
        }
      }
      assert !Covered(text, pieces, k);
    }
  }

  lemma TilesExact(text: string, pieces: seq<Piece>, lo: int, hi: int)
    requires Tiles(text, pieces, lo, hi)
    ensures AllExact(text, pieces)
    ensures forall i :: 0 <= i < |pieces| ==>
      lo <= Lo(text, pieces[i].locator) && Hi(text, pieces[i].locator) <= hi
  {
  }

  lemma BlankPiece(text: string, p: Piece)
    requires Exact(text, p) && Blank(p.text)
    ensures SpaceBetween(text, Lo(text, p.locator), Hi(text, p.locator))
  {
    SpaceSlice(text, Lo(text, p.locator), p.text);
  }

  /** Every position that is not white space lies in exactly one piece of a tiling. */
  lemma TilesOnce(text: string, pieces: seq<Piece>, lo: int, hi: int, k: int)
    requires Tiles(text, pieces, lo, hi)
    requires 0 <= lo <= k < hi && k < |text| && !IsSpace(text[k])
    ensures exists i :: 0 <= i < |pieces| && Within(text, pieces[i], k) &&
                        forall j :: 0 <= j < |pieces| && j != i ==> !Within(text, pieces[j], k)
  {
    assert Covered(text, pieces, k);
    var i :| 0 <= i < |pieces| && Within(text, pieces[i], k);
    forall j | 0 <= j < |pieces| && j != i
      ensures !Within(text, pieces[j], k)
    {
      if j < i {
        assert Hi(text, pieces[j].locator) <= Lo(text, pieces[i].locator);
      } else {
        assert Hi(text, pieces[i].locator) <= Lo(text, pieces[j].locator);
      }
    }
  }

  // ---- lines as pieces ----

  function LineAt(text: string, k: nat): int
    requires k <= |Split(text, '\n')|
  {
    Offset(Split(text, '\n'), k)
  }

  /** Lines `a` to `b` (0-based, half open) joined back are an exact line-range piece. */
  lemma LinesExact(text: string, a: nat, b: nat)
    requires a < b <= |Split(text, '\n')|
    ensures Exact(text, Piece(Join(Split(text, '\n')[a..b], '\n'), Locator(LineRange, a + 1, b, None)))
    ensures 0 <= LineAt(text, a) < LineAt(text, b) <= |text| + 1
  {
    hide Split, Join, Offset;
    LineSlice(text, a, b);
    OffsetMonotone(Split(text, '\n'), a, b);
  }

  lemma LineEnd(text: string, k: nat)
    requires 0 < k <= |Split(text, '\n')|
    ensures SpaceBetween(text, LineAt(text, k) - 1, LineAt(text, k))
  {
    hide Split, Join, Offset;
    JoinSplit(text, '\n');
    if k < |Split(text, '\n')| {
      PieceAt(Split(text, '\n'), '\n', k);
    } else {
      JoinLength(Split(text, '\n'), '\n');
    }
  }

  lemma BlankLine(text: string, k: nat)
    requires k < |Split(text, '\n')| && Blank(Split(text, '\n')[k])
    ensures SpaceBetween(text, LineAt(text, k), LineAt(text, k + 1))
  {
    hide Split, Join, Offset;
    JoinSplit(text, '\n');
    PieceAt(Split(text, '\n'), '\n', k);
    LineEnd(text, k + 1);
    OffsetStep(Split(text, '\n'), k);
    SpaceSlice(text, LineAt(text, k), Split(text, '\n')[k]);
  }

  lemma SpaceSlice(text: string, at: nat, line: string)
    requires at + |line| <= |text| && text[at..at + |line|] == line && Blank(line)
    ensures SpaceBetween(text, at, at + |line|)
  {
    forall i | at <= i < at + |line|
      ensures IsSpace(text[i])
    {
      assert text[i] == line[i - at];
    }
  }

  lemma LinesTotal(text: string)
    ensures LineAt(text, |Split(text, '\n')|) == |text| + 1
  {
    JoinSplit(text, '\n');
    JoinLength(Split(text, '\n'), '\n');
  }

  // ---- sections as pieces ----

  function SectionPieces(sections: seq<Section>): seq<Piece> {
    seq(|sections|, i requires 0 <= i < |sections| => Piece(sections[i].text, sections[i].locator))
  }

  /** What extraction hands over: exact, ordered sections that leave out nothing but white space. */
  ghost predicate WellExtracted(doc: Document) {
    && Tiles(doc.text, SectionPieces(doc.sections), 0, |doc.text|)
    && forall i :: 0 <= i < |doc.sections| ==> doc.sections[i].locator.kind != DocumentFragment
  }

  lemma AddSection(sections: seq<Section>, s: Section)
    ensures SectionPieces(sections + [s]) == SectionPieces(sections) + [Piece(s.text, s.locator)]
  {
  }
}
