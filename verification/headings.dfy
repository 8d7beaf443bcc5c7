/**
 What a heading path means: the headings still open at a line. The code keeps the first `level - 1` entries of
 the path; this is the list of enclosing headings exactly when no entry it keeps is at the new level or deeper.
 */
module HeadingPaths {
  import Wrappers
  import opened Text
  import opened Extraction

  // ---- what a line is, read off its text ----

  function Hashes(n: nat): string {
    seq(n, i => '#')
  }

  predicate Trimmed(title: string) {
    title != [] && !IsSpace(title[0]) && !IsSpace(title[|title| - 1])
  }

  /** One to six hashes, white space, a title, and nothing but white space after it. */
  ghost predicate HeadingText(line: string, level: nat, title: string) {
    1 <= level <= 6 && Trimmed(title) &&
    exists gap, tail :: gap != [] && Blank(gap) && Blank(tail) && line == Hashes(level) + gap + title + tail
  }

  /** Three back quotes or three tildes, after white space at most. */
  ghost predicate FenceText(line: string) {
    exists gap, rest :: Blank(gap) && (line == gap + "```" + rest || line == gap + "~~~" + rest)
  }

  ghost function FencesBefore(lines: seq<string>, k: nat): set<nat>
    requires k <= |lines|
  {
    set i | 0 <= i < k && FenceText(lines[i])
  }

  /**
   The kind of a line from the text alone: after an odd number of fence lines everything is body; otherwise, in Markdown, a
   heading is a heading with its level and title, a line of white space is a gap, and any other line is body.
   */
  lemma LineKinds(lines: seq<string>, markdown: bool, k: nat)
    requires k < |lines|
    ensures var fenced := |FencesBefore(lines, k)| % 2 == 1;
            && (forall l: nat, t :: Classify(lines, markdown, k) == HeadingLine(l, t) <==> !fenced && markdown && HeadingText(lines[k], l, t))
            && (Classify(lines, markdown, k) == GapLine <==> !fenced && Blank(lines[k]))
  {
    hide Heading, IsFence, HeadingText, FencesBefore, InFence, Blank;
    FenceParity(lines, k);
    forall l: nat, t
      ensures Heading(lines[k]) == Wrappers.Some((l, t)) <==> HeadingText(lines[k], l, t)
    {
      HeadingIff(lines[k], l, t);
    }
    HeadingNotBlank(lines[k]);
  }

  lemma {:induction false} FenceParity(lines: seq<string>, k: nat)
    requires k <= |lines|
    ensures InFence(lines, k) <==> |FencesBefore(lines, k)| % 2 == 1
  {
    if k == 0 {
      assert FencesBefore(lines, 0) == {};
    } else {
      hide IsFence, FenceText, FencesBefore;
      FenceParity(lines, k - 1);
      FenceIff(lines[k - 1]);
      FenceMore(lines, k);
    }
  }

  lemma FenceMore(lines: seq<string>, k: nat)
    requires 0 < k <= |lines|
    ensures |FencesBefore(lines, k)| == |FencesBefore(lines, k - 1)| + if FenceText(lines[k - 1]) then 1 else 0
  {
    hide FenceText;
    var before := FencesBefore(lines, k - 1);
    if FenceText(lines[k - 1]) {
      assert FencesBefore(lines, k) == before + {k - 1};
    } else {
      assert FencesBefore(lines, k) == before;
    }
  }

  lemma FenceIff(line: string)
    ensures IsFence(line) <==> FenceText(line)
  {
    hide IsSpace;
    if IsFence(line) {
      var gap := LeftGap(line);
      var s := StripLeft(line);
      var mark := if "```" <= s then "```" else "~~~";
      assert s == mark + s[3..];
      assert line == gap + mark + s[3..];
    }
    if FenceText(line) {
      var gap, rest :| Blank(gap) && (line == gap + "```" + rest || line == gap + "~~~" + rest);
      if line == gap + "```" + rest { FenceMark(gap, "```", rest); } else { FenceMark(gap, "~~~", rest); }
    }
  }

  lemma FenceMark(gap: string, mark: string, rest: string)
    requires Blank(gap) && mark != [] && (mark[0] == '`' || mark[0] == '~')
    ensures mark <= StripLeft(gap + mark + rest)
  {
    hide IsSpace;
    NotSpace();
    assert gap + mark + rest == gap + (mark + rest) && (mark + rest)[0] == mark[0];
    StripLeftAt(gap, mark + rest);
  }

  lemma NotSpace()
    ensures !IsSpace('`') && !IsSpace('~') && !IsSpace('#')
  {
  }

  lemma HeadingNotBlank(line: string)
    ensures Heading(line).Some? ==> !Blank(line)
  {
    assert !IsSpace('#');
  }

  lemma HeadingIff(line: string, level: nat, title: string)
    ensures Heading(line) == Wrappers.Some((level, title)) <==> HeadingText(line, level, title)
  {
    hide Heading, HeadingText;
    if Heading(line) == Wrappers.Some((level, title)) { HeadingHasText(line, level, title); }
    if HeadingText(line, level, title) { TextIsHeading(line, level, title); }
  }

  lemma HeadingHasText(line: string, level: nat, title: string)
    requires Heading(line) == Wrappers.Some((level, title))
    ensures HeadingText(line, level, title)
  {
    hide IsSpace, StripLeft, StripRight, HashCount;
    HashesCounted(line);
    var rest := line[level..];
    var gap := LeftGap(rest);
    var tail := RightGap(StripLeft(rest));
    assert line == Hashes(level) + rest;
    assert rest == gap + (title + tail);
    assert StripLeft(rest)[0] == title[0];
    assert line == Hashes(level) + gap + title + tail;
  }

  lemma TextIsHeading(line: string, level: nat, title: string)
    requires HeadingText(line, level, title)
    ensures Heading(line) == Wrappers.Some((level, title))
  {
    hide IsSpace, StripLeft, StripRight, HashCount;
    NotSpace();
    var gap, tail :| gap != [] && Blank(gap) && Blank(tail) && line == Hashes(level) + gap + title + tail;
    var rest := gap + (title + tail);
    assert line == Hashes(level) + rest && line[level..] == rest && line[level] == gap[0];
    CountHashes(level, rest);
    assert (title + tail)[0] == title[0];
    StripLeftAt(gap, title + tail);
    StripRightAt(title, tail);
    assert rest[|gap|] == title[0];
  }

  lemma {:induction false} HashesCounted(line: string)
    ensures HashCount(line) <= |line| && line[..HashCount(line)] == Hashes(HashCount(line))
  {
    if line != [] && line[0] == '#' {
      HashesCounted(line[1..]);
      assert line == [line[0]] + line[1..];
    }
  }

  lemma {:induction false} CountHashes(n: nat, rest: string)
    requires rest == [] || rest[0] != '#'
    ensures HashCount(Hashes(n) + rest) == n
  {
    var s := Hashes(n) + rest;
    if n == 0 {
      assert s == rest;
    } else {
      CountHashes(n - 1, rest);
      assert s[0] == '#' && s[1..] == Hashes(n - 1) + rest;
    }
  }

  lemma {:induction false} LeftGap(s: string) returns (gap: string)
    ensures s == gap + StripLeft(s) && Blank(gap) && (StripLeft(s) == [] || !IsSpace(StripLeft(s)[0]))
    ensures s != [] && IsSpace(s[0]) ==> gap != []
    ensures !Blank(s) ==> StripLeft(s) != []
  {
    hide IsSpace;
    if s != [] && IsSpace(s[0]) {
      gap := LeftGap(s[1..]);
      gap := [s[0]] + gap;
      assert s == [s[0]] + s[1..];
    } else {
      gap := [];
    }
  }

  lemma {:induction false} RightGap(s: string) returns (tail: string)
    ensures s == StripRight(s) + tail && Blank(tail) && (StripRight(s) == [] || !IsSpace(StripRight(s)[|StripRight(s)| - 1]))
    ensures s != [] && !IsSpace(s[0]) ==> StripRight(s) != []
  {
    hide IsSpace;
    if s != [] && IsSpace(s[|s| - 1]) {
      tail := RightGap(s[..|s| - 1]);
      tail := tail + [s[|s| - 1]];
      assert s == s[..|s| - 1] + [s[|s| - 1]];
    } else {
      tail := [];
    }
  }

  lemma {:induction false} StripLeftAt(gap: string, s: string)
    requires Blank(gap) && (s == [] || !IsSpace(s[0]))
    ensures StripLeft(gap + s) == s
  {
    hide IsSpace;
    if gap == [] {
      assert gap + s == s;
    } else {
      assert (gap + s)[1..] == gap[1..] + s;
      StripLeftAt(gap[1..], s);
    }
  }

  lemma {:induction false} StripRightAt(s: string, tail: string)
    requires Blank(tail) && (s == [] || !IsSpace(s[|s| - 1]))
    ensures StripRight(s + tail) == s
    decreases |tail|
  {
    hide IsSpace;
    if tail == [] {
      assert s + tail == s;
    } else {
      var n := |tail| - 1;
      assert (s + tail)[..|s + tail| - 1] == s + tail[..n] && (s + tail)[|s + tail| - 1] == tail[n];
      StripRightAt(s, tail[..n]);
    }
  }

  // ---- heading paths ----

  datatype OpenHeading = OpenHeading(level: nat, title: string)

  /** The leading entries whose level is above (smaller than) `level`. */
  function Enclosing(open: seq<OpenHeading>, level: nat): seq<OpenHeading> {
    if open == [] || open[0].level >= level then [] else [open[0]] + Enclosing(open[1..], level)
  }

  /** The headings open after the first `k` lines: a heading closes every open one at its own level or deeper. */
  function OpenAt(lines: seq<string>, markdown: bool, k: nat): seq<OpenHeading>
    requires k <= |lines|
  {
    if k == 0 then [] else
    var before := OpenAt(lines, markdown, k - 1);
    match Classify(lines, markdown, k - 1)
    case HeadingLine(level, title) => Enclosing(before, level) + [OpenHeading(level, title)]
    case _ => before
  }

  function Titles(open: seq<OpenHeading>): seq<string> {
    seq(|open|, i requires 0 <= i < |open| => open[i].title)
  }

  predicate Nested(open: seq<OpenHeading>) {
    && (forall i :: 0 <= i < |open| ==> open[i].level >= 1)
    && (forall i, j :: 0 <= i < j < |open| ==> open[i].level < open[j].level)
  }

  lemma {:induction false} EnclosingPrefix(open: seq<OpenHeading>, level: nat)
    requires Nested(open)
    ensures Enclosing(open, level) <= open
    ensures forall i :: 0 <= i < |open| ==> (i < |Enclosing(open, level)| <==> open[i].level < level)
  {
    if open != [] && open[0].level < level {
      EnclosingPrefix(open[1..], level);
      assert open == [open[0]] + open[1..];
      forall i | 0 <= i < |open|
        ensures i < |Enclosing(open, level)| <==> open[i].level < level
      {
        assert i > 0 ==> open[i] == open[1..][i - 1];
      }
    } else if open != [] {
      assert forall i :: 0 < i < |open| ==> open[0].level < open[i].level;
    }
  }

  lemma {:induction false} OpenNested(lines: seq<string>, markdown: bool, k: nat)
    requires k <= |lines|
    ensures Nested(OpenAt(lines, markdown, k))
  {
    if k > 0 {
      OpenNested(lines, markdown, k - 1);
      var before := OpenAt(lines, markdown, k - 1);
      match Classify(lines, markdown, k - 1)
      case HeadingLine(level, title) => EnclosingPrefix(before, level);
      case _ =>
    }
  }

  /** In a nested list, level `n` or deeper is reached after at most `n - 1` entries of smaller levels. */
  lemma {:induction false} NestedDepth(open: seq<OpenHeading>, i: nat)
    requires Nested(open) && i < |open|
    ensures open[i].level >= i + 1
  {
    if i > 0 { NestedDepth(open, i - 1); }
  }

  /** The last entry the code would keep for a heading at line `k` is really above that heading. */
  predicate KeepsOnlyEnclosing(lines: seq<string>, markdown: bool, k: nat)
    requires k < |lines|
  {
    match Classify(lines, markdown, k)
    case HeadingLine(level, _) =>
      var open := OpenAt(lines, markdown, k);
      var kept := if level - 1 <= |open| then level - 1 else |open|;
      kept <= 0 || open[kept - 1].level < level
    case _ => true
  }

  ghost predicate AgreesUpTo(lines: seq<string>, markdown: bool, n: nat)
    requires n <= |lines|
  {
    forall k :: 0 <= k <= n ==> PathAt(lines, markdown, k) == Titles(OpenAt(lines, markdown, k))
  }

  lemma AgreementStep(lines: seq<string>, markdown: bool, k: nat)
    requires k < |lines| && PathAt(lines, markdown, k) == Titles(OpenAt(lines, markdown, k))
    ensures PathAt(lines, markdown, k + 1) == Titles(OpenAt(lines, markdown, k + 1)) <==>
            KeepsOnlyEnclosing(lines, markdown, k)
  {
    hide Heading, InFence;
    match Classify(lines, markdown, k)
    case HeadingLine(level, title) =>
      var open := OpenAt(lines, markdown, k);
      OpenNested(lines, markdown, k);
      EnclosingPrefix(open, level);
      var c := |Enclosing(open, level)|;
      var kept := if level - 1 <= |open| then level - 1 else |open|;
      assert level >= 1;
      if c > 0 { NestedDepth(open, c - 1); }
      assert Enclosing(open, level) == open[..c];
      assert PathAt(lines, markdown, k + 1) == Titles(open)[..kept] + [title];
      assert Titles(OpenAt(lines, markdown, k + 1)) == Titles(open)[..c] + [title];
      if kept == c {
        assert KeepsOnlyEnclosing(lines, markdown, k);
      } else {
        assert c < kept;
        assert |PathAt(lines, markdown, k + 1)| != |Titles(OpenAt(lines, markdown, k + 1))|;
      }
    case _ =>
  }

  /** Heading paths are the enclosing headings throughout a document exactly when every heading keeps only those. */
  lemma {:induction false} HeadingPathsExact(lines: seq<string>, markdown: bool, n: nat)
    requires n <= |lines|
    ensures AgreesUpTo(lines, markdown, n) <==>
            forall k :: 0 <= k < n ==> KeepsOnlyEnclosing(lines, markdown, k)
  {
    hide PathAt, OpenAt, Classify, KeepsOnlyEnclosing;
    if n == 0 {
      PathsStart(lines, markdown);
    } else {
      HeadingPathsExact(lines, markdown, n - 1);
      if AgreesUpTo(lines, markdown, n - 1) {
        AgreementStep(lines, markdown, n - 1);
      }
    }
  }

  lemma PathsStart(lines: seq<string>, markdown: bool)
    ensures PathAt(lines, markdown, 0) == Titles(OpenAt(lines, markdown, 0))
  {
  }

  /** Two sibling headings below a skipped level: the second is listed under the first. */
  lemma SkippedLevelNests()
    ensures var lines := ["# A", "### B", "### C"];
            && PathAt(lines, true, 3) == ["A", "B", "C"]
            && Titles(OpenAt(lines, true, 3)) == ["A", "C"]
  {
    hide Heading, IsFence, InFence;
    var lines := ["# A", "### B", "### C"];
    HeadingOf("# A", 1, "A");
    HeadingOf("### B", 3, "B");
    HeadingOf("### C", 3, "C");
    NoFences(lines);
    assert PathAt(lines, true, 1) == ["A"];
    assert PathAt(lines, true, 2) == ["A", "B"];
    assert OpenAt(lines, true, 1) == [OpenHeading(1, "A")];
    assert OpenAt(lines, true, 2) == [OpenHeading(1, "A"), OpenHeading(3, "B")];
    assert Enclosing(OpenAt(lines, true, 2), 3) == [OpenHeading(1, "A")];
    assert OpenAt(lines, true, 3) == [OpenHeading(1, "A"), OpenHeading(3, "C")];
  }

  lemma HeadingOf(line: string, level: nat, title: string)
    requires (line, level, title) in {("# A", 1, "A"), ("### B", 3, "B"), ("### C", 3, "C")}
    ensures Heading(line) == Wrappers.Some((level, title)) && !IsFence(line)
  {
    var rest := line[level..];
    assert HashCount(rest) == 0;
    if level == 1 {
      assert line[1..] == rest;
    } else {
      assert line[1..][1..][1..] == rest;
      assert HashCount(line[1..][1..]) == 1;
      assert HashCount(line[1..]) == 2;
    }
    assert rest == " " + title;
    assert rest[1..] == title;
    assert !IsSpace(title[0]);
    assert StripLeft(rest) == title;
    assert rest[1] == title[0];
  }

  lemma NoFences(lines: seq<string>)
    requires |lines| == 3 && forall i :: 0 <= i < 3 ==> !IsFence(lines[i])
    ensures !InFence(lines, 0) && !InFence(lines, 1) && !InFence(lines, 2)
  {
  }
}
