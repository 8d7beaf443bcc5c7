/** Shared wrappers: optional values and results with a typed error. */
module Wrappers {
  datatype Option<+T> = None | Some(value: T)

  datatype Result<+T, +E> = Ok(value: T) | Err(error: E)
}

/**
 Strings as Python sees them: white space, UTF-8 sizes, `split` and `join` on one separator, and the
 offset arithmetic that turns "the k-th piece" into a position of the joined text.
 */
module Text {

  /** Form feed, the separator between the pages of an extracted PDF. */
  const PAGE_BREAK: char := '\U{0C}'

  /** `str.isspace` on one character; also what `\s` matches in a `str` pattern. */
  predicate IsSpace(c: char) {
    var n := c as int;
    || 0x09 <= n <= 0x0D || 0x1C <= n <= 0x20 || n == 0x85 || n == 0xA0 || n == 0x1680
    || 0x2000 <= n <= 0x200A || n == 0x2028 || n == 0x2029 || n == 0x202F || n == 0x205F || n == 0x3000
  }

  /** `not s.strip()` */
  predicate Blank(s: string) {
    forall i :: 0 <= i < |s| ==> IsSpace(s[i])
  }

  function CharBytes(c: char): (n: nat)
    ensures 1 <= n <= 4
  {
    var v := c as int;
    if v < 0x80 then 1 else if v < 0x800 then 2 else if v < 0x1_0000 then 3 else 4
  }

  /** `len(s.encode("utf-8"))` */
  function Utf8Size(s: string): nat {
    if s == [] then 0 else CharBytes(s[0]) + Utf8Size(s[1..])
  }

  /** The UTF-8 bytes of one character: its bits in groups of six, the leading byte telling how many bytes there are. */
  function Utf8(c: char): seq<int> {
    var v := c as int;
    if v < 0x80 then [v]
    else if v < 0x800 then [0xC0 + v / 64, 0x80 + v % 64]
    else if v < 0x1_0000 then [0xE0 + v / 64 / 64, 0x80 + v / 64 % 64, 0x80 + v % 64]
    else [0xF0 + v / 64 / 64 / 64, 0x80 + v / 64 / 64 % 64, 0x80 + v / 64 % 64, 0x80 + v % 64]
  }

  function Encode(s: string): seq<int> {
    if s == [] then [] else Utf8(s[0]) + Encode(s[1..])
  }

  /** Reads one character: how many bytes it takes and its number. */
  function ReadChar(b: seq<int>): (nat, int)
    requires b != []
  {
    if b[0] < 0x80 || |b| < 2 then (1, b[0])
    else if b[0] < 0xE0 || |b| < 3 then (2, (b[0] - 0xC0) * 64 + (b[1] - 0x80))
    else if b[0] < 0xF0 || |b| < 4 then (3, ((b[0] - 0xE0) * 64 + (b[1] - 0x80)) * 64 + (b[2] - 0x80))
    else (4, (((b[0] - 0xF0) * 64 + (b[1] - 0x80)) * 64 + (b[2] - 0x80)) * 64 + (b[3] - 0x80))
  }

  /** Every character has bytes, can be read back from them, whatever follows, and takes as many as counted. */
  lemma Utf8Read(c: char, rest: seq<int>)
    ensures forall i :: 0 <= i < |Utf8(c)| ==> 0 <= Utf8(c)[i] < 256
    ensures |Utf8(c)| == CharBytes(c) && ReadChar(Utf8(c) + rest) == (CharBytes(c), c as int)
  {
    var v := c as int;
    SixBits(v);
    SixBits(v / 64);
    SixBits(v / 64 / 64);
    var b := Utf8(c) + rest;
    assert forall i :: 0 <= i < |Utf8(c)| ==> b[i] == Utf8(c)[i];
  }

  lemma SixBits(v: nat)
    ensures v == v / 64 * 64 + v % 64 && 0 <= v % 64 < 64 && v / 64 <= v
  {
  }

  /** The size of a text is the length of an encoding that can be read back. */
  lemma {:induction false} Utf8SizeIs(s: string)
    ensures Utf8Size(s) == |Encode(s)|
    ensures s != [] ==> ReadChar(Encode(s)) == (CharBytes(s[0]), s[0] as int) && Encode(s)[CharBytes(s[0])..] == Encode(s[1..])
  {
    if s != [] {
      Utf8Read(s[0], Encode(s[1..]));
      Utf8SizeIs(s[1..]);
    }
  }

  function Split(s: string, sep: char): (pieces: seq<string>)
    ensures |pieces| >= 1
  {
    if s == [] then [""]
    else
      var rest := Split(s[1..], sep);
      if s[0] == sep then [""] + rest else [[s[0]] + rest[0]] + rest[1..]
  }

  function Join(pieces: seq<string>, sep: char): string {
    if pieces == [] then ""
    else if |pieces| == 1 then pieces[0]
    else pieces[0] + [sep] + Join(pieces[1..], sep)
  }

  predicate Free(pieces: seq<string>, sep: char) {
    forall i :: 0 <= i < |pieces| ==> sep !in pieces[i]
  }

  /** Where piece `k` starts in the joined text: every earlier piece takes its length and one separator. */
  function Offset(pieces: seq<string>, k: nat): nat
    requires k <= |pieces|
  {
    if k == 0 then 0 else Offset(pieces, k - 1) + |pieces[k - 1]| + 1
  }

  lemma {:induction false} SplitFree(s: string, sep: char)
    ensures Free(Split(s, sep), sep)
  {
    if s != [] { SplitFree(s[1..], sep); }
  }

  lemma {:induction false} JoinSplit(s: string, sep: char)
    ensures Join(Split(s, sep), sep) == s
  {
    if s != [] {
      var rest := Split(s[1..], sep);
      JoinSplit(s[1..], sep);
      if s[0] == sep {
        assert ([""] + rest)[1..] == rest;
      } else {
        var pieces := [[s[0]] + rest[0]] + rest[1..];
        assert |rest| > 1 ==> pieces[1..] == rest[1..];
      }
    }
  }

  lemma {:induction false} SplitPrepend(head: string, tail: string, sep: char)
    requires sep !in head
    ensures Split(head + tail, sep) == [head + Split(tail, sep)[0]] + Split(tail, sep)[1..]
  {
    var whole := head + tail;
    if head == [] {
      assert whole == tail;
      assert head + Split(tail, sep)[0] == Split(tail, sep)[0];
    } else {
      SplitPrepend(head[1..], tail, sep);
      assert whole[1..] == head[1..] + tail;
      assert [head[0]] + (head[1..] + Split(tail, sep)[0]) == head + Split(tail, sep)[0];
    }
  }

  /** Splitting undoes joining, as long as no piece contains the separator. */
  lemma {:induction false} SplitJoin(pieces: seq<string>, sep: char)
    requires pieces != [] && Free(pieces, sep)
    ensures Split(Join(pieces, sep), sep) == pieces
  {
    if |pieces| == 1 {
      SplitPrepend(pieces[0], "", sep);
      assert pieces[0] + "" == pieces[0];
    } else {
      SplitJoin(pieces[1..], sep);
      var tail := [sep] + Join(pieces[1..], sep);
      SplitPrepend(pieces[0], tail, sep);
      assert tail[1..] == Join(pieces[1..], sep);
      assert Split(tail, sep) == [""] + pieces[1..];
      assert pieces[0] + "" == pieces[0];
      assert pieces == [pieces[0]] + pieces[1..];
      assert pieces[0] + tail == Join(pieces, sep);
    }
  }

  lemma {:induction false} OffsetShift(pieces: seq<string>, k: nat)
    requires 1 <= k <= |pieces|
    ensures Offset(pieces, k) == |pieces[0]| + 1 + Offset(pieces[1..], k - 1)
  {
    if k > 1 { OffsetShift(pieces, k - 1); }
  }

  lemma {:induction false} OffsetMonotone(pieces: seq<string>, a: nat, b: nat)
    requires a <= b <= |pieces|
    ensures Offset(pieces, a) + (b - a) <= Offset(pieces, b)
    decreases b
  {
    if a < b { OffsetMonotone(pieces, a, b - 1); }
  }

  lemma {:induction false} JoinLength(pieces: seq<string>, sep: char)
    requires pieces != []
    ensures Offset(pieces, |pieces|) == |Join(pieces, sep)| + 1
  {
    if |pieces| > 1 {
      JoinLength(pieces[1..], sep);
      OffsetShift(pieces, |pieces|);
    } else {
      assert Offset(pieces, 0) == 0;
    }
  }

  /** Piece `k` sits at its offset, and the character just before every later piece is the separator. */
  lemma {:induction false} PieceAt(pieces: seq<string>, sep: char, k: nat)
    requires k < |pieces|
    ensures Offset(pieces, k) + |pieces[k]| <= |Join(pieces, sep)|
    ensures Join(pieces, sep)[Offset(pieces, k)..Offset(pieces, k) + |pieces[k]|] == pieces[k]
    ensures k > 0 ==> Join(pieces, sep)[Offset(pieces, k) - 1] == sep
  {
    if |pieces| > 1 && k > 0 {
      PieceAt(pieces[1..], sep, k - 1);
      OffsetShift(pieces, k);
      OffsetMonotone(pieces[1..], 0, k - 1);
      Shifted(pieces[0] + [sep], Join(pieces[1..], sep), Offset(pieces[1..], k - 1), |pieces[k]|);
    }
  }

  lemma Shifted<T>(head: seq<T>, tail: seq<T>, at: nat, n: nat)
    requires at + n <= |tail|
    ensures (head + tail)[|head| + at..|head| + at + n] == tail[at..at + n]
    ensures at > 0 ==> (head + tail)[|head| + at - 1] == tail[at - 1]
    ensures at == 0 && |head| > 0 ==> (head + tail)[|head| + at - 1] == head[|head| - 1]
  {
  }

  lemma SliceOfSlice<T>(s: seq<T>, lo: nat, hi: nat, a: nat, b: nat)
    requires lo <= hi <= |s| && a <= b <= hi - lo
    ensures s[lo..hi][a..b] == s[lo + a..lo + b]
  {
    var x, y := s[lo..hi][a..b], s[lo + a..lo + b];
    assert |x| == |y| && forall i :: 0 <= i < |x| ==> x[i] == y[i];
  }

  lemma SliceAt<T>(s: seq<T>, lo: nat, mid: nat, hi: nat)
    requires lo < mid <= hi <= |s|
    ensures s[lo..hi] == s[lo..mid - 1] + [s[mid - 1]] + s[mid..hi]
  {
  }

  lemma JoinCons(pieces: seq<string>, sep: char, a: nat, b: nat)
    requires a + 1 < b <= |pieces|
    ensures Join(pieces[a..b], sep) == pieces[a] + [sep] + Join(pieces[a + 1..b], sep)
  {
    assert pieces[a..b][1..] == pieces[a + 1..b];
  }

  lemma JoinOne(pieces: seq<string>, sep: char, a: nat)
    requires a < |pieces|
    ensures Join(pieces[a..a + 1], sep) == pieces[a]
  {
    assert pieces[a..a + 1] == [pieces[a]];
  }

  lemma OffsetStep(pieces: seq<string>, k: nat)
    requires k < |pieces|
    ensures Offset(pieces, k + 1) == Offset(pieces, k) + |pieces[k]| + 1
  {
  }

  /** Joining a run of consecutive pieces gives the slice of the joined text between their offsets. */
  lemma {:induction false} JoinSlice(pieces: seq<string>, sep: char, a: nat, b: nat)
    requires a < b <= |pieces|
    ensures Offset(pieces, a) <= Offset(pieces, b) - 1 <= |Join(pieces, sep)|
    ensures Join(pieces[a..b], sep) == Join(pieces, sep)[Offset(pieces, a)..Offset(pieces, b) - 1]
    decreases b - a
  {
    hide Join, Offset;
    PieceAt(pieces, sep, a);
    OffsetStep(pieces, a);
    if b == a + 1 {
      JoinOne(pieces, sep, a);
    } else {
      JoinSlice(pieces, sep, a + 1, b);
      PieceAt(pieces, sep, a + 1);
      JoinCons(pieces, sep, a, b);
      SliceAt(Join(pieces, sep), Offset(pieces, a), Offset(pieces, a + 1), Offset(pieces, b) - 1);
    }
  }

  lemma {:induction false} Utf8SizeBounds(s: string)
    ensures |s| <= Utf8Size(s) <= 4 * |s|
  {
    if s != [] { Utf8SizeBounds(s[1..]); }
  }
}

/** Natural numbers as text. */
module Decimal {
  function Digit(n: nat): char
    requires n < 10
  {
    ('0' as int + n) as char
  }

  function Digits(n: nat): string {
    if n < 10 then [Digit(n)] else Digits(n / 10) + [Digit(n % 10)]
  }

  predicate AllDigits(s: string) {
    forall i :: 0 <= i < |s| ==> '0' <= s[i] <= '9'
  }

  function Value(s: string): nat
    requires AllDigits(s)
  {
    if s == [] then 0 else 10 * Value(s[..|s| - 1]) + (s[|s| - 1] as int - '0' as int)
  }

  lemma {:induction false} DigitsRoundTrip(n: nat)
    ensures AllDigits(Digits(n)) && Value(Digits(n)) == n
  {
    if n < 10 {
      assert Digits(n)[..0] == [];
    } else {
      DigitsRoundTrip(n / 10);
      var s := Digits(n);
      assert s[..|s| - 1] == Digits(n / 10) && s[|s| - 1] == Digit(n % 10);
    }
  }
}
