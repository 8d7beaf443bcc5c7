/**
 Cron expressions, the search for the next occurrence, and what a schedule has missed when it is looked at. Instants are
 whole microseconds, and a time zone is any function from a UTC minute to local calendar fields.
 */
module Scheduling {
  import opened Wrappers
  import opened Text
  import opened Decimal

  const SECOND: nat := 1_000_000
  const MINUTE: nat := 60_000_000
  const HORIZON: nat := 527_040
  const MAX_MISSED: nat := 1440

  // ---- expressions ----

  datatype Range = Range(first: nat, last: nat, step: nat)

  datatype Fields = Fields(minutes: set<nat>, hours: set<nat>, days: set<nat>, months: set<nat>, weekdays: set<nat>)

  function IndexOf(s: string, c: char): nat
    ensures IndexOf(s, c) <= |s|
  {
    if s == [] || s[0] == c then 0 else 1 + IndexOf(s[1..], c)
  }

  predicate Number(s: string) {
    s != [] && AllDigits(s)
  }

  /** The part of an item before the slash. */
  function ParseBase(base: string, low: nat, high: nat): Option<(nat, nat)> {
    var dash := IndexOf(base, '-');
    if base == "*" then Some((low, high))
    else if dash < |base| && Number(base[..dash]) && Number(base[dash + 1..]) then Some((Value(base[..dash]), Value(base[dash + 1..])))
    else if Number(base) then Some((Value(base), Value(base)))
    else None
  }

  function ParseItem(item: string, low: nat, high: nat): Option<Range> {
    var slash := IndexOf(item, '/');
    var base := ParseBase(item[..slash], low, high);
    if slash < |item| && !(Number(item[slash + 1..]) && 1 <= Value(item[slash + 1..]) <= high + 1) then None
    else if base.None? || !(low <= base.value.0 <= base.value.1 <= high) then None
    else Some(Range(base.value.0, base.value.1, if slash < |item| then Value(item[slash + 1..]) else 1))
  }

  predicate Covers(r: Range, v: nat) {
    r.first <= v <= r.last && (r.step == 0 || (v - r.first) % r.step == 0)
  }

  // What an item says, read off its text: a star, a number or two numbers with a dash, and possibly a slash and a step.

  ghost predicate BaseText(base: string, low: nat, high: nat, first: nat, last: nat) {
    || (base == "*" && first == low && last == high)
    || (Number(base) && first == last == Value(base))
    || (exists a, b :: Number(a) && Number(b) && base == a + "-" + b && first == Value(a) && last == Value(b))
  }

  ghost predicate StepText(item: string, base: string, high: nat, step: nat) {
    || (item == base && step == 1)
    || (exists s :: Number(s) && item == base + "/" + s && step == Value(s) && step <= high + 1)
  }

  ghost predicate ItemText(item: string, low: nat, high: nat, r: Range) {
    && low <= r.first <= r.last <= high && r.step >= 1
    && exists base :: BaseText(base, low, high, r.first, r.last) && StepText(item, base, high, r.step)
  }

  /** The parser accepts exactly these texts, and reads exactly this from them. */
  lemma ItemParsed(item: string, low: nat, high: nat, r: Range)
    ensures ParseItem(item, low, high) == Some(r) <==> ItemText(item, low, high, r)
  {
    hide BaseText, StepText, ParseBase, Value, AllDigits;
    if ParseItem(item, low, high) == Some(r) { ParsedItem(item, low, high, r); }
    if ItemText(item, low, high, r) {
      var base :| BaseText(base, low, high, r.first, r.last) && StepText(item, base, high, r.step);
      TextParsed(item, base, low, high, r);
    }
  }

  lemma ParsedItem(item: string, low: nat, high: nat, r: Range)
    requires ParseItem(item, low, high) == Some(r)
    ensures ItemText(item, low, high, r)
  {
    hide BaseText, ParseBase, Value, AllDigits, IndexOf;
    var slash := IndexOf(item, '/');
    var base := item[..slash];
    IndexOfFirst(item, '/');
    BaseParsed(base, low, high, r.first, r.last);
    if slash < |item| {
      assert item == base + "/" + item[slash + 1..];
    } else {
      assert item == base;
    }
    assert StepText(item, base, high, r.step);
  }

  lemma TextParsed(item: string, base: string, low: nat, high: nat, r: Range)
    requires low <= r.first <= r.last <= high && r.step >= 1
    requires BaseText(base, low, high, r.first, r.last) && StepText(item, base, high, r.step)
    ensures ParseItem(item, low, high) == Some(r)
  {
    hide BaseText, ParseBase, Value, AllDigits, IndexOf;
    BaseParsed(base, low, high, r.first, r.last);
    NoSlash(base, low, high, r.first, r.last);
    if item == base && r.step == 1 {
      Absent(base, '/');
      assert base[..|base|] == base;
    } else {
      var s :| Number(s) && item == base + "/" + s && r.step == Value(s) && r.step <= high + 1;
      IndexOfAt(base, '/', s);
      assert item[..|base|] == base && item[|base| + 1..] == s;
    }
  }

  lemma NoSlash(base: string, low: nat, high: nat, first: nat, last: nat)
    requires BaseText(base, low, high, first, last)
    ensures '/' !in base
  {
    hide Value;
  }

  lemma BaseParsed(base: string, low: nat, high: nat, first: nat, last: nat)
    ensures ParseBase(base, low, high) == Some((first, last)) <==> BaseText(base, low, high, first, last)
  {
    hide ParseBase, BaseText;
    if ParseBase(base, low, high) == Some((first, last)) { ParsedBase(base, low, high, first, last); }
    if BaseText(base, low, high, first, last) { TextOfBase(base, low, high, first, last); }
  }

  lemma ParsedBase(base: string, low: nat, high: nat, first: nat, last: nat)
    requires ParseBase(base, low, high) == Some((first, last))
    ensures BaseText(base, low, high, first, last)
  {
    hide Value, IndexOf, AllDigits;
    IndexOfFirst(base, '-');
    var dash := IndexOf(base, '-');
    if dash < |base| && Number(base[..dash]) && Number(base[dash + 1..]) && base != "*" {
      assert base == base[..dash] + "-" + base[dash + 1..];
    }
  }

  lemma TextOfBase(base: string, low: nat, high: nat, first: nat, last: nat)
    requires BaseText(base, low, high, first, last)
    ensures ParseBase(base, low, high) == Some((first, last))
  {
    hide Value, IndexOf, AllDigits;
    IndexOfFirst(base, '-');
    if base == "*" && first == low && last == high {
    } else if Number(base) && first == last == Value(base) {
      NumberChars(base);
    } else {
      var a, b :| Number(a) && Number(b) && base == a + "-" + b && first == Value(a) && last == Value(b);
      NumberChars(a);
      IndexOfAt(a, '-', b);
      assert base[|a|] == '-' && base[..|a|] == a && base[|a| + 1..] == b;
      assert base != "*";
    }
  }

  lemma NumberChars(a: string)
    requires Number(a)
    ensures '-' !in a && '/' !in a && ',' !in a && a != "*"
  {
    assert '0' <= a[0] <= '9';
  }

  lemma {:induction false} IndexOfFirst(s: string, c: char)
    ensures c !in s[..IndexOf(s, c)] && (IndexOf(s, c) < |s| ==> s[IndexOf(s, c)] == c)
  {
    if s != [] && s[0] != c {
      IndexOfFirst(s[1..], c);
      assert s[..IndexOf(s, c)] == [s[0]] + s[1..][..IndexOf(s[1..], c)];
    }
  }

  lemma {:induction false} IndexOfAt(a: string, c: char, b: string)
    requires c !in a
    ensures IndexOf(a + [c] + b, c) == |a|
  {
    var s := a + [c] + b;
    if a == [] {
      assert s[0] == c;
    } else {
      assert s[0] == a[0] && s[1..] == a[1..] + [c] + b;
      IndexOfAt(a[1..], c, b);
    }
  }

  ghost predicate WellFormed(field: string, low: nat, high: nat) {
    forall i :: 0 <= i < |Split(field, ',')| ==> IsItem(Split(field, ',')[i], low, high)
  }

  ghost predicate IsItem(item: string, low: nat, high: nat) {
    exists r :: ItemText(item, low, high, r)
  }

  /** The item allows this value: a whole number of steps after its first one, up to its last. */
  ghost predicate Allows(item: string, low: nat, high: nat, v: nat) {
    exists r :: ItemText(item, low, high, r) && r.first <= v <= r.last && (v - r.first) % r.step == 0
  }

  /** A field is the union of its comma-separated items, all of which must be well-formed. */
  ghost predicate IsField(field: string, low: nat, high: nat, values: set<nat>) {
    var items := Split(field, ',');
    && WellFormed(field, low, high)
    && (forall v :: v in values <==> exists i :: 0 <= i < |items| && Allows(items[i], low, high, v))
  }

  lemma ItemValues(item: string, low: nat, high: nat)
    ensures IsItem(item, low, high) <==> ParseItem(item, low, high).Some?
    ensures forall v :: Allows(item, low, high, v) <==>
              ParseItem(item, low, high).Some? && Covers(ParseItem(item, low, high).value, v)
  {
    hide ParseItem, ItemText;
    forall r
      ensures ParseItem(item, low, high) == Some(r) <==> ItemText(item, low, high, r)
      ensures ItemText(item, low, high, r) ==> r.step >= 1
    {
      ItemParsed(item, low, high, r);
      StepsForward(item, low, high, r);
    }
    if ParseItem(item, low, high).Some? { assert ItemText(item, low, high, ParseItem(item, low, high).value); }
  }

  lemma StepsForward(item: string, low: nat, high: nat, r: Range)
    ensures ItemText(item, low, high, r) ==> r.step >= 1
  {
  }

  method ParseField(field: string, low: nat, high: nat) returns (r: Option<set<nat>>)
    ensures r.Some? <==> WellFormed(field, low, high)
    ensures r.Some? ==> IsField(field, low, high, r.value) && r.value != {} && forall v :: v in r.value ==> low <= v <= high
  {
    hide ParseItem, Split, IsItem, Allows;
    var items := Split(field, ',');
    var values: set<nat> := {};
    for i := 0 to |items|
      invariant forall j :: 0 <= j < i ==> IsItem(items[j], low, high)
      invariant forall v :: v in values <==> exists j :: 0 <= j < i && Allows(items[j], low, high, v)
      invariant forall v :: v in values ==> low <= v <= high
      invariant i > 0 ==> values != {}
    {
      var item := ParseItem(items[i], low, high);
      ItemValues(items[i], low, high);
      if item.None? {
        assert !IsItem(Split(field, ',')[i], low, high);
        return None;
      }
      ItemBounds(items[i], low, high);
      var more := Expand(item.value);
      assert item.value.first in more;
      values := values + more;
    }
    r := Some(values);
  }

  lemma ItemBounds(item: string, low: nat, high: nat)
    requires ParseItem(item, low, high).Some?
    ensures var r := ParseItem(item, low, high).value; low <= r.first <= r.last <= high && r.step >= 1
  {
  }

  /** range(start, end + 1, step) */
  method Expand(r: Range) returns (values: set<nat>)
    requires r.step >= 1
    ensures forall v: nat :: v in values <==> Covers(r, v)
  {
    values := {};
    var v := r.first;
    while v <= r.last
      invariant v >= r.first && (v - r.first) % r.step == 0
      invariant forall x: nat :: x in values <==> Covers(r, x) && x < v
      decreases r.last + 1 - v
    {
      values := values + {v};
      NextMultiple(v - r.first, r.step);
      v := v + r.step;
    }
  }

  /** The words of a text separated by white space. */
  function Words(s: string): seq<string>
    decreases |s|
  {
    if s == [] then []
    else if IsSpace(s[0]) then Words(s[1..])
    else [s[..WordEnd(s)]] + Words(s[WordEnd(s)..])
  }

  function WordEnd(s: string): (n: nat)
    ensures n <= |s| && (s != [] && !IsSpace(s[0]) ==> n > 0)
  {
    if s == [] || IsSpace(s[0]) then 0 else 1 + WordEnd(s[1..])
  }

  /** Gaps around and between words: all of white space, and not empty between two words. */
  ghost predicate Spacing(gaps: seq<string>, words: seq<string>) {
    && |gaps| == |words| + 1 && (forall i :: 0 <= i < |gaps| ==> Blank(gaps[i]))
    && (forall i :: 0 < i < |words| ==> gaps[i] != [])
    && forall i :: 0 <= i < |words| ==> words[i] != [] && NoSpace(words[i])
  }

  predicate NoSpace(word: string) {
    forall i :: 0 <= i < |word| ==> !IsSpace(word[i])
  }

  function Spread(gaps: seq<string>, words: seq<string>): string
    requires |gaps| == |words| + 1
  {
    if words == [] then gaps[0] else gaps[0] + words[0] + Spread(gaps[1..], words[1..])
  }

  /** However words are spaced, they are the words of the text. */
  lemma {:induction false} WordsOfSpread(gaps: seq<string>, words: seq<string>)
    requires Spacing(gaps, words)
    ensures Words(Spread(gaps, words)) == words
    decreases |words|
  {
    hide Words;
    if words == [] {
      LeadingBlank(gaps[0], []);
      assert gaps[0] + [] == gaps[0];
      NoWords();
    } else {
      var rest := Spread(gaps[1..], words[1..]);
      WordsOfSpread(gaps[1..], words[1..]);
      assert rest == [] || IsSpace(rest[0]) by { RestBlank(gaps, words); }
      assert Spread(gaps, words) == gaps[0] + (words[0] + rest);
      LeadingBlank(gaps[0], words[0] + rest);
      NextWord(words[0], rest);
    }
  }

  /** Every text is its words, spaced. */
  lemma {:induction false} SpreadOfWords(s: string) returns (gaps: seq<string>)
    ensures Spacing(gaps, Words(s)) && Spread(gaps, Words(s)) == s
    decreases |s|
  {
    if s == [] {
      gaps := [[]];
    } else if IsSpace(s[0]) {
      var rest := SpreadOfWords(s[1..]);
      gaps := [[s[0]] + rest[0]] + rest[1..];
      WiderGap(s[0], rest, Words(s));
      assert s == [s[0]] + s[1..];
    } else {
      hide Spread, Spacing, WordEnd;
      var n := WordEnd(s);
      WordEndStops(s);
      var rest := SpreadOfWords(s[n..]);
      GapFirst(s[n..], rest, Words(s[n..]));
      WordFirst(s[..n], rest, Words(s[n..]));
      gaps := [[]] + rest;
      assert s == s[..n] + s[n..];
    }
  }

  lemma WordFirst(word: string, gaps: seq<string>, words: seq<string>)
    requires word != [] && NoSpace(word) && Spacing(gaps, words) && (words == [] || gaps[0] != [])
    ensures Spacing([[]] + gaps, [word] + words) && Spread([[]] + gaps, [word] + words) == word + Spread(gaps, words)
  {
    assert ([[]] + gaps)[1..] == gaps && ([word] + words)[1..] == words;
  }

  lemma WiderGap(c: char, gaps: seq<string>, words: seq<string>)
    requires IsSpace(c) && Spacing(gaps, words)
    ensures var more := [[c] + gaps[0]] + gaps[1..]; Spacing(more, words) && Spread(more, words) == [c] + Spread(gaps, words)
  {
    var more := [[c] + gaps[0]] + gaps[1..];
    assert more[1..] == gaps[1..];
  }

  /** After a word comes white space or the end, so the gap before another word is not empty. */
  lemma GapFirst(s: string, gaps: seq<string>, words: seq<string>)
    requires Spacing(gaps, words) && Spread(gaps, words) == s && (s == [] || IsSpace(s[0]))
    ensures words == [] || gaps[0] != []
  {
    hide Spread, Spacing;
    SpreadHead(gaps, words);
  }

  lemma SpreadHead(gaps: seq<string>, words: seq<string>)
    requires Spacing(gaps, words)
    ensures words != [] && gaps[0] == [] ==> Spread(gaps, words) != [] && !IsSpace(Spread(gaps, words)[0])
  {
    if words != [] && gaps[0] == [] { assert Spread(gaps, words)[0] == words[0][0]; }
  }

  lemma {:induction false} WordEndStops(s: string)
    ensures NoSpace(s[..WordEnd(s)]) && (WordEnd(s) < |s| ==> IsSpace(s[WordEnd(s)]))
  {
    if s != [] && !IsSpace(s[0]) {
      WordEndStops(s[1..]);
      assert s[..WordEnd(s)] == [s[0]] + s[1..][..WordEnd(s[1..])];
    }
  }

  lemma NoWords()
    ensures Words([]) == []
  {
  }

  lemma RestBlank(gaps: seq<string>, words: seq<string>)
    requires Spacing(gaps, words) && words != []
    ensures var rest := Spread(gaps[1..], words[1..]); rest == [] || IsSpace(rest[0])
  {
    if |words| > 1 { assert gaps[1][0] == Spread(gaps[1..], words[1..])[0]; }
  }

  lemma {:induction false} LeadingBlank(gap: string, s: string)
    requires Blank(gap)
    ensures Words(gap + s) == Words(s)
  {
    if gap == [] {
      assert gap + s == s;
    } else {
      assert (gap + s)[1..] == gap[1..] + s;
      LeadingBlank(gap[1..], s);
    }
  }

  lemma NextWord(word: string, rest: string)
    requires word != [] && NoSpace(word) && (rest == [] || IsSpace(rest[0]))
    ensures Words(word + rest) == [word] + Words(rest)
  {
    WordEndAt(word, rest);
    assert (word + rest)[..|word|] == word && (word + rest)[|word|..] == rest;
  }

  lemma {:induction false} WordEndAt(word: string, rest: string)
    requires (forall i :: 0 <= i < |word| ==> !IsSpace(word[i])) && (rest == [] || IsSpace(rest[0]))
    ensures WordEnd(word + rest) == |word|
  {
    if word == [] {
      assert word + rest == rest;
    } else {
      assert (word + rest)[1..] == word[1..] + rest;
      WordEndAt(word[1..], rest);
    }
  }

  /** A word followed by a blank is the first word of a text. */
  lemma FirstWord(word: string, rest: string)
    requires word != [] && forall i :: 0 <= i < |word| ==> !IsSpace(word[i])
    ensures Words(word + (" " + rest)) == [word] + Words(rest)
  {
    var tail := " " + rest;
    WordEndAt(word, tail);
    var s := word + tail;
    assert s[..|word|] == word && s[|word|..] == tail && tail[1..] == rest;
  }

  lemma LastWord(word: string)
    requires word != [] && forall i :: 0 <= i < |word| ==> !IsSpace(word[i])
    ensures Words(word) == [word]
  {
    WordEndAt(word, []);
    assert word + [] == word && word[..|word|] == word && word[|word|..] == [];
  }

  lemma {:induction false} Absent(s: string, c: char)
    requires c !in s
    ensures Split(s, c) == [s] && IndexOf(s, c) == |s|
  {
    if s != [] {
      Absent(s[1..], c);
      assert [s[0]] + s[1..] == s;
    }
  }

  /** A field of one item. */
  lemma ItemField(item: string, low: nat, high: nat, r: Range, values: set<nat>)
    requires ',' !in item && ItemText(item, low, high, r)
    requires forall v: nat :: v in values <==> Covers(r, v)
    ensures IsField(item, low, high, values)
  {
    hide ParseItem, Split, ItemText, IsItem, Allows;
    Absent(item, ',');
    assert Split(item, ',')[0] == item;
    ItemParsed(item, low, high, r);
    ItemValues(item, low, high);
  }

  /** A single number means itself. */
  lemma NumberField(item: string, low: nat, high: nat, v: nat)
    requires Number(item) && Value(item) == v && low <= v <= high
    ensures IsField(item, low, high, {v})
  {
    hide IsField, Value;
    assert BaseText(item, low, high, v, v) && StepText(item, item, high, 1);
    assert ItemText(item, low, high, Range(v, v, 1));
    ItemField(item, low, high, Range(v, v, 1), {v});
  }

  /** A star means all values. */
  lemma StarField(low: nat, high: nat, values: set<nat>)
    requires low <= high && forall v: nat :: v in values <==> low <= v <= high
    ensures IsField("*", low, high, values)
  {
    hide IsField;
    assert BaseText("*", low, high, low, high) && StepText("*", "*", high, 1);
    assert ItemText("*", low, high, Range(low, high, 1));
    ItemField("*", low, high, Range(low, high, 1), values);
  }

  /** The bounds of the five fields: minute, hour, day of month, month, day of week. */
  const LOW: seq<nat> := [0, 0, 1, 1, 0]
  const HIGH: seq<nat> := [59, 23, 31, 12, 6]

  /** `cron_fields` */
  method CronFields(expression: string) returns (r: Option<Fields>)
    ensures r.Some? <==>
              && |Words(expression)| == 5 && |expression| <= 128
              && forall k :: 0 <= k < 5 ==> WellFormed(Words(expression)[k], LOW[k], HIGH[k])
    ensures r.Some? ==>
              var words, f := Words(expression), r.value;
              && |words| == 5
              && IsField(words[0], 0, 59, f.minutes) && IsField(words[1], 0, 23, f.hours) && IsField(words[2], 1, 31, f.days)
              && IsField(words[3], 1, 12, f.months) && IsField(words[4], 0, 6, f.weekdays)
              && f.minutes != {} && f.hours != {} && f.days != {} && f.months != {} && f.weekdays != {}
  {
    hide IsField, Words, WellFormed;
    var words := Words(expression);
    if |words| != 5 || |expression| > 128 { return None; }
    var parsed: seq<set<nat>> := [];
    for k := 0 to 5
      invariant |parsed| == k
      invariant forall j :: 0 <= j < k ==>
        WellFormed(words[j], LOW[j], HIGH[j]) && IsField(words[j], LOW[j], HIGH[j], parsed[j]) && parsed[j] != {}
    {
      var field := ParseField(words[k], LOW[k], HIGH[k]);
      if field.None? { return None; }
      parsed := parsed + [field.value];
    }
    r := Some(Fields(parsed[0], parsed[1], parsed[2], parsed[3], parsed[4]));
  }

  // ---- the next occurrence ----

  /** Weekdays are counted from Monday, as 0. */
  datatype Local = Local(minute: nat, hour: nat, day: nat, month: nat, weekday: nat)

  type Zone = int -> Local

  predicate DayMatches(f: Fields, l: Local) {
    var weekday := (l.weekday + 1) % 7 in f.weekdays;
    if |f.days| != 31 && |f.weekdays| != 7 then l.day in f.days || weekday else l.day in f.days && weekday
  }

  predicate Matches(f: Fields, l: Local) {
    l.minute in f.minutes && l.hour in f.hours && l.month in f.months && DayMatches(f, l)
  }

  function Numbers(low: nat, high: nat): (values: set<nat>)
    ensures forall v: nat :: v in values <==> low <= v <= high
    decreases high + 1 - low
  {
    if low > high then {} else {low} + Numbers(low + 1, high)
  }

  lemma {:induction false} NumbersCount(low: nat, high: nat)
    requires low <= high + 1
    ensures |Numbers(low, high)| == high + 1 - low
    decreases high + 1 - low
  {
    if low <= high {
      NumbersCount(low + 1, high);
      assert low !in Numbers(low + 1, high);
    }
  }

  /** A field within its bounds has as many values as there are exactly if it leaves nothing out. */
  lemma FullField(values: set<nat>, low: nat, high: nat)
    requires low <= high && values <= Numbers(low, high)
    ensures |values| == high + 1 - low <==> values == Numbers(low, high)
  {
    hide Numbers;
    NumbersCount(low, high);
    assert Numbers(low, high) == values + (Numbers(low, high) - values);
  }

  /**
   When a minute matches, in the terms of the expression: minute, hour and month are allowed, and so is the day. A day field
   that allows every day does not matter, and when both are restricted either one is enough. Sunday is 0.
   */
  lemma DayRule(f: Fields, l: Local)
    requires f.days <= Numbers(1, 31) && f.weekdays <= Numbers(0, 6)
    requires 1 <= l.day <= 31 && l.weekday <= 6
    ensures var sunday0 := if l.weekday == 6 then 0 else l.weekday + 1;
            Matches(f, l) <==>
              && l.minute in f.minutes && l.hour in f.hours && l.month in f.months
              && if f.days == Numbers(1, 31) then sunday0 in f.weekdays
              else if f.weekdays == Numbers(0, 6) then l.day in f.days
              else l.day in f.days || sunday0 in f.weekdays
  {
    hide Numbers;
    FullField(f.days, 1, 31);
    FullField(f.weekdays, 0, 6);
  }

  /** The first matching minute of `n` minutes from `m`. */
  function Search(f: Fields, zone: Zone, m: int, n: nat): (r: Option<int>)
    ensures r.Some? ==> m <= r.value < m + n && Matches(f, zone(r.value)) && forall x :: m <= x < r.value ==> !Matches(f, zone(x))
    ensures r.None? ==> forall x :: m <= x < m + n ==> !Matches(f, zone(x))
    decreases n
  {
    if n == 0 then None else if Matches(f, zone(m)) then Some(m) else Search(f, zone, m + 1, n - 1)
  }

  /** The minute an instant lies in. */
  function MinuteOf(t: int): int {
    t / MINUTE
  }

  lemma SearchStep(f: Fields, zone: Zone, m: int, n: nat)
    ensures Search(f, zone, m, n) == if n == 0 then None else if Matches(f, zone(m)) then Some(m) else Search(f, zone, m + 1, n - 1)
  {
    hide Matches;
  }

  /** `cron_next` */
  method CronNext(f: Fields, zone: Zone, after: int) returns (r: Option<int>)
    ensures r.Some? ==> r.value > after && r.value % MINUTE == 0 && Matches(f, zone(MinuteOf(r.value)))
    ensures r.Some? ==> forall m :: Matches(f, zone(m)) && m * MINUTE > after ==> r.value <= m * MINUTE
    ensures r.None? <==> forall m :: MinuteOf(after) < m <= MinuteOf(after) + 527_040 ==> !Matches(f, zone(m))
    ensures r == NextCron(f, zone, after)
  {
    hide Matches, Search;
    var first := MinuteOf(after) + 1;
    var cursor, left := first, HORIZON;
    NextCronLeast(f, zone, after);
    while left > 0
      invariant left >= 0 && Search(f, zone, first, HORIZON) == Search(f, zone, cursor, left)
    {
      SearchStep(f, zone, cursor, left);
      if Matches(f, zone(cursor)) { return Some(cursor * MINUTE); }
      cursor, left := cursor + 1, left - 1;
    }
    SearchStep(f, zone, cursor, 0);
    r := None;
  }

  lemma NextCronLeast(f: Fields, zone: Zone, after: int)
    ensures var r := NextCron(f, zone, after);
            && (r.Some? ==> r.value > after && r.value % MINUTE == 0 && Matches(f, zone(MinuteOf(r.value)))
                            && MinuteOf(r.value) <= MinuteOf(after) + HORIZON)
            && (r.Some? ==> forall m :: Matches(f, zone(m)) && m * MINUTE > after ==> r.value <= m * MINUTE)
            && (r.None? <==> forall m :: MinuteOf(after) < m <= MinuteOf(after) + HORIZON ==> !Matches(f, zone(m)))
  {
    hide Matches, Search;
    var found := Search(f, zone, MinuteOf(after) + 1, HORIZON);
    if found.Some? { assert MinuteOf(found.value * MINUTE) == found.value; }
  }

  function NextCron(f: Fields, zone: Zone, after: int): Option<int> {
    match Search(f, zone, MinuteOf(after) + 1, HORIZON)
    case None => None
    case Some(m) => Some(m * MINUTE)
  }

  // ---- arithmetic ----

  lemma {:induction false} MulMonotone(a: nat, b: nat, c: nat)
    requires a <= b
    ensures a * c <= b * c
  {
    if a < b {
      MulMonotone(a, b - 1, c);
      assert b * c == (b - 1) * c + c;
    }
  }

  lemma MulGap(p: nat, q: nat, step: nat, r: nat, s: nat)
    requires s < step
    ensures p < q ==> p * step + s < q * step + r
  {
    if p < q {
      MulMonotone(p + 1, q, step);
      assert (p + 1) * step == p * step + step;
    }
  }

  /** Quotient and remainder are determined by what they are for. */
  lemma DivUnique(x: nat, step: nat, q: nat, r: nat)
    requires r < step && x == q * step + r
    ensures x / step == q && x % step == r
  {
    var p, s := x / step, x % step;
    assert x == p * step + s;
    MulGap(p, q, step, r, s);
    MulGap(q, p, step, s, r);
  }

  /** Between two multiples of `step` that follow each other there is no other. */
  lemma NextMultiple(a: nat, step: nat)
    requires step >= 1 && a % step == 0
    ensures (a + step) % step == 0
    ensures forall x: nat :: a < x < a + step ==> x % step != 0
  {
    var q := a / step;
    assert a == q * step;
    assert (q + 1) * step == q * step + step;
    DivUnique(a + step, step, q + 1, 0);
    forall x: nat | a < x < a + step
      ensures x % step != 0
    {
      DivUnique(x, step, q, x - a);
    }
  }
}
