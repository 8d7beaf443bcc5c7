/**
 What a schedule that is due has missed: the instants from its due time up to now, the last few of which are kept, and the
 first instant after now. Intervals are computed in closed form, cron expressions by chaining the search.
 */
module CatchUp {
  import opened Wrappers
  import opened Text
  import opened Decimal
  import opened Scheduling

  datatype Timing = Every(seconds: nat) | Cron(fields: Fields, zone: Zone)

  datatype Plan = Plan(occurrences: seq<int>, latest: int, nextAt: int)

  /** s[-n:] for a positive n. */
  function LastN(s: seq<int>, n: nat): seq<int> {
    if |s| <= n then s else s[|s| - n..]
  }

  lemma LastNAppend(s: seq<int>, x: int, n: nat)
    requires n >= 1
    ensures LastN([], n) == [] && LastN(LastN(s, n) + [x], n) == LastN(s + [x], n)
    ensures LastN(s + [x], n) != [] && LastN(s + [x], n)[|LastN(s + [x], n)| - 1] == x
  {
  }

  // ---- the instants of a schedule ----

  /** Relative to an instant `due` at which the schedule fired or was to fire. */
  ghost predicate Instant(timing: Timing, due: int, t: int) {
    match timing
    case Every(seconds) => t >= due && seconds >= 1 && Multiple(t - due, seconds * SECOND)
    case Cron(f, zone) => t % MINUTE == 0 && Matches(f, zone(MinuteOf(t)))
  }

  predicate Multiple(d: int, step: nat)
    requires step >= 1
  {
    d % step == 0
  }

  /** Due itself, and every instant after it up to `current`, in order. */
  ghost predicate Enumerates(all: seq<int>, timing: Timing, due: int, current: int) {
    && all != [] && all[0] == due && (forall i, j :: 0 <= i < j < |all| ==> all[i] < all[j])
    && (forall t :: t in all ==> due <= t <= current)
    && (forall t :: due < t <= current ==> (t in all <==> Instant(timing, due, t)))
  }

  ghost predicate IsNext(timing: Timing, due: int, current: int, next: int) {
    next > current && Instant(timing, due, next) && forall t :: t > current && Instant(timing, due, t) ==> next <= t
  }

  // ---- intervals ----

  /** Stepping from due while not past current. */
  function StepAll(cursor: int, step: nat, current: int): seq<int>
    requires step >= 1
    decreases current - cursor
  {
    if cursor > current then [] else [cursor] + StepAll(cursor + step, step, current)
  }

  /** The loop that the cron branch runs, with a fixed step: keep the last `max` while not past `current`. */
  function SteppedLoop(cursor: int, step: nat, current: int, kept: seq<int>, max: nat): (seq<int>, int)
    requires step >= 1
    decreases current - cursor
  {
    if cursor > current then (kept, cursor)
    else SteppedLoop(cursor + step, step, current, LastN(kept + [cursor], max), max)
  }

  lemma {:induction false} SteppedLoopKeeps(cursor: int, step: nat, current: int, before: seq<int>, max: nat)
    requires step >= 1 && max >= 1
    ensures var all := StepAll(cursor, step, current);
            && SteppedLoop(cursor, step, current, LastN(before, max), max).0 == LastN(before + all, max)
            && SteppedLoop(cursor, step, current, LastN(before, max), max).1 == if all == [] then cursor else all[|all| - 1] + step
    decreases current - cursor
  {
    hide LastN;
    var all := StepAll(cursor, step, current);
    if cursor > current {
      assert before + all == before;
    } else {
      LastNAppend(before, cursor, max);
      SteppedLoopKeeps(cursor + step, step, current, before + [cursor], max);
      assert before + all == before + [cursor] + StepAll(cursor + step, step, current);
    }
  }

  function Progression(due: int, step: nat, n: nat): seq<int> {
    seq(n, i requires 0 <= i < n => due + i * step)
  }

  lemma {:induction false} StepAllForm(due: int, step: nat, current: int, n: nat)
    requires step >= 1 && due + n * step <= current < due + n * step + step
    ensures StepAll(due, step, current) == Progression(due, step, n + 1)
    decreases n
  {
    if n == 0 {
      assert StepAll(due + step, step, current) == [];
    } else {
      assert n * step == (n - 1) * step + step;
      MulMonotone(0, n - 1, step);
      StepAllForm(due + step, step, current, n - 1);
      var a, b := [due] + Progression(due + step, step, n), Progression(due, step, n + 1);
      forall i | 0 <= i < |b|
        ensures a[i] == b[i]
      {
        if i > 0 { assert i * step == (i - 1) * step + step; }
      }
    }
  }

  /** `i` intervals before the latest occurrence. */
  function Back(latest: int, step: nat, i: nat): int {
    latest - step * i
  }

  lemma LastOfAll(all: seq<int>, max: nat, count: nat)
    requires count == if |all| <= max then |all| else max
    ensures all[|all| - count..] == LastN(all, max) && LastN([], max) == []
  {
  }

  /** The interval branch of `tick`: the same as stepping from `due` and keeping the last `max`, without the loop. */
  method IntervalCatchUp(due: int, current: int, seconds: nat, max: nat) returns (p: Plan)
    requires due <= current && seconds >= 1 && max >= 1
    ensures var all := StepAll(due, seconds * SECOND, current);
            && all != [] && p == Plan(LastN(all, max), all[|all| - 1], all[|all| - 1] + seconds * SECOND)
    ensures (p.occurrences, p.nextAt) == SteppedLoop(due, seconds * SECOND, current, [], max)
  {
    hide StepAll, Back, Progression, SteppedLoop, LastN;
    var step := seconds * SECOND;
    var missed := (current - due) / step;
    var latest := due + step * missed;
    var count := if missed + 1 <= max then missed + 1 else max;
    StepAllMissed(due, step, current);
    ghost var all := Progression(due, step, missed + 1);
    var occurrences: seq<int> := [];
    var i := count;
    while i > 0
      invariant 0 <= i <= count && |occurrences| == count - i
      invariant forall j :: 0 <= j < |occurrences| ==> occurrences[j] == Back(latest, step, count - 1 - j)
    {
      i := i - 1;
      occurrences := occurrences + [Back(latest, step, i)];
    }
    Backwards(due, step, missed, count, occurrences);
    LastOfAll(all, max, count);
    SteppedLoopKeeps(due, step, current, [], max);
    assert [] + StepAll(due, step, current) == all;
    p := Plan(occurrences, latest, latest + step);
  }

  lemma StepAllMissed(due: int, step: nat, current: int)
    requires step >= 1 && due <= current
    ensures StepAll(due, step, current) == Progression(due, step, (current - due) / step + 1)
    ensures (current - due) / step >= 0
  {
    var d := current - due;
    var n := d / step;
    assert d == n * step + d % step;
    StepAllForm(due, step, current, n);
  }

  lemma Backwards(due: int, step: nat, missed: nat, count: nat, occurrences: seq<int>)
    requires |occurrences| == count <= missed + 1
    requires forall j :: 0 <= j < count ==> occurrences[j] == Back(due + step * missed, step, count - 1 - j)
    ensures |Progression(due, step, missed + 1)| == missed + 1
    ensures Progression(due, step, missed + 1)[missed] == due + step * missed
    ensures occurrences == Progression(due, step, missed + 1)[missed + 1 - count..]
  {
    forall j | 0 <= j < count
      ensures occurrences[j] == Progression(due, step, missed + 1)[missed + 1 - count + j]
    {
      Spread(step, missed, count - 1 - j);
    }
  }

  lemma Spread(step: nat, a: nat, b: nat)
    requires b <= a
    ensures step * a - step * b == (a - b) * step
  {
  }

  lemma ProgressionEnumerates(due: int, seconds: nat, current: int)
    requires due <= current && seconds >= 1
    ensures Enumerates(StepAll(due, seconds * SECOND, current), Every(seconds), due, current)
    ensures var all := StepAll(due, seconds * SECOND, current);
            IsNext(Every(seconds), due, current, all[|all| - 1] + seconds * SECOND)
  {
    hide StepAll, Multiple;
    var step := seconds * SECOND;
    var all := StepAll(due, step, current);
    GridFacts(due, step, current);
    forall t | t in all
      ensures due <= t <= current
    {
      GridMember(due, step, current, t);
    }
    forall t | due < t <= current
      ensures t in all <==> Instant(Every(seconds), due, t)
    {
      GridMember(due, step, current, t);
    }
    forall t | t > current && Instant(Every(seconds), due, t)
      ensures all[|all| - 1] + step <= t
    {
      GridMember(due, step, current, t);
    }
  }

  ghost predicate GridFact(all: seq<int>, due: int, step: nat, current: int, t: int)
    requires step >= 1 && all != []
  {
    && (t >= due && Multiple(t - due, step) ==> if t <= current then t in all else t >= all[|all| - 1] + step)
    && (t in all ==> due <= t <= current && Multiple(t - due, step))
  }

  lemma GridFacts(due: int, step: nat, current: int)
    requires step >= 1 && due <= current
    ensures var all := StepAll(due, step, current);
            && all != [] && all[0] == due && (forall i, j :: 0 <= i < j < |all| ==> all[i] < all[j])
            && var next := all[|all| - 1] + step; next > current && Multiple(next - due, step) && next >= due
  {
    hide StepAll, Multiple, Progression;
    StepAllMissed(due, step, current);
    ProgressionOrdered(due, step, (current - due) / step + 1);
    NextOnGrid(due, step, current);
  }

  lemma GridMember(due: int, step: nat, current: int, t: int)
    requires step >= 1 && due <= current
    ensures StepAll(due, step, current) != [] && GridFact(StepAll(due, step, current), due, step, current, t)
  {
    hide StepAll;
    var n := (current - due) / step;
    assert current - due == n * step + (current - due) % step;
    StepAllMissed(due, step, current);
    var all := Progression(due, step, n + 1);
    if t >= due && Multiple(t - due, step) {
      OnGrid(due, step, current, t);
      if t <= current { assert all[(t - due) / step] == t; }
    }
    if i :| 0 <= i < n + 1 && all[i] == t {
      MulMonotone(i, n, step);
      MulMonotone(0, i, step);
      DivUnique(i * step, step, i, 0);
    }
  }

  lemma NextOnGrid(due: int, step: nat, current: int)
    requires step >= 1 && due <= current
    ensures var n := (current - due) / step;
            var next := Progression(due, step, n + 1)[n] + step;
            next > current && Multiple(next - due, step) && next >= due
  {
    var n := (current - due) / step;
    assert current - due == n * step + (current - due) % step;
    assert (n + 1) * step == n * step + step;
    MulMonotone(0, n + 1, step);
    DivUnique((n + 1) * step, step, n + 1, 0);
  }

  lemma ProgressionOrdered(due: int, step: nat, n: nat)
    requires step >= 1
    ensures |Progression(due, step, n)| == n && (n > 0 ==> Progression(due, step, n)[0] == due)
    ensures forall i, j :: 0 <= i < j < n ==> Progression(due, step, n)[i] < Progression(due, step, n)[j]
  {
    forall i, j | 0 <= i < j < n
      ensures Progression(due, step, n)[i] < Progression(due, step, n)[j]
    {
      MulGap(i, j, step, 0, 0);
    }
  }

  lemma OnGrid(due: int, step: nat, current: int, t: int)
    requires step >= 1 && due <= current && t >= due && (t - due) % step == 0
    ensures t == due + (t - due) / step * step && (t - due) / step >= 0
    ensures var n := (current - due) / step;
            if t <= current then (t - due) / step <= n else t >= due + n * step + step
  {
    var k, n := (t - due) / step, (current - due) / step;
    var r := (current - due) % step;
    assert t - due == k * step;
    assert current - due == n * step + r;
    MulGap(n, k, step, 0, r);
    MulGap(k, n, step, r, 0);
    assert (n + 1) * step == n * step + step;
    if n < k { MulMonotone(n + 1, k, step); }
  }

  // ---- cron ----

  /** The matching minutes from `lo` to `hi`. */
  ghost function MatchesIn(f: Fields, zone: Zone, lo: int, hi: int): seq<int>
    decreases hi - lo
  {
    if lo > hi then []
    else MatchesIn(f, zone, lo, hi - 1) + if Matches(f, zone(hi)) then [hi] else []
  }

  lemma {:induction false} MatchesInRows(f: Fields, zone: Zone, lo: int, hi: int)
    ensures var all := MatchesIn(f, zone, lo, hi);
            && (forall i, j :: 0 <= i < j < |all| ==> all[i] < all[j])
            && (forall m :: m in all <==> lo <= m <= hi && Matches(f, zone(m)))
    decreases hi - lo
  {
    hide Matches;
    if lo <= hi {
      MatchesInRows(f, zone, lo, hi - 1);
      var before, all := MatchesIn(f, zone, lo, hi - 1), MatchesIn(f, zone, lo, hi);
      assert forall m :: m in all <==> m in before || (Matches(f, zone(hi)) && m == hi);
      assert forall i :: 0 <= i < |before| ==> before[i] in before;
    }
  }

  function Scaled(minutes: seq<int>): seq<int> {
    seq(|minutes|, i requires 0 <= i < |minutes| => minutes[i] * MINUTE)
  }

  /** Due, then every matching minute after it up to `current`. */
  ghost function CronAll(f: Fields, zone: Zone, due: int, current: int): seq<int> {
    [due] + Scaled(MatchesIn(f, zone, MinuteOf(due) + 1, MinuteOf(current)))
  }

  lemma CronEnumerates(f: Fields, zone: Zone, due: int, current: int)
    requires due <= current
    ensures Enumerates(CronAll(f, zone, due, current), Cron(f, zone), due, current)
  {
    hide Matches, MatchesIn;
    var minutes := MatchesIn(f, zone, MinuteOf(due) + 1, MinuteOf(current));
    var all := CronAll(f, zone, due, current);
    MatchesInRows(f, zone, MinuteOf(due) + 1, MinuteOf(current));
    forall i | 1 <= i < |all|
      ensures all[i] == minutes[i - 1] * MINUTE && due < all[i] <= current
    {
      assert minutes[i - 1] in minutes;
    }
    forall t | due < t <= current
      ensures t in all <==> Instant(Cron(f, zone), due, t)
    {
      if t in all {
        var i :| 0 <= i < |all| && all[i] == t;
        assert minutes[i - 1] in minutes && MinuteOf(t) == minutes[i - 1];
      }
      if Instant(Cron(f, zone), due, t) {
        assert MinuteOf(t) in minutes;
        var i :| 0 <= i < |minutes| && minutes[i] == MinuteOf(t);
        assert all[i + 1] == t;
      }
    }
  }

  /** The search from one enumerated instant leads to the next one, or past `current` from the last. */
  lemma ChainNext(f: Fields, zone: Zone, due: int, current: int, k: nat)
    requires due <= current && k < |CronAll(f, zone, due, current)|
    requires NextCron(f, zone, CronAll(f, zone, due, current)[k]).Some?
    ensures var all := CronAll(f, zone, due, current);
            var next := NextCron(f, zone, all[k]).value;
            if k + 1 < |all| then all[k + 1] == next else next > current && IsNext(Cron(f, zone), due, current, next)
  {
    hide Matches, CronAll, NextCron;
    var all := CronAll(f, zone, due, current);
    CronEnumerates(f, zone, due, current);
    NextCronLeast(f, zone, all[k]);
    var next := NextCron(f, zone, all[k]).value;
    assert Instant(Cron(f, zone), due, next);
    forall t | Instant(Cron(f, zone), due, t) && t > all[k]
      ensures next <= t
    {
      assert t == MinuteOf(t) * MINUTE;
    }
    if k + 1 < |all| {
      assert all[k + 1] in all && all[k] in all;
      assert Instant(Cron(f, zone), due, all[k + 1]);
      var i :| 0 <= i < |all| && all[i] == next;
    } else {
      assert all[k] in all;
      NothingLater(all, Cron(f, zone), due, current, next);
    }
  }

  lemma NothingLater(all: seq<int>, timing: Timing, due: int, current: int, next: int)
    requires Enumerates(all, timing, due, current) && next > all[|all| - 1] && Instant(timing, due, next)
    ensures next > current
  {
    hide Instant;
    assert all[0] == due;
    if next <= current {
      var i :| 0 <= i < |all| && all[i] == next;
    }
  }

  lemma StartsAt(all: seq<int>, timing: Timing, due: int, current: int)
    requires Enumerates(all, timing, due, current)
    ensures all != [] && all[0] == due && forall k :: 0 <= k < |all| ==> all[k] <= current
  {
    forall k | 0 <= k < |all|
      ensures all[k] <= current
    {
      assert all[k] in all;
    }
  }

  /** The cron branch gives up on a day's worth of missed minutes, or when some occurrence has no successor in sight. */
  ghost predicate Stuck(f: Fields, zone: Zone, due: int, current: int) {
    var all := CronAll(f, zone, due, current);
    |all| >= 1440 || exists k :: 0 <= k < |all| && NextCron(f, zone, all[k]).None?
  }

  /** The cron branch of `tick`. */
  method CronCatchUp(f: Fields, zone: Zone, due: int, current: int, max: nat) returns (r: Option<Plan>)
    requires due <= current && max >= 1
    ensures r.None? <==> Stuck(f, zone, due, current)
    ensures r.Some? ==>
              var all := CronAll(f, zone, due, current);
              && r.value.occurrences == LastN(all, max) && r.value.latest == all[|all| - 1]
              && IsNext(Cron(f, zone), due, current, r.value.nextAt)
  {
    hide CronAll, NextCron, Matches, IsNext, LastN, Enumerates;
    ghost var all := CronAll(f, zone, due, current);
    CronEnumerates(f, zone, due, current);
    StartsAt(all, Cron(f, zone), due, current);
    LastNAppend([], due, max);
    var cursor, occurrences: seq<int> := due, [];
    var left := MAX_MISSED;
    ghost var k := 0;
    while left > 0
      invariant 0 <= left && k == MAX_MISSED - left && k <= |all| && occurrences == LastN(all[..k], max)
      invariant k > 0 ==> occurrences != [] && occurrences[|occurrences| - 1] == all[k - 1]
      invariant k < |all| ==> cursor == all[k]
      invariant k == |all| ==> cursor > current && IsNext(Cron(f, zone), due, current, cursor)
      invariant forall j :: 0 <= j < k ==> NextCron(f, zone, all[j]).Some?
    {
      if cursor > current {
        assert all[..k] == all;
        return Some(Plan(occurrences, occurrences[|occurrences| - 1], cursor));
      }
      assert all[..k + 1] == all[..k] + [cursor];
      LastNAppend(all[..k], cursor, max);
      occurrences := LastN(occurrences + [cursor], max);
      var next := CronNext(f, zone, cursor);
      if next.None? { return None; }
      ChainNext(f, zone, due, current, k);
      cursor := next.value;
      left, k := left - 1, k + 1;
    }
    r := None;
  }

  /** One missed minute is enough to be rejected when the next match lies beyond the horizon, as for a leap day. */
  lemma SparseCronRejected(f: Fields, zone: Zone, m: int)
    requires Matches(f, zone(m)) && forall x :: m < x <= m + 527_040 ==> !Matches(f, zone(x))
    ensures CronAll(f, zone, m * MINUTE, m * MINUTE) == [m * MINUTE] && Stuck(f, zone, m * MINUTE, m * MINUTE)
  {
    hide Matches, NextCron;
    var due := m * MINUTE;
    assert MinuteOf(due) == m;
    NextCronLeast(f, zone, due);
    var all := CronAll(f, zone, due, due);
    assert all[0] == due && NextCron(f, zone, all[0]).None?;
  }

  // ---- the leap day ----

  const LEAP_DAY := "0 0 29 2 *"

  /** Coordinated Universal Time from 1901 to 2099: minutes are counted from the start of 2024, a Monday. */
  function CivilDay(d: int): (nat, nat) {
    var k := d % 1461;
    if k < 366 then MonthDay(k, true) else MonthDay((k - 366) % 365, false)
  }

  function MonthDay(k: nat, leap: bool): (nat, nat) {
    var feb := if leap then 29 else 28;
    if k < 31 then (1, k + 1)
    else if k < 31 + feb then (2, k - 30)
    else
      var r := k - 31 - feb;
      if r < 31 then (3, r + 1)
      else if r < 61 then (4, r - 30)
      else if r < 92 then (5, r - 60)
      else if r < 122 then (6, r - 91)
      else if r < 153 then (7, r - 121)
      else if r < 184 then (8, r - 152)
      else if r < 214 then (9, r - 183)
      else if r < 245 then (10, r - 213)
      else if r < 275 then (11, r - 244)
      else (12, r - 274)
  }

  function Utc(m: int): Local {
    var day := m / 1440;
    var (month, dayOfMonth) := CivilDay(day);
    Local(m % 60, m / 60 % 24, dayOfMonth, month, day % 7)
  }

  function LeapDayFields(): Fields {
    Fields({0}, {0}, {29}, {2}, {0, 1, 2, 3, 4, 5, 6})
  }

  /** The expression means midnight on 29 February. */
  lemma LeapDayParsed()
    ensures Words(LEAP_DAY) == ["0", "0", "29", "2", "*"]
    ensures var f := LeapDayFields();
            && IsField("0", 0, 59, f.minutes) && IsField("0", 0, 23, f.hours) && IsField("29", 1, 31, f.days)
            && IsField("2", 1, 12, f.months) && IsField("*", 0, 6, f.weekdays)
  {
    hide Words, IsField, Value, AllDigits, Number;
    LeapDayWords();
    LeapDayNumbers();
    NumberField("0", 0, 59, 0);
    NumberField("0", 0, 23, 0);
    NumberField("29", 1, 31, 29);
    NumberField("2", 1, 12, 2);
    StarField(0, 6, {0, 1, 2, 3, 4, 5, 6});
  }

  lemma LeapDayWords()
    ensures Words(LEAP_DAY) == ["0", "0", "29", "2", "*"]
  {
    hide Words, IsSpace;
    Spaces();
    assert LEAP_DAY == "0" + (" " + "0 29 2 *");
    FirstWord("0", "0 29 2 *");
    assert "0 29 2 *" == "0" + (" " + "29 2 *");
    FirstWord("0", "29 2 *");
    assert "29 2 *" == "29" + (" " + "2 *");
    FirstWord("29", "2 *");
    assert "2 *" == "2" + (" " + "*");
    FirstWord("2", "*");
    LastWord("*");
  }

  lemma Spaces()
    ensures forall c :: c in "029*" ==> !IsSpace(c)
  {
  }

  lemma LeapDayNumbers()
    ensures Number("0") && Value("0") == 0 && Number("29") && Value("29") == 29 && Number("2") && Value("2") == 2
  {
    assert "29"[..1] == "2" && "0"[..0] == "" && "2"[..0] == "";
  }

  lemma LeapDayOnly(day: int)
    requires 59 < day <= 425
    ensures CivilDay(day) != (2, 29)
  {
  }

  /** 29 February 2024, 00:00, counted from the beginning of that year. */
  const LEAP_MIDNIGHT := 59 * 1440 * MINUTE

  /**
   For this expression in Coordinated Universal Time a tick exactly at midnight of 29 February 2024 is rejected, with one
   single occurrence missed.
   */
  lemma LeapDayRejected()
    ensures var due := LEAP_MIDNIGHT;
            && Matches(LeapDayFields(), Utc(MinuteOf(due)))
            && CronAll(LeapDayFields(), Utc, due, due) == [due] && Stuck(LeapDayFields(), Utc, due, due)
  {
    hide Matches, Utc, LeapDayFields, CronAll, Stuck;
    var m := 59 * 1440;
    assert LEAP_MIDNIGHT == m * MINUTE && MinuteOf(LEAP_MIDNIGHT) == m;
    LeapDayNow();
    forall x | m < x <= m + HORIZON
      ensures !Matches(LeapDayFields(), Utc(x))
    {
      LeapDayLater(x);
    }
    SparseCronRejected(LeapDayFields(), Utc, m);
  }

  lemma LeapDayNow()
    ensures Matches(LeapDayFields(), Utc(59 * 1440))
  {
  }

  lemma LeapDayLater(x: int)
    requires 59 * 1440 < x <= 59 * 1440 + HORIZON
    ensures !Matches(LeapDayFields(), Utc(x))
  {
    hide CivilDay;
    var day := x / 1440;
    if day > 59 { LeapDayOnly(day); }
  }
}
