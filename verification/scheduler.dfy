/**
 The durable scheduler: what one tick does to a schedule, and what any run of ticks, from any number of processes and with
 any clock readings, enqueues.
 */
module Scheduler {
  import opened Wrappers
  import opened Scheduling
  import opened CatchUp

  datatype Policy = Skip | Coalesce | All

  datatype Definition = Definition(timing: Timing, policy: Policy, maxCatchUp: nat)

  predicate ValidDefinition(d: Definition) {
    && 1 <= d.maxCatchUp <= 10
    && (d.timing.Every? ==> 30 <= d.timing.seconds <= 31_536_000)
  }

  // ---- one schedule ----

  /** What the misfire policy makes of the missed occurrences. */
  function Chosen(d: Definition, due: int, current: int, occurrences: seq<int>, latest: int): seq<int> {
    if d.policy == Skip && current - due > 60 * SECOND then []
    else if d.policy != All then [latest]
    else occurrences
  }

  ghost predicate Rejects(d: Definition, due: int, current: int) {
    d.timing.Cron? && Stuck(d.timing.fields, d.timing.zone, due, current)
  }

  /** An instant the schedule has come to: the one it was due at, or a later one up to now. */
  ghost predicate Passed(timing: Timing, due: int, current: int, t: int) {
    due <= t <= current && (t == due || Instant(timing, due, t))
  }

  ghost predicate Latest(timing: Timing, due: int, current: int, t: int) {
    Passed(timing, due, current, t) && forall x :: Passed(timing, due, current, x) ==> x <= t
  }

  /** The passed instants in order, all of them or the last `max`. */
  ghost predicate LastPassed(timing: Timing, due: int, current: int, max: nat, times: seq<int>) {
    && times != [] && |times| <= max && (forall i, j :: 0 <= i < j < |times| ==> times[i] < times[j])
    && (forall i :: 0 <= i < |times| ==> Passed(timing, due, current, times[i]))
    && forall x :: Passed(timing, due, current, x) && x !in times ==> |times| == max && x < times[0]
  }

  /**
   What the misfire policy asks for: to catch up, the last instants that were passed; to coalesce, the latest one alone; to
   skip, the same unless the schedule is more than a minute late.
   */
  ghost predicate Chooses(d: Definition, due: int, current: int, times: seq<int>) {
    match d.policy
    case All => LastPassed(d.timing, due, current, d.maxCatchUp, times)
    case Coalesce => |times| == 1 && Latest(d.timing, due, current, times[0])
    case Skip => if current - due > 60_000_000 then times == [] else |times| == 1 && Latest(d.timing, due, current, times[0])
  }

  /** The instants to enqueue, and where the schedule goes on. */
  ghost predicate Good(d: Definition, due: int, current: int, times: seq<int>, next: int) {
    IsNext(d.timing, due, current, next) && Chooses(d, due, current, times)
  }

  method Missed(d: Definition, due: int, current: int) returns (r: Option<(seq<int>, int)>)
    requires ValidDefinition(d) && due <= current
    ensures r.None? <==> Rejects(d, due, current)
    ensures r.Some? ==> Good(d, due, current, r.value.0, r.value.1)
  {
    hide Stuck, IsNext, Enumerates, LastN, StepAll, CronAll, Chosen, Chooses;
    match d.timing
    case Every(seconds) =>
      var p := IntervalCatchUp(due, current, seconds, d.maxCatchUp);
      ProgressionEnumerates(due, seconds, current);
      ChosenIsRight(d, due, current, StepAll(due, seconds * SECOND, current));
      r := Some((Chosen(d, due, current, p.occurrences, p.latest), p.nextAt));
    case Cron(f, zone) =>
      var plan := CronCatchUp(f, zone, due, current, d.maxCatchUp);
      if plan.None? { return None; }
      CronEnumerates(f, zone, due, current);
      ChosenIsRight(d, due, current, CronAll(f, zone, due, current));
      r := Some((Chosen(d, due, current, plan.value.occurrences, plan.value.latest), plan.value.nextAt));
  }

  lemma EnumeratesPassed(all: seq<int>, timing: Timing, due: int, current: int, x: int)
    requires Enumerates(all, timing, due, current)
    ensures Passed(timing, due, current, x) <==> x in all
  {
    hide Instant;
    assert all[0] in all;
  }

  lemma LastEnumerated(all: seq<int>, timing: Timing, due: int, current: int)
    requires Enumerates(all, timing, due, current)
    ensures Latest(timing, due, current, all[|all| - 1])
  {
    hide Instant, Passed;
    forall x | Passed(timing, due, current, x)
      ensures x <= all[|all| - 1]
    {
      EnumeratesPassed(all, timing, due, current, x);
      var i :| 0 <= i < |all| && all[i] == x;
    }
    EnumeratesPassed(all, timing, due, current, all[|all| - 1]);
  }

  lemma LastNRows(all: seq<int>, max: nat) returns (from: nat)
    requires max >= 1 && all != []
    ensures var times := LastN(all, max);
            && times != [] && |times| <= max && |all| == from + |times| && (from > 0 ==> |times| == max)
            && forall i :: 0 <= i < |times| ==> times[i] == all[from + i]
  {
    from := |all| - |LastN(all, max)|;
  }

  lemma InOrder(all: seq<int>, timing: Timing, due: int, current: int)
    requires Enumerates(all, timing, due, current)
    ensures all != [] && forall i, j :: 0 <= i < j < |all| ==> all[i] < all[j]
  {
    hide Instant;
  }

  lemma LastNPassed(all: seq<int>, timing: Timing, due: int, current: int, max: nat)
    requires Enumerates(all, timing, due, current) && max >= 1
    ensures LastPassed(timing, due, current, max, LastN(all, max))
  {
    hide Passed, LastN, Enumerates;
    InOrder(all, timing, due, current);
    var times := LastN(all, max);
    var from := LastNRows(all, max);
    forall i | 0 <= i < |times|
      ensures Passed(timing, due, current, times[i])
    {
      EnumeratesPassed(all, timing, due, current, all[from + i]);
    }
    forall x | Passed(timing, due, current, x)
      ensures x in times || (|times| == max && x < times[0])
    {
      EnumeratesPassed(all, timing, due, current, x);
      Older(all, times, from, x);
    }
  }

  lemma Older(all: seq<int>, times: seq<int>, from: nat, x: int)
    requires (forall i, j :: 0 <= i < j < |all| ==> all[i] < all[j]) && x in all && times != [] && |all| == from + |times|
    requires forall i :: 0 <= i < |times| ==> times[i] == all[from + i]
    ensures x in times || (from > 0 && x < times[0])
  {
    var i :| 0 <= i < |all| && all[i] == x;
    if i >= from {
      assert times[i - from] == x;
    } else {
      assert all[i] < all[from + 0];
    }
  }

  lemma ChosenIsRight(d: Definition, due: int, current: int, all: seq<int>)
    requires ValidDefinition(d) && Enumerates(all, d.timing, due, current)
    ensures Chooses(d, due, current, Chosen(d, due, current, LastN(all, d.maxCatchUp), all[|all| - 1]))
  {
    hide Latest, LastPassed, LastN;
    LastEnumerated(all, d.timing, due, current);
    LastNPassed(all, d.timing, due, current, d.maxCatchUp);
  }

  /** Enqueued instants are in order, true instants from the due one up to now, and not more than allowed. */
  lemma GoodTimes(d: Definition, due: int, current: int, times: seq<int>, next: int)
    requires ValidDefinition(d) && Good(d, due, current, times, next)
    ensures |times| <= d.maxCatchUp
    ensures forall i, j :: 0 <= i < j < |times| ==> times[i] < times[j]
    ensures forall i :: 0 <= i < |times| ==> due <= times[i] <= current && (times[i] == due || Instant(d.timing, due, times[i]))
  {
    hide IsNext, Instant;
  }

  // ---- records, jobs and receipts ----

  datatype Record = Record(def: Definition, nextAt: int, enabled: bool, version: nat)

  datatype Job = Job(schedule: string, at: int)

  datatype TickKey = TickKey(schedule: string, version: nat)

  datatype Receipt = Receipt(next: int, times: seq<int>)

  /** `seen` are all the states that schedules have had, which a slow process may still be working from. */
  datatype World = World(records: map<string, Record>, seen: map<string, seq<Record>>, jobs: seq<Job>,
                         receipts: map<TickKey, Receipt>, origin: map<string, int>)

  datatype Step =
    | Configure(id: string, def: Definition, first: int)
    | SetEnabled(id: string, enabled: bool)
    | Fire(id: string, was: Record, now: int, times: seq<int>, next: int)

  ghost predicate WasSeen(w: World, id: string, r: Record) {
    id in w.seen && r in w.seen[id]
  }

  ghost predicate Enabled(w: World, s: Step) {
    match s
    case Configure(id, def, first) => ValidDefinition(def) && Instant(def.timing, first, first)
    case SetEnabled(id, _) => id in w.records
    case Fire(id, was, now, times, next) =>
      && WasSeen(w, id, was) && was.enabled && was.nextAt <= now
      && Good(was.def, was.nextAt, now, times, next)
  }

  function JobsFor(id: string, times: seq<int>): seq<Job> {
    seq(|times|, i requires 0 <= i < |times| => Job(id, times[i]))
  }

  /** The tick's command applies only once per version, and only if the schedule still has that version. */
  predicate Applies(w: World, id: string, was: Record) {
    TickKey(id, was.version) !in w.receipts && id in w.records && w.records[id].version == was.version
  }

  function Put(w: World, id: string, r: Record): World {
    w.(records := w.records[id := r], seen := w.seen[id := (if id in w.seen then w.seen[id] else []) + [r]])
  }

  function Do(w: World, s: Step): World {
    match s
    case Configure(id, def, first) =>
      if id in w.records then w else Put(w, id, Record(def, first, true, 1)).(origin := w.origin[id := first])
    case SetEnabled(id, enabled) =>
      if id !in w.records then w
      else Put(w, id, w.records[id].(enabled := enabled, version := w.records[id].version + 1))
    case Fire(id, was, now, times, next) =>
      if !Applies(w, id, was) then w
      else Put(w, id, was.(nextAt := next, version := was.version + 1)).(
             jobs := w.jobs + JobsFor(id, times),
             receipts := w.receipts[TickKey(id, was.version) := Receipt(next, times)])
  }

  // ---- the invariant ----

  ghost predicate RecordsOk(w: World) {
    forall id :: id in w.records ==>
      && id in w.origin && WasSeen(w, id, w.records[id]) && ValidDefinition(w.records[id].def)
      && Instant(w.records[id].def.timing, w.origin[id], w.records[id].nextAt)
  }

  /** A version determines the state a schedule had with it. */
  ghost predicate SeenOk(w: World) {
    && (forall id, r :: WasSeen(w, id, r) ==>
          id in w.records && r.version <= w.records[id].version && (r.version == w.records[id].version ==> r == w.records[id]))
    && (forall k :: k in w.receipts ==> k.schedule in w.records && k.version < w.records[k.schedule].version)
  }

  ghost predicate JobOk(w: World, j: Job) {
    && j.schedule in w.records && j.schedule in w.origin && j.at < w.records[j.schedule].nextAt
    && Instant(w.records[j.schedule].def.timing, w.origin[j.schedule], j.at)
  }

  ghost predicate JobsOk(w: World) {
    && (forall i :: 0 <= i < |w.jobs| ==> JobOk(w, w.jobs[i]))
    && (forall i, j :: 0 <= i < j < |w.jobs| ==> w.jobs[i] != w.jobs[j])
  }

  ghost predicate Inv(w: World) {
    RecordsOk(w) && SeenOk(w) && JobsOk(w)
  }

  lemma MultipleSum(a: nat, b: nat, step: nat)
    requires step >= 1 && Multiple(a, step)
    ensures Multiple(a + b, step) <==> Multiple(b, step)
  {
    var p, q, r := a / step, b / step, b % step;
    assert a == p * step && b == q * step + r;
    assert (p + q) * step == p * step + q * step;
    DivUnique(a + b, step, p + q, r);
  }

  /** Instants seen from a later instant of the same schedule are the same. */
  lemma InstantShift(timing: Timing, origin: int, due: int, t: int)
    requires Instant(timing, origin, due) && t >= due
    ensures Instant(timing, origin, t) <==> Instant(timing, due, t)
  {
    hide Matches, Multiple;
    if timing.Every? {
      MultipleSum(due - origin, t - due, timing.seconds * SECOND);
      assert due - origin + (t - due) == t - origin;
    }
  }

  lemma PutSeen(w: World, id: string, r: Record)
    ensures forall x, q :: WasSeen(Put(w, id, r), x, q) <==> WasSeen(w, x, q) || (x == id && q == r)
  {
  }

  /** Giving a schedule its next version keeps what versions mean. */
  lemma PutKeeps(w: World, id: string, r: Record)
    requires SeenOk(w) && (id in w.records ==> r.version == w.records[id].version + 1)
    requires id !in w.records ==> r.version >= 1
    ensures SeenOk(Put(w, id, r))
  {
    hide WasSeen;
    PutSeen(w, id, r);
  }

  lemma JobsSame(w: World, w': World)
    requires JobsOk(w) && w'.jobs == w.jobs
    requires forall id :: id in w.records && id in w.origin ==>
      && id in w'.records && w'.records[id].def == w.records[id].def && w'.records[id].nextAt == w.records[id].nextAt
      && id in w'.origin && w'.origin[id] == w.origin[id]
    ensures JobsOk(w')
  {
    hide Instant;
    forall i | 0 <= i < |w'.jobs|
      ensures JobOk(w', w'.jobs[i])
    {
      assert JobOk(w, w.jobs[i]);
    }
  }

  lemma ConfigureKeeps(w: World, id: string, def: Definition, first: int)
    requires Inv(w) && ValidDefinition(def) && Instant(def.timing, first, first) && id !in w.records
    ensures Inv(Do(w, Configure(id, def, first)))
  {
    hide WasSeen, Instant, JobsOk, SeenOk;
    var w' := Do(w, Configure(id, def, first));
    PutKeeps(w, id, Record(def, first, true, 1));
    PutSeen(w, id, Record(def, first, true, 1));
    SameSeen(Put(w, id, Record(def, first, true, 1)), w');
    JobsSame(w, w');
  }

  lemma SameSeen(w: World, w': World)
    requires w'.seen == w.seen && w'.records == w.records
    ensures forall id, r :: WasSeen(w', id, r) <==> WasSeen(w, id, r)
    ensures (SeenOk(w) && forall k :: k in w'.receipts ==>
               k in w.receipts || (k.schedule in w.records && k.version < w.records[k.schedule].version)) ==> SeenOk(w')
  {
  }

  lemma EnabledKeeps(w: World, id: string, enabled: bool)
    requires Inv(w) && id in w.records
    ensures Inv(Do(w, SetEnabled(id, enabled)))
  {
    hide WasSeen, Instant, JobsOk, SeenOk;
    var r := w.records[id].(enabled := enabled, version := w.records[id].version + 1);
    PutKeeps(w, id, r);
    PutSeen(w, id, r);
    JobsSame(w, Put(w, id, r));
  }

  /** An applied tick works from the schedule's present state, and enqueues only instants after all earlier ones. */
  lemma FireKeeps(w: World, id: string, was: Record, now: int, times: seq<int>, next: int)
    requires Inv(w) && Enabled(w, Fire(id, was, now, times, next)) && Applies(w, id, was)
    ensures was == w.records[id]
    ensures Inv(Do(w, Fire(id, was, now, times, next)))
  {
    hide WasSeen, Instant, Good, JobOk;
    assert was == w.records[id];
    var w' := Do(w, Fire(id, was, now, times, next));
    var r := was.(nextAt := next, version := was.version + 1);
    PutKeeps(w, id, r);
    PutSeen(w, id, r);
    SameSeen(Put(w, id, r), w');
    FireInstants(w, id, was, now, times, next);
    FireJobs(w, w', id, was, now, times, next);
  }

  lemma FireInstants(w: World, id: string, was: Record, now: int, times: seq<int>, next: int)
    requires RecordsOk(w) && id in w.records && was == w.records[id] && was.nextAt <= now && Good(was.def, was.nextAt, now, times, next)
    ensures id in w.origin && next > now && Instant(was.def.timing, w.origin[id], next)
    ensures forall t :: t > now && Instant(was.def.timing, w.origin[id], t) ==> next <= t
    ensures forall i :: 0 <= i < |times| ==> was.nextAt <= times[i] <= now && Instant(was.def.timing, w.origin[id], times[i])
    ensures (forall i, j :: 0 <= i < j < |times| ==> times[i] < times[j]) && |times| <= was.def.maxCatchUp
  {
    hide Instant, Enumerates;
    var timing, origin := was.def.timing, w.origin[id];
    GoodTimes(was.def, was.nextAt, now, times, next);
    forall t | t >= was.nextAt
      ensures Instant(timing, origin, t) <==> Instant(timing, was.nextAt, t)
    {
      InstantShift(timing, origin, was.nextAt, t);
    }
  }

  lemma FireJobs(w: World, w': World, id: string, was: Record, now: int, times: seq<int>, next: int)
    requires JobsOk(w) && RecordsOk(w) && id in w.records && was == w.records[id]
    requires w'.jobs == w.jobs + JobsFor(id, times) && w'.origin == w.origin
    requires w'.records == w.records[id := was.(nextAt := next, version := was.version + 1)] && next > now >= was.nextAt
    requires forall i :: 0 <= i < |times| ==> was.nextAt <= times[i] <= now && Instant(was.def.timing, w.origin[id], times[i])
    requires forall i, j :: 0 <= i < j < |times| ==> times[i] < times[j]
    ensures JobsOk(w')
  {
    hide Instant;
    assert forall i :: 0 <= i < |w.jobs| ==> JobOk(w, w.jobs[i]);
    forall i | 0 <= i < |w'.jobs|
      ensures JobOk(w', w'.jobs[i])
    {
      if i >= |w.jobs| { assert w'.jobs[i] == Job(id, times[i - |w.jobs|]); }
    }
  }

  lemma StepKeeps(w: World, s: Step)
    requires Inv(w) && Enabled(w, s)
    ensures Inv(Do(w, s))
  {
    hide Inv, Good;
    match s
    case Configure(id, def, first) => if id !in w.records { ConfigureKeeps(w, id, def, first); }
    case SetEnabled(id, enabled) => EnabledKeeps(w, id, enabled);
    case Fire(id, was, now, times, next) => if Applies(w, id, was) { FireKeeps(w, id, was, now, times, next); }
  }

  // ---- whole runs ----

  ghost predicate Run(ws: seq<World>, steps: seq<Step>) {
    && |ws| == |steps| + 1 && ws[0] == World(map[], map[], [], map[], map[])
    && forall i :: 0 <= i < |steps| ==> Enabled(ws[i], steps[i]) && ws[i + 1] == Do(ws[i], steps[i])
  }

  lemma {:induction false} RunKeeps(ws: seq<World>, steps: seq<Step>, i: nat)
    requires Run(ws, steps) && i < |ws|
    ensures Inv(ws[i])
  {
    hide Enabled, Do;
    if i > 0 {
      RunKeeps(ws, steps, i - 1);
      hide Inv;
      StepKeeps(ws[i - 1], steps[i - 1]);
    }
  }

  /** In every run, every enqueued job is for a true instant of its schedule, and no instant is enqueued twice. */
  lemma EnqueuedOnce(ws: seq<World>, steps: seq<Step>, i: nat, k: nat)
    requires Run(ws, steps) && i < |ws| && k < |ws[i].jobs|
    ensures var j := ws[i].jobs[k];
            && j.schedule in ws[i].records && j.schedule in ws[i].origin
            && Instant(ws[i].records[j.schedule].def.timing, ws[i].origin[j.schedule], j.at)
            && j.at < ws[i].records[j.schedule].nextAt
    ensures forall l :: 0 <= l < |ws[i].jobs| && l != k ==> ws[i].jobs[l] != ws[i].jobs[k]
  {
    hide Run, Instant;
    RunKeeps(ws, steps, i);
    assert JobOk(ws[i], ws[i].jobs[k]);
  }

  /** The step is a tick whose command takes effect on this schedule. */
  predicate Ticks(w: World, s: Step, id: string) {
    s.Fire? && s.id == id && Applies(w, id, s.was)
  }

  /** What such a tick does: it was due, and the schedule moves to its first instant after the tick's clock. */
  ghost predicate MovesOn(w: World, w': World, s: Step, id: string) {
    && s.Fire? && id in w.records && id in w'.records && id in w.origin
    && w.records[id].nextAt <= s.now < w'.records[id].nextAt
    && w'.jobs == w.jobs + JobsFor(id, s.times) && |s.times| <= w.records[id].def.maxCatchUp
    && (forall k :: 0 <= k < |s.times| ==> w.records[id].nextAt <= s.times[k] <= s.now)
    && Instant(w.records[id].def.timing, w.origin[id], w'.records[id].nextAt)
    && (forall t :: t > s.now && Instant(w.records[id].def.timing, w.origin[id], t) ==> w'.records[id].nextAt <= t)
    && Good(w.records[id].def, w.records[id].nextAt, s.now, s.times, w'.records[id].nextAt)
  }

  /**
   Any step of a run leaves a schedule's next instant, and the jobs, alone unless it is a tick that takes effect: at most
   `maxCatchUp` instants are enqueued, all of them due and not in the future, and the schedule moves on to its first
   instant after the tick's clock.
   */
  lemma TickMovesOn(ws: seq<World>, steps: seq<Step>, i: nat, id: string)
    requires Run(ws, steps) && i < |steps| && id in ws[i].records
    ensures id in ws[i + 1].records && ws[i + 1].records[id].def == ws[i].records[id].def
    ensures id in ws[i].origin && id in ws[i + 1].origin && ws[i + 1].origin[id] == ws[i].origin[id]
    ensures if Ticks(ws[i], steps[i], id) then MovesOn(ws[i], ws[i + 1], steps[i], id)
            else ws[i + 1].records[id].nextAt == ws[i].records[id].nextAt
    ensures ws[i + 1].jobs != ws[i].jobs ==>
              && steps[i].Fire? && steps[i].id in ws[i].records && Ticks(ws[i], steps[i], steps[i].id)
              && steps[i].id in ws[i + 1].records
              && ws[i].records[steps[i].id].nextAt <= steps[i].now < ws[i + 1].records[steps[i].id].nextAt
    ensures ws[i].jobs <= ws[i + 1].jobs
  {
    hide Instant, Good, WasSeen, JobsOk, SeenOk;
    RunKeeps(ws, steps, i);
    var w, s := ws[i], steps[i];
    if s.Fire? && Applies(w, s.id, s.was) {
      FireKeeps(w, s.id, s.was, s.now, s.times, s.next);
      FireInstants(w, s.id, s.was, s.now, s.times, s.next);
    }
  }

  /**
   No instant is passed over unseen: every instant of a schedule before its next one fell to a tick that was due for it, and
   it was enqueued if and only if that tick chose it.
   */
  lemma {:induction false} EveryInstantTicked(ws: seq<World>, steps: seq<Step>, i: nat, id: string, t: int) returns (k: nat)
    requires Run(ws, steps) && i < |ws| && id in ws[i].records && id in ws[i].origin
    requires t < ws[i].records[id].nextAt && Instant(ws[i].records[id].def.timing, ws[i].origin[id], t)
    requires t >= ws[i].origin[id]
    ensures k < i && id in ws[k].records && Ticks(ws[k], steps[k], id) && ws[k].records[id].def == ws[i].records[id].def
    ensures ws[k].records[id].nextAt <= t <= steps[k].now < ws[k + 1].records[id].nextAt <= ws[i].records[id].nextAt
    ensures Job(id, t) in ws[i].jobs <==> t in steps[k].times
  {
    hide Instant, Do, Enabled, Inv, Ticks, JobsFor;
    if id in ws[i - 1].records {
      TickMovesOn(ws, steps, i - 1, id);
      JobsAhead(ws, steps, i - 1, id, t);
      if t < ws[i - 1].records[id].nextAt {
        k := EveryInstantTicked(ws, steps, i - 1, id, t);
      } else {
        k := i - 1;
        JobIn(id, steps[k].times, t);
      }
    } else {
      StartsAtOrigin(ws[i - 1], steps[i - 1], id);
    }
  }

  /** A tick that takes effect enqueues nothing before the schedule's next instant. */
  lemma JobsAhead(ws: seq<World>, steps: seq<Step>, i: nat, id: string, t: int)
    requires Run(ws, steps) && i < |steps| && id in ws[i].records
    ensures t < ws[i].records[id].nextAt ==> (Job(id, t) in ws[i + 1].jobs <==> Job(id, t) in ws[i].jobs)
    ensures t >= ws[i].records[id].nextAt ==> Job(id, t) !in ws[i].jobs
  {
    hide Instant, Good, WasSeen, SeenOk, Do, Enabled, RecordsOk;
    RunKeeps(ws, steps, i);
    assert forall j :: 0 <= j < |ws[i].jobs| ==> JobOk(ws[i], ws[i].jobs[j]);
    if ws[i + 1].jobs != ws[i].jobs {
      TickMovesOn(ws, steps, i, id);
      var other := steps[i].id;
      TickMovesOn(ws, steps, i, other);
      JobIn(other, steps[i].times, t);
    }
  }

  lemma JobIn(id: string, times: seq<int>, t: int)
    ensures Job(id, t) in JobsFor(id, times) <==> t in times
    ensures forall j :: j in JobsFor(id, times) ==> j.schedule == id && j.at in times
  {
    var jobs := JobsFor(id, times);
    assert forall i :: 0 <= i < |jobs| ==> jobs[i] == Job(id, times[i]);
    if t in times {
      var i :| 0 <= i < |times| && times[i] == t;
      assert jobs[i] == Job(id, t);
    }
  }

  lemma StartsAtOrigin(w: World, s: Step, id: string)
    requires id !in w.records && id in Do(w, s).records && id in Do(w, s).origin
    ensures Do(w, s).records[id].nextAt == Do(w, s).origin[id]
  {
  }

  /** The tick has missed no more instants than it may catch up on. */
  ghost predicate Untrimmed(w: World, s: Step, id: string)
    requires id in w.records && s.Fire?
  {
    var r := w.records[id];
    forall some :: PassedInOrder(r.def.timing, r.nextAt, s.now, some) ==> |some| <= r.def.maxCatchUp
  }

  ghost predicate PassedInOrder(timing: Timing, due: int, current: int, some: seq<int>) {
    && (forall i, j :: 0 <= i < j < |some| ==> some[i] < some[j])
    && forall i :: 0 <= i < |some| ==> Passed(timing, due, current, some[i])
  }

  /**
   With the catch-up policy, and as long as no tick has missed more instants than it may catch up on, every instant of the
   schedule before its next one has been enqueued, exactly once.
   */
  lemma CatchUpComplete(ws: seq<World>, steps: seq<Step>, i: nat, id: string, t: int) returns (at: nat)
    requires Run(ws, steps) && i < |ws| && id in ws[i].records && id in ws[i].origin && ws[i].records[id].def.policy == All
    requires forall k :: 0 <= k < i && id in ws[k].records && Ticks(ws[k], steps[k], id) ==> Untrimmed(ws[k], steps[k], id)
    requires ws[i].origin[id] <= t < ws[i].records[id].nextAt && Instant(ws[i].records[id].def.timing, ws[i].origin[id], t)
    ensures at < |ws[i].jobs| && ws[i].jobs[at] == Job(id, t)
    ensures forall l :: 0 <= l < |ws[i].jobs| && l != at ==> ws[i].jobs[l] != Job(id, t)
  {
    hide Instant, Do, Enabled, Inv, Ticks, Untrimmed;
    var k := EveryInstantTicked(ws, steps, i, id, t);
    TickMovesOn(ws, steps, k, id);
    OriginKept(ws, steps, k, i, id);
    OriginSet(ws, steps, k, id);
    ChoosesAll(ws[k], steps[k], id, t, ws[k + 1].records[id].nextAt);
    at :| 0 <= at < |ws[i].jobs| && ws[i].jobs[at] == Job(id, t);
    EnqueuedOnce(ws, steps, i, at);
  }

  /** What configuring and switching do to a schedule: it starts enabled at its first instant, and only the switch changes. */
  lemma SwitchSteps(w: World, s: Step, id: string)
    ensures s.Configure? && s.id == id && id !in w.records ==>
              id in Do(w, s).records && Do(w, s).records[id] == Record(s.def, s.first, true, 1)
    ensures id in w.records ==> id in Do(w, s).records
    ensures s.Configure? && id in w.records ==> Do(w, s).records[id] == w.records[id]
    ensures s.SetEnabled? && s.id == id && id in w.records ==>
              Do(w, s).records[id] == w.records[id].(enabled := s.enabled, version := w.records[id].version + 1)
    ensures s.SetEnabled? && s.id != id && id in w.records ==> Do(w, s).records[id] == w.records[id]
    ensures s.Fire? && id in w.records && !Ticks(w, s, id) ==> Do(w, s).records[id] == w.records[id]
  {
  }

  lemma TickedWhenEnabled(ws: seq<World>, steps: seq<Step>, i: nat, id: string)
    requires Run(ws, steps) && i < |steps| && id in ws[i].records && Ticks(ws[i], steps[i], id)
    ensures ws[i].records[id].enabled
  {
    hide Good, Instant, JobsOk;
    RunKeeps(ws, steps, i);
    FireKeeps(ws[i], id, steps[i].was, steps[i].now, steps[i].times, steps[i].next);
  }

  /**
   Once a schedule has been switched off nothing ticks it until it is switched on again, not even a process that had read it
   before.
   */
  lemma {:induction false} OffStaysQuiet(ws: seq<World>, steps: seq<Step>, i: nat, j: nat, id: string)
    requires Run(ws, steps) && i < j < |ws| && steps[i] == SetEnabled(id, false)
    requires forall k :: i < k < j ==> steps[k] != SetEnabled(id, true)
    ensures id in ws[i].records && id in ws[j].records && !ws[j].records[id].enabled
    ensures ws[j].records[id].nextAt == ws[i].records[id].nextAt
    ensures j < |steps| ==> !Ticks(ws[j], steps[j], id)
  {
    hide Good, Instant, Inv, Ticks, Put;
    if j == i + 1 {
      SwitchSteps(ws[i], steps[i], id);
    } else {
      OffStaysQuiet(ws, steps, i, j - 1, id);
      SwitchSteps(ws[j - 1], steps[j - 1], id);
    }
    if j < |steps| && Ticks(ws[j], steps[j], id) { TickedWhenEnabled(ws, steps, j, id); }
  }

  /** The greatest instant of the schedule that is not after the clock. */
  ghost predicate LatestInstant(timing: Timing, origin: int, now: int, t: int) {
    Instant(timing, origin, t) && t <= now && forall x :: Instant(timing, origin, x) && x <= now ==> x <= t
  }

  /**
   What every tick that takes effect enqueues: to coalesce, one job for the greatest instant not after the clock; to skip,
   the same unless the schedule is more than a minute late, and then none; to catch up, the last instants from the due one
   on, all of them or as many as allowed.
   */
  lemma TickEnqueues(ws: seq<World>, steps: seq<Step>, i: nat, id: string)
    requires Run(ws, steps) && i < |steps| && id in ws[i].records && Ticks(ws[i], steps[i], id)
    ensures var jobs, jobs', times := ws[i].jobs, ws[i + 1].jobs, steps[i].times;
            |jobs'| == |jobs| + |times| && jobs <= jobs' && forall k :: 0 <= k < |times| ==> jobs'[|jobs| + k] == Job(id, times[k])
    ensures id in ws[i].origin
    ensures var r, origin, now, times := ws[i].records[id], ws[i].origin[id], steps[i].now, steps[i].times;
            match r.def.policy
            case Coalesce => |times| == 1 && LatestInstant(r.def.timing, origin, now, times[0])
            case Skip => if now - r.nextAt > 60_000_000 then times == []
                         else |times| == 1 && LatestInstant(r.def.timing, origin, now, times[0])
            case All =>
              && times != [] && LatestInstant(r.def.timing, origin, now, times[|times| - 1])
              && (forall k, l :: 0 <= k < l < |times| ==> times[k] < times[l])
              && (forall k :: 0 <= k < |times| ==> Instant(r.def.timing, origin, times[k]))
              && forall x :: r.nextAt <= x <= now && Instant(r.def.timing, origin, x) && x !in times ==>
                   |times| == r.def.maxCatchUp && x < times[0]
  {
    hide Instant, Do, Enabled, Inv, Ticks, Good, LatestInstant, MovesOn;
    TickMovesOn(ws, steps, i, id);
    OriginSet(ws, steps, i, id);
    TickAdds(ws[i], ws[i + 1], steps[i], id);
    ChoiceFromOrigin(ws[i].records[id], ws[i].origin[id], steps[i].now, steps[i].times, ws[i + 1].records[id].nextAt);
  }

  lemma TickAdds(w: World, w': World, s: Step, id: string)
    requires MovesOn(w, w', s, id)
    ensures s.Fire? && id in w.records && id in w'.records && w.records[id].nextAt <= s.now
    ensures Good(w.records[id].def, w.records[id].nextAt, s.now, s.times, w'.records[id].nextAt)
    ensures |w'.jobs| == |w.jobs| + |s.times| && w.jobs <= w'.jobs
    ensures forall k :: 0 <= k < |s.times| ==> w'.jobs[|w.jobs| + k] == Job(id, s.times[k])
  {
    hide Instant, Good;
  }

  lemma PassedFromOrigin(timing: Timing, origin: int, due: int, now: int, x: int)
    requires Instant(timing, origin, due)
    ensures Passed(timing, due, now, x) <==> due <= x <= now && Instant(timing, origin, x)
  {
    hide Instant;
    if x >= due { InstantShift(timing, origin, due, x); }
  }

  lemma LatestFromOrigin(timing: Timing, origin: int, due: int, now: int, t: int)
    requires Instant(timing, origin, due) && due <= now && Latest(timing, due, now, t)
    ensures LatestInstant(timing, origin, now, t)
  {
    hide Instant, Passed;
    PassedFromOrigin(timing, origin, due, now, t);
    forall x | Instant(timing, origin, x) && x <= now
      ensures x <= t
    {
      PassedFromOrigin(timing, origin, due, now, x);
    }
  }

  lemma ChoiceFromOrigin(r: Record, origin: int, now: int, times: seq<int>, next: int)
    requires Instant(r.def.timing, origin, r.nextAt) && r.nextAt <= now && Good(r.def, r.nextAt, now, times, next)
    ensures !r.def.policy.All? && times != [] ==> |times| == 1 && LatestInstant(r.def.timing, origin, now, times[0])
    ensures !r.def.policy.All? ==> (times == [] <==> r.def.policy.Skip? && now - r.nextAt > 60_000_000)
    ensures r.def.policy.All? ==>
              && times != [] && LatestInstant(r.def.timing, origin, now, times[|times| - 1])
              && (forall k, l :: 0 <= k < l < |times| ==> times[k] < times[l])
              && (forall k :: 0 <= k < |times| ==> Instant(r.def.timing, origin, times[k]))
              && forall x :: r.nextAt <= x <= now && Instant(r.def.timing, origin, x) && x !in times ==>
                   |times| == r.def.maxCatchUp && x < times[0]
  {
    hide Instant, IsNext, LatestInstant, Passed;
    var timing := r.def.timing;
    forall x
      ensures Passed(timing, r.nextAt, now, x) <==> r.nextAt <= x <= now && Instant(timing, origin, x)
    {
      PassedFromOrigin(timing, origin, r.nextAt, now, x);
    }
    if r.def.policy.All? {
      LatestOfLast(timing, r.nextAt, now, r.def.maxCatchUp, times);
      LatestFromOrigin(timing, origin, r.nextAt, now, times[|times| - 1]);
    } else if times != [] {
      LatestFromOrigin(timing, origin, r.nextAt, now, times[0]);
    }
  }

  lemma LatestOfLast(timing: Timing, due: int, now: int, max: nat, times: seq<int>)
    requires LastPassed(timing, due, now, max, times)
    ensures Latest(timing, due, now, times[|times| - 1])
  {
    hide Passed;
    forall x | Passed(timing, due, now, x)
      ensures x <= times[|times| - 1]
    {
      if x in times { var k :| 0 <= k < |times| && times[k] == x; }
    }
  }

  lemma {:induction false} OriginKept(ws: seq<World>, steps: seq<Step>, k: nat, i: nat, id: string)
    requires Run(ws, steps) && k <= i < |ws| && id in ws[k].records
    ensures id in ws[i].records && id in ws[k].origin && id in ws[i].origin && ws[i].origin[id] == ws[k].origin[id]
  {
    hide Do, Enabled, Inv, Ticks, MovesOn;
    if k < i {
      OriginKept(ws, steps, k, i - 1, id);
      TickMovesOn(ws, steps, i - 1, id);
    } else {
      OriginSet(ws, steps, i, id);
    }
  }

  lemma OriginSet(ws: seq<World>, steps: seq<Step>, i: nat, id: string)
    requires Run(ws, steps) && i < |ws| && id in ws[i].records
    ensures id in ws[i].origin && Instant(ws[i].records[id].def.timing, ws[i].origin[id], ws[i].records[id].nextAt)
  {
    hide Do, Enabled, Run, Instant, WasSeen;
    RunKeeps(ws, steps, i);
  }

  lemma ChoosesAll(w: World, s: Step, id: string, t: int, next: int)
    requires id in w.records && id in w.origin && s.Fire? && w.records[id].def.policy == All && Untrimmed(w, s, id)
    requires Good(w.records[id].def, w.records[id].nextAt, s.now, s.times, next)
    requires w.records[id].nextAt <= t <= s.now
    requires Instant(w.records[id].def.timing, w.origin[id], w.records[id].nextAt)
    requires Instant(w.records[id].def.timing, w.origin[id], t)
    ensures t in s.times
  {
    hide Instant, IsNext, Passed;
    var r := w.records[id];
    InstantShift(r.def.timing, w.origin[id], r.nextAt, t);
    assert Passed(r.def.timing, r.nextAt, s.now, t) by { PassedAt(r.def.timing, r.nextAt, s.now, t); }
    if t !in s.times { TooMany(w, s, id, t); }
  }

  lemma PassedAt(timing: Timing, due: int, current: int, t: int)
    requires due <= t <= current && Instant(timing, due, t)
    ensures Passed(timing, due, current, t)
  {
  }

  lemma TooMany(w: World, s: Step, id: string, t: int)
    requires id in w.records && s.Fire? && Untrimmed(w, s, id)
    requires var r := w.records[id];
             LastPassed(r.def.timing, r.nextAt, s.now, r.def.maxCatchUp, s.times) && Passed(r.def.timing, r.nextAt, s.now, t)
    ensures t in s.times
  {
    hide Passed, PassedInOrder, LastPassed;
    var r := w.records[id];
    Prepended(r.def.timing, r.nextAt, s.now, r.def.maxCatchUp, s.times, t);
  }

  lemma Prepended(timing: Timing, due: int, now: int, max: nat, times: seq<int>, t: int)
    requires LastPassed(timing, due, now, max, times) && Passed(timing, due, now, t)
    ensures t in times || (|[t] + times| > max && PassedInOrder(timing, due, now, [t] + times))
  {
    hide Passed;
    var some := [t] + times;
    assert forall i :: 1 <= i < |some| ==> some[i] == times[i - 1];
  }

  // ---- a tick ----

  /** A due schedule that ends the tick with an error. */
  ghost predicate NeedsReview(r: Record, now: int) {
    r.enabled && r.nextAt <= now && Rejects(r.def, r.nextAt, now)
  }

  /** What a tick does to one schedule: nothing unless it is due; then it moves on and `times` are enqueued. */
  ghost predicate Treated(before: Record, after: Record, now: int, times: seq<int>) {
    if before.enabled && before.nextAt <= now then
      && !Rejects(before.def, before.nextAt, now) && Good(before.def, before.nextAt, now, times, after.nextAt)
      && after == before.(nextAt := after.nextAt, version := before.version + 1)
    else after == before && times == []
  }

  /** The jobs of the first schedules of a tick, in order. */
  ghost function JobsOf(order: seq<string>, times: seq<seq<int>>): seq<Job>
    requires |times| <= |order|
  {
    if times == [] then []
    else
      var n := |times| - 1;
      JobsOf(order, times[..n]) + JobsFor(order[n], times[n])
  }

  /** The receipt of a schedule that was due. */
  ghost function WithReceipt(receipts: map<TickKey, Receipt>, id: string, before: Record, after: Record, times: seq<int>, now: int)
    : map<TickKey, Receipt>
  {
    if before.enabled && before.nextAt <= now then receipts[TickKey(id, before.version) := Receipt(after.nextAt, times)] else receipts
  }

  ghost function WithReceipts(receipts: map<TickKey, Receipt>, before: map<string, Record>, after: map<string, Record>,
                              order: seq<string>, times: seq<seq<int>>, now: int): map<TickKey, Receipt>
    requires |times| <= |order| && before.Keys == after.Keys && forall k :: 0 <= k < |order| ==> order[k] in before
  {
    if times == [] then receipts
    else
      var n := |times| - 1;
      WithReceipt(WithReceipts(receipts, before, after, order, times[..n], now), order[n], before[order[n]], after[order[n]], times[n], now)
  }

  /** The first `k` of the listed schedules can be treated. */
  ghost predicate ClearUpTo(records: map<string, Record>, order: seq<string>, k: nat, now: int)
    requires k <= |order| && forall j :: 0 <= j < |order| ==> order[j] in records
  {
    forall j :: 0 <= j < k ==> !NeedsReview(records[order[j]], now)
  }

  /** The first listed schedules have been treated, and all others are as they were. */
  ghost predicate TreatedUpTo(was: map<string, Record>, records: map<string, Record>, order: seq<string>, times: seq<seq<int>>, now: int)
    requires forall j :: 0 <= j < |order| ==> order[j] in was
  {
    && |times| <= |order| && records.Keys == was.Keys
    && (forall k :: 0 <= k < |times| ==> Treated(was[order[k]], records[order[k]], now, times[k]))
    && forall id :: id in records && id !in order[..|times|] ==> records[id] == was[id]
  }

  class Schedules {
    var records: map<string, Record>
    var jobs: seq<Job>
    var receipts: map<TickKey, Receipt>

    ghost predicate Valid()
      reads this
    {
      && (forall id :: id in records ==> ValidDefinition(records[id].def))
      && (forall k :: k in receipts ==> k.schedule in records && k.version < records[k.schedule].version)
    }

    constructor ()
      ensures Valid() && records == map[] && jobs == []
    {
      records, jobs, receipts := map[], [], map[];
    }

    /** The body of the loop over the schedules; `None` when the schedule needs review. */
    method FireOne(id: string, now: int) returns (fired: Option<nat>, ghost times: seq<int>)
      requires Valid() && id in records
      modifies this
      ensures Valid()
      ensures fired.None? <==> NeedsReview(old(records[id]), now)
      ensures fired.None? ==> records == old(records) && jobs == old(jobs) && receipts == old(receipts)
      ensures fired.Some? ==>
                && id in records && records == old(records)[id := records[id]] && fired.value == |times|
                && Treated(old(records[id]), records[id], now, times) && jobs == old(jobs) + JobsFor(id, times)
                && receipts == WithReceipt(old(receipts), id, old(records[id]), records[id], times, now)
    {
      hide Good, Rejects;
      var r := records[id];
      times := [];
      if !r.enabled || r.nextAt > now { return Some(0), []; }
      var plan := Missed(r.def, r.nextAt, now);
      if plan.None? { return None, []; }
      times := plan.value.0;
      for k := 0 to |plan.value.0|
        invariant jobs == old(jobs) + JobsFor(id, plan.value.0[..k]) && records == old(records) && receipts == old(receipts)
      {
        jobs := jobs + [Job(id, plan.value.0[k])];
        assert plan.value.0[..k + 1] == plan.value.0[..k] + [plan.value.0[k]];
      }
      assert plan.value.0[..|plan.value.0|] == plan.value.0;
      records := records[id := r.(nextAt := plan.value.1, version := r.version + 1)];
      receipts := receipts[TickKey(id, r.version) := Receipt(plan.value.1, plan.value.0)];
      fired := Some(|plan.value.0|);
    }

    /**
     `tick` over the listed schedules: exactly those before the first one that needs review are treated, each of them moves on
     if it was due and enqueues what its policy chose, and everything else, later schedules included, stays as it was.
     */
    method Tick(order: seq<string>, now: int) returns (fired: Option<nat>, ghost done: nat, ghost times: seq<seq<int>>)
      requires Valid() && (forall k :: 0 <= k < |order| ==> order[k] in records)
      requires forall k, l :: 0 <= k < l < |order| ==> order[k] != order[l]
      modifies this
      ensures Valid() && done == |times| && TreatedUpTo(old(records), records, order, times, now)
      ensures ClearUpTo(old(records), order, done, now)
      ensures if fired.Some? then done == |order| else done < |order| && NeedsReview(old(records)[order[done]], now)
      ensures fired.None? <==> exists k :: 0 <= k < |order| && NeedsReview(old(records)[order[k]], now)
      ensures jobs == old(jobs) + JobsOf(order, times) && (fired.Some? ==> fired.value == |JobsOf(order, times)|)
      ensures receipts == WithReceipts(old(receipts), old(records), records, order, times, now)
    {
      hide Treated, TreatedUpTo, ClearUpTo, NeedsReview, JobsFor, JobsOf, WithReceipt, WithReceipts;
      var count := 0;
      done, times := 0, [];
      NoneTreated(receipts, records, order, now);
      for k := 0 to |order|
        invariant Valid() && done == k == |times| && TreatedUpTo(old(records), records, order, times, now)
        invariant records.Keys == old(records).Keys && ClearUpTo(old(records), order, k, now)
        invariant jobs == old(jobs) + JobsOf(order, times) && count == |JobsOf(order, times)|
        invariant receipts == WithReceipts(old(receipts), old(records), records, order, times, now)
      {
        ghost var before := records;
        NextUntouched(old(records), records, order, times, now);
        var one, chosen := FireOne(order[k], now);
        if one.None? { return None, k, times; }
        ClearStep(old(records), order, k, now);
        JobsStep(order, times, chosen);
        TreatedStep(old(records), before, records, order, times, now, chosen);
        ReceiptsStep(old(receipts), old(records), before, records, order, times, now, chosen);
        times := times + [chosen];
        count := count + one.value;
        done := k + 1;
      }
      AllClear(old(records), order, now);
      fired := Some(count);
    }
  }

  lemma ClearStep(records: map<string, Record>, order: seq<string>, k: nat, now: int)
    requires k < |order| && forall j :: 0 <= j < |order| ==> order[j] in records
    requires ClearUpTo(records, order, k, now) && !NeedsReview(records[order[k]], now)
    ensures ClearUpTo(records, order, k + 1, now)
  {
  }

  lemma AllClear(records: map<string, Record>, order: seq<string>, now: int)
    requires (forall j :: 0 <= j < |order| ==> order[j] in records) && ClearUpTo(records, order, |order|, now)
    ensures !exists k :: 0 <= k < |order| && NeedsReview(records[order[k]], now)
  {
    hide NeedsReview;
  }

  lemma NextUntouched(was: map<string, Record>, records: map<string, Record>, order: seq<string>, times: seq<seq<int>>, now: int)
    requires (forall j :: 0 <= j < |order| ==> order[j] in was) && forall k, l :: 0 <= k < l < |order| ==> order[k] != order[l]
    requires TreatedUpTo(was, records, order, times, now) && |times| < |order|
    ensures order[|times|] in records && records[order[|times|]] == was[order[|times|]]
  {
    hide Treated;
    assert order[|times|] !in order[..|times|];
  }

  lemma TreatedStep(was: map<string, Record>, before: map<string, Record>, after: map<string, Record>, order: seq<string>,
                    times: seq<seq<int>>, now: int, chosen: seq<int>)
    requires (forall j :: 0 <= j < |order| ==> order[j] in was) && forall k, l :: 0 <= k < l < |order| ==> order[k] != order[l]
    requires TreatedUpTo(was, before, order, times, now) && |times| < |order| && order[|times|] in after
    requires after == before[order[|times|] := after[order[|times|]]]
    requires Treated(was[order[|times|]], after[order[|times|]], now, chosen)
    ensures TreatedUpTo(was, after, order, times + [chosen], now)
  {
    hide Treated;
    var n := |times|;
    assert order[..n + 1] == order[..n] + [order[n]];
  }

  lemma NoneTreated(receipts: map<TickKey, Receipt>, records: map<string, Record>, order: seq<string>, now: int)
    requires forall k :: 0 <= k < |order| ==> order[k] in records
    ensures JobsOf(order, []) == [] && WithReceipts(receipts, records, records, order, [], now) == receipts
    ensures TreatedUpTo(records, records, order, [], now) && ClearUpTo(records, order, 0, now)
  {
  }

  lemma JobsStep(order: seq<string>, times: seq<seq<int>>, chosen: seq<int>)
    requires |times| < |order|
    ensures JobsOf(order, times + [chosen]) == JobsOf(order, times) + JobsFor(order[|times|], chosen)
    ensures |JobsFor(order[|times|], chosen)| == |chosen|
  {
    assert (times + [chosen])[..|times|] == times;
  }

  lemma ReceiptsStep(receipts: map<TickKey, Receipt>, was: map<string, Record>, before: map<string, Record>, after: map<string, Record>,
                     order: seq<string>, times: seq<seq<int>>, now: int, chosen: seq<int>)
    requires |times| < |order| && before.Keys == was.Keys == after.Keys
    requires (forall k :: 0 <= k < |order| ==> order[k] in was) && forall k, l :: 0 <= k < l < |order| ==> order[k] != order[l]
    requires forall id :: id in before && id != order[|times|] ==> after[id] == before[id]
    ensures var id := order[|times|];
            WithReceipts(receipts, was, after, order, times + [chosen], now) ==
              WithReceipt(WithReceipts(receipts, was, before, order, times, now), id, was[id], after[id], chosen, now)
  {
    hide WithReceipt;
    assert (times + [chosen])[..|times|] == times;
    SameReceipts(receipts, was, before, after, order, times, now);
  }

  lemma {:induction false} SameReceipts(receipts: map<TickKey, Receipt>, was: map<string, Record>, before: map<string, Record>,
                                        after: map<string, Record>, order: seq<string>, times: seq<seq<int>>, now: int)
    requires |times| <= |order| && before.Keys == was.Keys == after.Keys && forall k :: 0 <= k < |order| ==> order[k] in was
    requires forall k :: 0 <= k < |times| ==> after[order[k]] == before[order[k]]
    ensures WithReceipts(receipts, was, after, order, times, now) == WithReceipts(receipts, was, before, order, times, now)
  {
    hide WithReceipt;
    if times != [] { SameReceipts(receipts, was, before, after, order, times[..|times| - 1], now); }
  }

  /**
   Two due schedules, one of them for 29 February at the midnight it fires: whether the other one is treated depends on which
   of them is listed first, and the tick fails in both cases.
   */
  method LeapDayHoldsUpOthers(d: Definition, since: int, otherFirst: bool) returns (s: Schedules, fired: Option<nat>)
    requires ValidDefinition(d) && since <= LEAP_MIDNIGHT && !Rejects(d, since, LEAP_MIDNIGHT)
    ensures fired.None? && fresh(s) && "other" in s.records
    ensures !otherFirst ==> s.records["other"] == Record(d, since, true, 1) && s.jobs == []
    ensures otherFirst ==> s.records["other"].nextAt > LEAP_MIDNIGHT && s.records["other"].version == 2
  {
    hide Rejects, Good, LeapDayFields, ClearUpTo, TreatedUpTo, WithReceipts, WithReceipt;
    LeapDayStuck();
    s := new Schedules();
    var leap := Record(Definition(Cron(LeapDayFields(), Utc), All, 1), LEAP_MIDNIGHT, true, 1);
    var other := Record(d, since, true, 1);
    s.records := map["leap" := leap, "other" := other];
    ghost var was := s.records;
    var order := if otherFirst then ["other", "leap"] else ["leap", "other"];
    ghost var done, times;
    fired, done, times := s.Tick(order, LEAP_MIDNIGHT);
    FirstOfTwo(was, s.records, order, done, times, LEAP_MIDNIGHT);
    if otherFirst { GoodNext(d, since, LEAP_MIDNIGHT, times[0], s.records["other"].nextAt); }
  }

  lemma FirstOfTwo(was: map<string, Record>, records: map<string, Record>, order: seq<string>, done: nat, times: seq<seq<int>>, now: int)
    requires |order| == 2 && order[0] != order[1] && order[0] in was && order[1] in was
    requires done == |times| <= 2 && TreatedUpTo(was, records, order, times, now) && ClearUpTo(was, order, done, now)
    requires done < 2 ==> NeedsReview(was[order[done]], now)
    ensures records.Keys == was.Keys
    ensures NeedsReview(was[order[0]], now) ==> times == [] && records[order[1]] == was[order[1]]
    ensures !NeedsReview(was[order[0]], now) && NeedsReview(was[order[1]], now) ==>
              |times| == 1 && Treated(was[order[0]], records[order[0]], now, times[0])
  {
    hide NeedsReview, Treated;
    if done > 0 { assert !NeedsReview(was[order[0]], now); }
    if done > 1 { assert !NeedsReview(was[order[1]], now); }
  }

  lemma LeapDayStuck()
    ensures Rejects(Definition(Cron(LeapDayFields(), Utc), All, 1), LEAP_MIDNIGHT, LEAP_MIDNIGHT)
  {
    hide Stuck, Matches, CronAll;
    LeapDayRejected();
  }

  lemma GoodNext(d: Definition, due: int, now: int, times: seq<int>, next: int)
    requires Good(d, due, now, times, next)
    ensures next > now
  {
  }
}
