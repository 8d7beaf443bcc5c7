/**
 The mail extension as an event source, and what any run of collections delivers from it: every event up to the stored
 cursor exactly once.
 */
module EventRun {
  import opened Wrappers
  import opened Decimal
  import M = MailMachine
  import opened MailTables
  import opened MailSync
  import opened EventDelivery

  // ---- cursors as text ----

  /** `_parse_cursor`, for the texts that the source itself produces. */
  function ParseCursor(cursor: Option<string>): Option<nat> {
    if cursor.None? then Some(0) else if AllDigits(cursor.value) then Some(Value(cursor.value)) else None
  }

  // ---- polling ----

  const EVENT_TYPE := "mail.received"

  /** The columns of an event row that are shown but not interpreted. */
  type Columns = MailEvent -> (Time, string)

  function Show(row: MailEvent, columns: Columns): DomainEvent {
    DomainEvent(EVENT_TYPE, row.key, columns(row).0, columns(row).1)
  }

  function ShowAll(rows: seq<MailEvent>, columns: Columns): seq<DomainEvent> {
    seq(|rows|, i requires 0 <= i < |rows| => Show(rows[i], columns))
  }

  function Keys(rows: seq<MailEvent>): seq<string> {
    seq(|rows|, i requires 0 <= i < |rows| => rows[i].key)
  }

  /** Where the cursor stands after these rows. */
  function Beyond(cursor: nat, rows: seq<MailEvent>): nat {
    if rows == [] then cursor else rows[|rows| - 1].sequence
  }

  /** What the source may answer: the next page, or nothing new when it is not configured or cannot synchronise. */
  ghost predicate Answers(log: seq<MailEvent>, cursor: Option<string>, limit: nat, columns: Columns, r: Option<PollBatch>) {
    match ParseCursor(cursor)
    case None => r == None
    case Some(c) => exists rows :: (rows == [] || IsPage(log, c, limit, rows)) &&
                      r == Some(PollBatch(ShowAll(rows, columns), Keys(rows), Some(Digits(Beyond(c, rows)))))
  }

  /** `poll`; whether synchronising worked is given. */
  method Poll(store: MailStore, cursor: Option<string>, requested: int, configured: bool, synchronised: bool, columns: Columns)
    returns (r: Option<PollBatch>)
    requires Consistent(store.View())
    ensures Answers(store.events, cursor, if 1 <= requested <= 500 then requested else 100, columns, r)
    ensures ParseCursor(cursor).Some? && configured && synchronised ==>
              exists rows :: IsPage(store.events, ParseCursor(cursor).value, if 1 <= requested <= 500 then requested else 100, rows) &&
                r == Some(PollBatch(ShowAll(rows, columns), Keys(rows), Some(Digits(Beyond(ParseCursor(cursor).value, rows)))))
  {
    hide Digits, Value, AllDigits, IsPage, Consistent, ShowAll, Keys, ParseCursor;
    var parsed := ParseCursor(cursor);
    if parsed.None? { return None; }
    var after := parsed.value;
    if !configured || !synchronised {
      NoRows(columns);
      return Some(PollBatch([], [], Some(Digits(after))));
    }
    var limit := if 1 <= requested <= 500 then requested else 100;
    var rows := store.EventsAfter(after, limit);
    PageOfStore(store.View(), after, limit, rows);
    var batch := Render(rows, after, columns);
    r := Some(batch);
  }

  lemma NoRows(columns: Columns)
    ensures ShowAll([], columns) == [] && Keys([]) == []
  {
  }

  lemma PageOfStore(t: Tables, after: nat, limit: nat, rows: seq<MailEvent>)
    requires Consistent(t) && IsPage(t.events, after, limit, rows)
    ensures InOrder(after, rows)
  {
    PageRows(t.events, after, limit, rows, t.messages);
  }

  ghost predicate InOrder(after: nat, rows: seq<MailEvent>) {
    && (forall i :: 0 <= i < |rows| ==> rows[i].sequence > after)
    && (forall i, j :: 0 <= i < j < |rows| ==> rows[i].sequence < rows[j].sequence)
  }

  /** The loop of `poll` over the rows of a page. */
  method Render(rows: seq<MailEvent>, after: nat, columns: Columns) returns (batch: PollBatch)
    requires InOrder(after, rows)
    ensures batch == PollBatch(ShowAll(rows, columns), Keys(rows), Some(Digits(Beyond(after, rows))))
  {
    hide Digits;
    var events: seq<DomainEvent>, keys: seq<string>, next := [], [], after;
    for i := 0 to |rows|
      invariant events == ShowAll(rows[..i], columns) && keys == Keys(rows[..i]) && next == Beyond(after, rows[..i])
    {
      next := if next <= rows[i].sequence then rows[i].sequence else next;
      events := events + [DomainEvent(EVENT_TYPE, rows[i].key, columns(rows[i]).0, columns(rows[i]).1)];
      keys := keys + [rows[i].key];
      assert rows[..i + 1] == rows[..i] + [rows[i]];
    }
    assert rows[..|rows|] == rows;
    batch := PollBatch(events, keys, Some(Digits(next)));
  }

  /** A page is a stretch of the log, in order, right after the cursor. */
  lemma PageRows(log: seq<MailEvent>, after: nat, limit: nat, rows: seq<MailEvent>, messages: set<MessageKey>)
    requires IsPage(log, after, limit, rows) && EventsOf(log, messages)
    ensures |rows| <= limit
    ensures forall i :: 0 <= i < |rows| ==> rows[i].sequence > after && rows[i] in log
    ensures forall i, j :: 0 <= i < j < |rows| ==> rows[i].sequence < rows[j].sequence
    ensures forall k :: 0 <= k < |log| && after < log[k].sequence <= Beyond(after, rows) ==> log[k] in rows
  {
    hide EventsOf, IsPage;
    var from := PageSpan(log, after, limit, rows);
    forall i | 0 <= i < |rows|
      ensures rows[i].sequence > after && rows[i] in log
    {
      assert rows[i] == log[from + i];
    }
    forall i, j | 0 <= i < j < |rows|
      ensures rows[i].sequence < rows[j].sequence
    {
      SequenceOrder(log, messages, from + j, from + i);
    }
    forall k | 0 <= k < |log| && after < log[k].sequence <= Beyond(after, rows)
      ensures log[k] in rows
    {
      var last := from + |rows| - 1;
      assert rows != [] && log[last] == rows[|rows| - 1];
      SequenceOrder(log, messages, k, last);
      assert log[k] == rows[k - from];
    }
  }

  lemma PageSpan(log: seq<MailEvent>, after: nat, limit: nat, rows: seq<MailEvent>) returns (from: nat)
    requires IsPage(log, after, limit, rows)
    ensures PageAt(log, after, from) && |rows| <= limit && from + |rows| <= |log| && rows == log[from..from + |rows|]
  {
    from :| PageAt(log, after, from) && rows == log[from..if |log| - from <= limit then |log| else from + limit];
  }

  lemma SequenceOrder(log: seq<MailEvent>, messages: set<MessageKey>, a: nat, b: nat)
    requires EventsOf(log, messages) && a < |log| && b < |log|
    ensures log[a].sequence <= log[b].sequence <==> a <= b
  {
  }

  // ---- runs ----

  /**
   A collection under way: it has read the cursor row and its version, and then has been answered by the source, whose log at
   that moment is remembered here.
   */
  datatype Flight =
    | Reading(b: Binding, job: string, cursor: Option<string>, version: nat)
    | Polled(b: Binding, job: string, cursor: Option<string>, version: nat, log: seq<MailEvent>, messages: set<MessageKey>,
             polled: Option<PollBatch>)

  /** The event log of the mail extension, with the messages it announces, the records of the core, and the collections. */
  datatype World = World(log: seq<MailEvent>, messages: set<MessageKey>, db: Records, flights: map<nat, Flight>)

  datatype Step =
    | Synchronise(log: seq<MailEvent>, messages: set<MessageKey>)
    | Read(id: nat, b: Binding, job: string)
    | Ask(id: nat, polled: Option<PollBatch>)
    | Commit(id: nat, out: Outside)
    | Crash(id: nat)

  ghost predicate LogOk(log: seq<MailEvent>, messages: set<MessageKey>) {
    EventsOf(log, messages) && forall i :: 0 <= i < |log| ==> log[i].sequence > 0
  }

  function CursorVersion(db: Records, source: string): nat {
    if source in db.cursors then db.cursors[source].version else 0
  }

  /** Every collection of the mail source is answered from its log; other sources answer what they like. */
  ghost predicate Enabled(w: World, name: string, columns: Columns, s: Step) {
    match s
    case Synchronise(log, messages) => LogOk(log, messages)
    case Read(id, _, _) => id !in w.flights
    case Ask(id, polled) =>
      && id in w.flights && w.flights[id].Reading?
      && (SourceName(w.flights[id].b) == name ==> Answers(w.log, w.flights[id].cursor, MAX_EVENTS, columns, polled))
    case Commit(id, _) => id in w.flights && w.flights[id].Polled?
    case Crash(id) => id in w.flights
  }

  /** The transaction commits only if the cursor row still has the version that was read. */
  function Committed(db: Records, f: Flight, out: Outside): Records
    requires f.Polled?
  {
    if CursorVersion(db, SourceName(f.b)) == f.version then Collected(db, f.b, f.job, f.polled, out).0 else db
  }

  ghost function Do(w: World, name: string, columns: Columns, s: Step): World
    requires Enabled(w, name, columns, s)
  {
    match s
    case Synchronise(log, messages) => w.(log := log, messages := messages)
    case Read(id, b, job) =>
      w.(flights := w.flights[id := Reading(b, job, CursorOf(w.db, SourceName(b)), CursorVersion(w.db, SourceName(b)))])
    case Ask(id, polled) =>
      var f := w.flights[id];
      w.(flights := w.flights[id := Polled(f.b, f.job, f.cursor, f.version, w.log, w.messages, polled)])
    case Commit(id, out) => w.(db := Committed(w.db, w.flights[id], out), flights := w.flights - {id})
    case Crash(id) => w.(flights := w.flights - {id})
  }

  // ---- what holds of every collection under way ----

  ghost predicate FlightOk(db: Records, name: string, columns: Columns, f: Flight) {
    var source := SourceName(f.b);
    && f.version <= CursorVersion(db, source) && (f.version == CursorVersion(db, source) ==> f.cursor == CursorOf(db, source))
    && (f.Polled? ==> LogOk(f.log, f.messages) && (source == name ==> Answers(f.log, f.cursor, MAX_EVENTS, columns, f.polled)))
  }

  ghost predicate CursorsOk(db: Records, name: string) {
    (forall s :: s in db.cursors ==> db.cursors[s].version >= 1) && ParseCursor(CursorOf(db, name)).Some?
  }

  ghost predicate Sound(w: World, name: string, columns: Columns) {
    && LogOk(w.log, w.messages) && SinkOnce(w.db) && CursorsOk(w.db, name)
    && forall id :: id in w.flights ==> FlightOk(w.db, name, columns, w.flights[id])
  }

  /** A committed collection of the mail source used the rows right after the stored cursor, as its log had them. */
  lemma CommittedPage(db: Records, name: string, columns: Columns, f: Flight, out: Outside) returns (rows: seq<MailEvent>)
    requires CursorsOk(db, name) && FlightOk(db, name, columns, f) && f.Polled? && SourceName(f.b) == name
    requires Committed(db, f, out) != db
    ensures var c := ParseCursor(CursorOf(db, name)).value;
            && (rows == [] || IsPage(f.log, c, MAX_EVENTS, rows))
            && f.polled == Some(PollBatch(ShowAll(rows, columns), Keys(rows), Some(Digits(Beyond(c, rows)))))
    ensures DistinctEvents(ShowAll(rows, columns)) && Immutable(db.domain, name, ShowAll(rows, columns))
    ensures Committed(db, f, out).domain == Recorded(db.domain, f.b, ShowAll(rows, columns))
    ensures ParseCursor(CursorOf(Committed(db, f, out), name)) ==
              Some(Beyond(ParseCursor(CursorOf(db, name)).value, rows))
  {
    hide Recorded, Unseen, SunkAll, ValidBatch, IsPage, ShowAll, Keys, Digits, Value, AllDigits, Immutable, LogOk;
    var c := ParseCursor(CursorOf(db, name)).value;
    DistinctOf(f.polled.value, out);
    rows :| (rows == [] || IsPage(f.log, c, MAX_EVENTS, rows)) &&
            f.polled == Some(PollBatch(ShowAll(rows, columns), Keys(rows), Some(Digits(Beyond(c, rows)))));
    DigitsRoundTrip(Beyond(c, rows));
  }

  /** Exactly when a commit takes effect. */
  lemma CommitIff(db: Records, f: Flight, out: Outside)
    requires f.Polled?
    ensures Committed(db, f, out) != db <==>
              && CursorVersion(db, SourceName(f.b)) == f.version && f.job !in db.receipts
              && 1 <= |f.b.extension| <= 128 && 1 <= |f.b.version| <= 128 && 1 <= |f.b.source| <= 128 && |f.job| <= 247
              && f.polled.Some? && WellFormed(f.polled.value, out)
              && forall i :: 0 <= i < |f.polled.value.events| ==> Acceptable(db.domain, SourceName(f.b), f.polled.value.events[i], out)
  {
    hide WellFormed, Collected, Acceptable;
    if f.job in db.receipts {
      Replays(db, f.b, f.job, f.polled, out);
    } else {
      CollectIff(db, f.b, f.job, f.polled, out);
      CountedOnce(db, f.b, f.job, f.polled, out);
    }
  }

  lemma Replays(db: Records, b: Binding, job: string, polled: Option<PollBatch>, out: Outside)
    requires job in db.receipts
    ensures Collected(db, b, job, polled, out).0 == db
  {
  }

  /** Committing touches one cursor row, and gives it a new version. */
  lemma CommittedCursors(db: Records, f: Flight, out: Outside)
    requires f.Polled?
    ensures var db', source := Committed(db, f, out), SourceName(f.b);
            && (db' != db ==> source in db'.cursors && CursorVersion(db', source) == CursorVersion(db, source) + 1)
            && forall s :: s != source ==> CursorVersion(db', s) == CursorVersion(db, s) && CursorOf(db', s) == CursorOf(db, s)
                                           && (s in db'.cursors ==> s in db.cursors)
  {
    hide Recorded, Unseen, SunkAll, Accepted;
  }

  lemma CommitSound(w: World, name: string, columns: Columns, id: nat, out: Outside)
    requires Sound(w, name, columns) && id in w.flights && w.flights[id].Polled?
    ensures Sound(Do(w, name, columns, Commit(id, out)), name, columns)
  {
    hide LogOk, SinkOnce, Answers, Digits, Value, AllDigits, Committed, SourceName;
    var f := w.flights[id];
    var db' := Committed(w.db, f, out);
    CommitSinks(w.db, f, out);
    CommittedCursors(w.db, f, out);
    assert FlightOk(w.db, name, columns, f);
    if db' != w.db && SourceName(f.b) == name {
      var rows := CommittedPage(w.db, name, columns, f, out);
    }
    CommitVersions(w.db, db', SourceName(f.b), name);
    forall x | x in w.flights
      ensures FlightOk(db', name, columns, w.flights[x])
    {
      assert FlightOk(w.db, name, columns, w.flights[x]);
    }
  }

  lemma CommitSinks(db: Records, f: Flight, out: Outside)
    requires f.Polled? && SinkOnce(db)
    ensures SinkOnce(Committed(db, f, out))
  {
    hide SinkOnce, Collected;
    CollectKeepsSinkOnce(db, f.b, f.job, f.polled, out);
  }

  lemma CommitVersions(db: Records, db': Records, source: string, name: string)
    requires forall s :: s in db.cursors ==> db.cursors[s].version >= 1
    requires db' != db ==> source in db'.cursors && CursorVersion(db', source) == CursorVersion(db, source) + 1
    requires forall s :: s != source ==> CursorVersion(db', s) == CursorVersion(db, s) && CursorOf(db', s) == CursorOf(db, s)
                                         && (s in db'.cursors ==> s in db.cursors)
    ensures forall s :: s in db'.cursors ==> db'.cursors[s].version >= 1
  {
    forall s | s in db'.cursors
      ensures db'.cursors[s].version >= 1
    {
      assert CursorVersion(db', s) == db'.cursors[s].version;
    }
  }

  lemma StepSound(w: World, name: string, columns: Columns, s: Step)
    requires Sound(w, name, columns) && Enabled(w, name, columns, s)
    ensures Sound(Do(w, name, columns, s), name, columns)
  {
    hide LogOk, SinkOnce, Answers, Committed, CursorsOk;
    if s.Commit? { CommitSound(w, name, columns, s.id, s.out); }
  }

  ghost predicate Run(ws: seq<World>, steps: seq<Step>, name: string, columns: Columns) {
    && |ws| == |steps| + 1 && ws[0].db == NO_RECORDS && ws[0].flights == map[] && LogOk(ws[0].log, ws[0].messages)
    && forall i :: 0 <= i < |steps| ==> Enabled(ws[i], name, columns, steps[i]) && ws[i + 1] == Do(ws[i], name, columns, steps[i])
  }

  lemma {:induction false} RunSound(ws: seq<World>, steps: seq<Step>, name: string, columns: Columns, i: nat)
    requires Run(ws, steps, name, columns) && i < |ws|
    ensures Sound(ws[i], name, columns)
  {
    hide Do, Enabled, LogOk;
    if i > 0 {
      RunSound(ws, steps, name, columns, i - 1);
      hide Sound;
      StepSound(ws[i - 1], name, columns, steps[i - 1]);
    }
  }

  /** The cursor never moves back. */
  lemma CursorNeverBack(ws: seq<World>, steps: seq<Step>, name: string, columns: Columns, i: nat)
    requires Run(ws, steps, name, columns) && i < |steps|
    ensures ParseCursor(CursorOf(ws[i].db, name)).Some? && ParseCursor(CursorOf(ws[i + 1].db, name)).Some?
    ensures ParseCursor(CursorOf(ws[i].db, name)).value <= ParseCursor(CursorOf(ws[i + 1].db, name)).value
  {
    hide LogOk, Answers, Digits, Value, AllDigits, Committed, SinkOnce, ParseCursor, CursorOf;
    RunSound(ws, steps, name, columns, i);
    RunSound(ws, steps, name, columns, i + 1);
    if steps[i].Commit? { CommitForward(ws[i].db, name, columns, ws[i].flights[steps[i].id], steps[i].out); }
  }

  lemma CommitForward(db: Records, name: string, columns: Columns, f: Flight, out: Outside)
    requires CursorsOk(db, name) && FlightOk(db, name, columns, f) && f.Polled?
    ensures var c := ParseCursor(CursorOf(Committed(db, f, out), name));
            c.Some? && ParseCursor(CursorOf(db, name)).value <= c.value
  {
    hide Answers, Digits, Value, AllDigits, Committed, EventsOf, IsPage;
    CommittedCursors(db, f, out);
    if Committed(db, f, out) != db && SourceName(f.b) == name {
      var rows := CommittedPage(db, name, columns, f, out);
      if rows != [] { PageRows(f.log, ParseCursor(CursorOf(db, name)).value, MAX_EVENTS, rows, f.messages); }
    }
  }

  // ---- delivery from a log that grows at its end ----

  /** Sequence numbers become visible in order: the log only grows at its end. */
  ghost predicate InSequence(ws: seq<World>, steps: seq<Step>)
    requires |ws| == |steps| + 1
  {
    forall i :: 0 <= i < |steps| && steps[i].Synchronise? ==> ws[i].log <= steps[i].log
  }

  /** Any run of concurrent synchronisations is such a growing log. */
  lemma SynchronisingGrowsLog(ws: seq<M.World>, steps: seq<M.Step>, i: nat, w: World, name: string, columns: Columns)
    requires M.Run(ws, steps) && i + 1 < |ws| && w.log == ws[i].t.events
    ensures var t, t' := ws[i].t, ws[i + 1].t;
            && LogOk(t.events, t.messages) && w.log <= t'.events
            && Enabled(w, name, columns, Synchronise(t'.events, t'.messages))
  {
    hide M.Run, EventsOf;
    M.OneEventPerMessage(ws, steps, i);
    M.OneEventPerMessage(ws, steps, i + 1);
  }

  function LastSequence(log: seq<MailEvent>): nat {
    if log == [] then 0 else log[|log| - 1].sequence
  }

  ghost predicate Delivered(db: Records, name: string, e: DomainEvent) {
    Identity(name, e.key) in db.domain && db.domain[Identity(name, e.key)].event == e
  }

  ghost predicate UpTo(log: seq<MailEvent>, db: Records, name: string, columns: Columns, cursor: nat) {
    && cursor <= LastSequence(log)
    && forall k :: 0 <= k < |log| && log[k].sequence <= cursor ==> Delivered(db, name, Show(log[k], columns))
  }

  ghost predicate Inv(w: World, name: string, columns: Columns) {
    && Sound(w, name, columns)
    && UpTo(w.log, w.db, name, columns, ParseCursor(CursorOf(w.db, name)).value)
    && forall id :: id in w.flights && w.flights[id].Polled? ==> w.flights[id].log <= w.log
  }

  lemma LogStep(before: seq<MailEvent>, db: Records, name: string, columns: Columns, log: seq<MailEvent>, messages: set<MessageKey>, cursor: nat)
    requires LogOk(log, messages) && before <= log && UpTo(before, db, name, columns, cursor)
    ensures UpTo(log, db, name, columns, cursor)
  {
    hide EventsOf, Delivered;
    if before != [] {
      assert log[|before| - 1] == before[|before| - 1];
      SequenceOrder(log, messages, |before| - 1, |log| - 1);
    }
    forall k | 0 <= k < |log| && log[k].sequence <= cursor
      ensures Delivered(db, name, Show(log[k], columns))
    {
      LogBound(before, log, messages, k);
    }
  }

  lemma LogBound(before: seq<MailEvent>, log: seq<MailEvent>, messages: set<MessageKey>, k: nat)
    requires LogOk(log, messages) && before <= log && k < |log|
    ensures log[k].sequence <= LastSequence(before) ==> k < |before| && before[k] == log[k]
  {
    if before != [] { SequenceOrder(log, messages, k, |before| - 1); }
  }

  lemma RecordedKeeps(db: Records, b: Binding, events: seq<DomainEvent>, db': Records, name: string, e: DomainEvent)
    requires db'.domain == Recorded(db.domain, b, events) && Delivered(db, name, e)
    ensures Delivered(db', name, e)
  {
    RecordedRows(db.domain, b, events);
  }

  lemma RecordedDelivers(db: Records, b: Binding, events: seq<DomainEvent>, db': Records, e: DomainEvent)
    requires db'.domain == Recorded(db.domain, b, events) && DistinctEvents(events) && Immutable(db.domain, SourceName(b), events)
    requires e in events
    ensures Delivered(db', SourceName(b), e)
  {
    hide Recorded;
    RecordedRows(db.domain, b, events);
    var i :| 0 <= i < |events| && events[i] == e;
    assert Mentions(events, events[i].key);
  }

  /** A collection of the mail source leaves everything up to its new cursor delivered, also what came in meanwhile. */
  lemma PageDelivered(log: seq<MailEvent>, messages: set<MessageKey>, f: Flight, db: Records, db': Records, name: string,
                      columns: Columns, rows: seq<MailEvent>, cursor: nat)
    requires LogOk(log, messages) && UpTo(log, db, name, columns, cursor) && SourceName(f.b) == name
    requires f.Polled? && LogOk(f.log, f.messages) && f.log <= log
    requires rows == [] || IsPage(f.log, cursor, MAX_EVENTS, rows)
    requires db'.domain == Recorded(db.domain, f.b, ShowAll(rows, columns))
    requires DistinctEvents(ShowAll(rows, columns)) && Immutable(db.domain, name, ShowAll(rows, columns))
    ensures UpTo(log, db', name, columns, Beyond(cursor, rows))
  {
    hide Recorded, Delivered, IsPage, EventsOf, Immutable, ShowAll;
    PageLast(log, messages, f, rows, cursor);
    forall k | 0 <= k < |log| && log[k].sequence <= Beyond(cursor, rows)
      ensures Delivered(db', name, Show(log[k], columns))
    {
      if log[k].sequence <= cursor {
        RecordedKeeps(db, f.b, ShowAll(rows, columns), db', name, Show(log[k], columns));
      } else {
        PageHas(log, messages, f, rows, cursor, k);
        Shown(rows, columns, log[k]);
        RecordedDelivers(db, f.b, ShowAll(rows, columns), db', Show(log[k], columns));
      }
    }
  }

  lemma PageLast(log: seq<MailEvent>, messages: set<MessageKey>, f: Flight, rows: seq<MailEvent>, cursor: nat)
    requires LogOk(log, messages) && f.Polled? && LogOk(f.log, f.messages) && f.log <= log
    requires cursor <= LastSequence(log) && (rows == [] || IsPage(f.log, cursor, MAX_EVENTS, rows))
    ensures Beyond(cursor, rows) <= LastSequence(log)
  {
    hide EventsOf, IsPage;
    if rows != [] {
      PageRows(f.log, cursor, MAX_EVENTS, rows, f.messages);
      var l :| 0 <= l < |f.log| && f.log[l] == rows[|rows| - 1];
      SequenceOrder(log, messages, l, |log| - 1);
    }
  }

  lemma PageHas(log: seq<MailEvent>, messages: set<MessageKey>, f: Flight, rows: seq<MailEvent>, cursor: nat, k: nat)
    requires LogOk(log, messages) && f.Polled? && LogOk(f.log, f.messages) && f.log <= log && k < |log|
    requires rows == [] || IsPage(f.log, cursor, MAX_EVENTS, rows)
    requires cursor < log[k].sequence <= Beyond(cursor, rows)
    ensures log[k] in rows
  {
    hide EventsOf, IsPage;
    PageRows(f.log, cursor, MAX_EVENTS, rows, f.messages);
    var l :| 0 <= l < |f.log| && f.log[l] == rows[|rows| - 1];
    SequenceOrder(log, messages, k, l);
    assert f.log[k] == log[k];
  }

  lemma Shown(rows: seq<MailEvent>, columns: Columns, row: MailEvent)
    requires row in rows
    ensures Show(row, columns) in ShowAll(rows, columns)
  {
    var i :| 0 <= i < |rows| && rows[i] == row;
    assert ShowAll(rows, columns)[i] == Show(row, columns);
  }

  lemma OtherSource(log: seq<MailEvent>, db: Records, db': Records, name: string, columns: Columns, b: Binding, events: seq<DomainEvent>, cursor: nat)
    requires UpTo(log, db, name, columns, cursor) && db'.domain == Recorded(db.domain, b, events)
    ensures UpTo(log, db', name, columns, cursor)
  {
    hide Recorded, Delivered;
    forall k | 0 <= k < |log| && log[k].sequence <= cursor
      ensures Delivered(db', name, Show(log[k], columns))
    {
      RecordedKeeps(db, b, events, db', name, Show(log[k], columns));
    }
  }

  lemma CommittedDomain(db: Records, f: Flight, out: Outside)
    requires f.Polled? && Committed(db, f, out) != db
    ensures f.polled.Some? && Committed(db, f, out).domain == Recorded(db.domain, f.b, f.polled.value.events)
  {
    hide Recorded, Unseen, SunkAll, Accepted;
  }

  lemma CommitKeeps(w: World, name: string, columns: Columns, id: nat, out: Outside)
    requires Inv(w, name, columns) && id in w.flights && w.flights[id].Polled?
    ensures Inv(Do(w, name, columns, Commit(id, out)), name, columns)
  {
    hide LogOk, SinkOnce, Answers, Digits, Value, AllDigits, Committed, SourceName, UpTo, ShowAll, IsPage, Immutable, Recorded;
    var f := w.flights[id];
    var db' := Committed(w.db, f, out);
    var cursor := ParseCursor(CursorOf(w.db, name)).value;
    CommitSound(w, name, columns, id, out);
    CommittedCursors(w.db, f, out);
    assert FlightOk(w.db, name, columns, f);
    if db' != w.db {
      if SourceName(f.b) == name {
        var rows := CommittedPage(w.db, name, columns, f, out);
        PageDelivered(w.log, w.messages, f, w.db, db', name, columns, rows, cursor);
      } else {
        CommittedDomain(w.db, f, out);
        OtherSource(w.log, w.db, db', name, columns, f.b, f.polled.value.events, cursor);
      }
    }
  }

  lemma StepKeeps(w: World, name: string, columns: Columns, s: Step)
    requires Inv(w, name, columns) && Enabled(w, name, columns, s) && (s.Synchronise? ==> w.log <= s.log)
    ensures Inv(Do(w, name, columns, s), name, columns)
  {
    hide LogOk, SinkOnce, Answers, Committed, CursorsOk, FlightOk, UpTo, ParseCursor, CursorOf;
    CursorParses(w, name, columns);
    StepSound(w, name, columns, s);
    if s.Commit? { CommitKeeps(w, name, columns, s.id, s.out); }
    if s.Synchronise? {
      LogStep(w.log, w.db, name, columns, s.log, s.messages, ParseCursor(CursorOf(w.db, name)).value);
    }
  }

  lemma CursorParses(w: World, name: string, columns: Columns)
    requires Sound(w, name, columns)
    ensures ParseCursor(CursorOf(w.db, name)).Some?
  {
  }

  lemma {:induction false} RunKeeps(ws: seq<World>, steps: seq<Step>, name: string, columns: Columns, i: nat)
    requires Run(ws, steps, name, columns) && InSequence(ws, steps) && i < |ws|
    ensures Inv(ws[i], name, columns)
  {
    hide LogOk, UpTo, Do, Enabled, Sound, ParseCursor, CursorOf;
    if i == 0 {
      RunSound(ws, steps, name, columns, 0);
      StartsUpTo(ws[0].log, ws[0].messages, ws[0].db, name, columns);
    } else {
      RunKeeps(ws, steps, name, columns, i - 1);
      hide Inv;
      StepKeeps(ws[i - 1], name, columns, steps[i - 1]);
    }
  }

  lemma StartsUpTo(log: seq<MailEvent>, messages: set<MessageKey>, db: Records, name: string, columns: Columns)
    requires db == NO_RECORDS && LogOk(log, messages)
    ensures UpTo(log, db, name, columns, 0) && SinkOnce(db) && ParseCursor(CursorOf(db, name)) == Some(0)
  {
  }

  /**
   At every moment of every run of overlapping collections, an event of the log up to the stored cursor has one record with
   its content, and exactly one committed sink call.
   */
  lemma ExactlyOnce(ws: seq<World>, steps: seq<Step>, name: string, columns: Columns, i: nat, k: nat) returns (at: nat)
    requires Run(ws, steps, name, columns) && InSequence(ws, steps) && i < |ws| && k < |ws[i].log|
    requires var c := ParseCursor(CursorOf(ws[i].db, name)); c.Some? && ws[i].log[k].sequence <= c.value
    ensures var row := ws[i].log[k];
            Delivered(ws[i].db, name, DomainEvent("mail.received", row.key, columns(row).0, columns(row).1))
    ensures at < |ws[i].db.sunk| && ws[i].db.sunk[at].id == Identity(name, ws[i].log[k].key)
            && ws[i].db.sunk[at].event == ws[i].db.domain[Identity(name, ws[i].log[k].key)].event
    ensures forall j :: 0 <= j < |ws[i].db.sunk| && j != at ==> ws[i].db.sunk[j].id != Identity(name, ws[i].log[k].key)
  {
    hide LogOk, Run, Digits, Value, AllDigits, FlightOk;
    RunKeeps(ws, steps, name, columns, i);
    var id := Identity(name, ws[i].log[k].key);
    at :| 0 <= at < |ws[i].db.sunk| && ws[i].db.sunk[at].id == id;
  }

  // ---- events that become visible late ----

  /** Wherever the row's key occurs in the log, it is this row. */
  ghost predicate Agrees(log: seq<MailEvent>, row: MailEvent) {
    forall r :: r in log && r.key == row.key ==> r == row
  }

  ghost predicate AllAgree(w: World, row: MailEvent) {
    Agrees(w.log, row) && forall id :: id in w.flights && w.flights[id].Polled? ==> Agrees(w.flights[id].log, row)
  }

  lemma {:induction false} RunAgrees(ws: seq<World>, steps: seq<Step>, name: string, columns: Columns, row: MailEvent, i: nat)
    requires Run(ws, steps, name, columns) && i < |ws| && forall k :: 0 <= k < |ws| ==> Agrees(ws[k].log, row)
    ensures AllAgree(ws[i], row)
  {
    hide LogOk, Answers, Committed, Agrees;
    if i > 0 { RunAgrees(ws, steps, name, columns, row, i - 1); }
  }

  lemma LateCommit(db: Records, name: string, columns: Columns, f: Flight, out: Outside, row: MailEvent)
    requires CursorsOk(db, name) && FlightOk(db, name, columns, f) && f.Polled? && Agrees(f.log, row)
    requires row.sequence <= ParseCursor(CursorOf(db, name)).value && Identity(name, row.key) !in db.domain
    ensures Identity(name, row.key) !in Committed(db, f, out).domain
  {
    hide Answers, Digits, Value, AllDigits, Committed, EventsOf, IsPage, Recorded, Immutable;
    if Committed(db, f, out) != db {
      CommittedDomain(db, f, out);
      RecordedRows(db.domain, f.b, f.polled.value.events);
      if SourceName(f.b) == name {
        var rows := CommittedPage(db, name, columns, f, out);
        var events := ShowAll(rows, columns);
        if rows != [] { PageRows(f.log, ParseCursor(CursorOf(db, name)).value, MAX_EVENTS, rows, f.messages); }
        forall i | 0 <= i < |events|
          ensures events[i].key != row.key
        {
          assert rows[i] in f.log && rows[i].sequence > row.sequence;
        }
      }
    }
  }

  /**
   Why sequence numbers must become visible in order: in every run, an event that has not been delivered when the cursor is
   at or beyond its sequence number is never delivered afterwards, whenever it appears in the log.
   */
  lemma {:induction false} LateEventNeverDelivered(ws: seq<World>, steps: seq<Step>, name: string, columns: Columns, row: MailEvent,
                                                   i: nat, j: nat)
    requires Run(ws, steps, name, columns) && i <= j < |ws| && forall k :: 0 <= k < |ws| ==> Agrees(ws[k].log, row)
    requires var c := ParseCursor(CursorOf(ws[i].db, name)); c.Some? && row.sequence <= c.value
    requires Identity(name, row.key) !in ws[i].db.domain
    ensures Identity(name, row.key) !in ws[j].db.domain
    ensures var c := ParseCursor(CursorOf(ws[j].db, name)); c.Some? && row.sequence <= c.value
  {
    hide LogOk, Answers, Committed, Digits, Value, AllDigits, Agrees, SinkOnce, ParseCursor, CursorOf;
    if i < j {
      LateEventNeverDelivered(ws, steps, name, columns, row, i, j - 1);
      CursorNeverBack(ws, steps, name, columns, j - 1);
      RunSound(ws, steps, name, columns, j - 1);
      RunAgrees(ws, steps, name, columns, row, j - 1);
      var w, s := ws[j - 1], steps[j - 1];
      if s.Commit? { LateCommit(w.db, name, columns, w.flights[s.id], s.out, row); }
    }
  }

  // ---- what an undisturbed collection achieves ----

  /** From any reachable state, a collection that reads, is answered a well-formed batch and commits has moved the cursor to its end. */
  lemma UndisturbedCollection(w: World, name: string, columns: Columns, id: nat, b: Binding, job: string, batch: PollBatch, out: Outside)
    requires id !in w.flights && SourceName(b) == name && Answers(w.log, CursorOf(w.db, name), MAX_EVENTS, columns, Some(batch))
    requires job !in w.db.receipts && 1 <= |b.extension| <= 128 && 1 <= |b.version| <= 128 && 1 <= |b.source| <= 128 && |job| <= 247
    requires WellFormed(batch, out) && forall i :: 0 <= i < |batch.events| ==> Acceptable(w.db.domain, name, batch.events[i], out)
    ensures Enabled(w, name, columns, Read(id, b, job)) && Enabled(Do(w, name, columns, Read(id, b, job)), name, columns, Ask(id, Some(batch)))
    ensures var asked := Do(Do(w, name, columns, Read(id, b, job)), name, columns, Ask(id, Some(batch)));
            && Enabled(asked, name, columns, Commit(id, out))
            && var done := Do(asked, name, columns, Commit(id, out));
               && CursorOf(done.db, name) == batch.next && done.log == w.log
               && (forall i :: 0 <= i < |batch.events| ==> Delivered(done.db, name, batch.events[i]))
               && done.flights == w.flights
  {
    hide WellFormed, Acceptable, Answers, Collected, Delivered;
    CollectIff(w.db, b, job, Some(batch), out);
    CollectLeaves(w.db, b, job, batch, out);
    var db' := Collected(w.db, b, job, Some(batch), out).0;
    forall i | 0 <= i < |batch.events|
      ensures Delivered(db', name, batch.events[i])
    {
      assert HasEvent(db'.domain, name, batch.events[i]);
      IsDelivered(db', name, batch.events[i]);
    }
    var read := Do(w, name, columns, Read(id, b, job));
    var asked := Do(read, name, columns, Ask(id, Some(batch)));
    var done := Do(asked, name, columns, Commit(id, out));
    assert done.db == db';
    assert done.flights == w.flights;
  }

  lemma IsDelivered(db: Records, name: string, e: DomainEvent)
    requires HasEvent(db.domain, name, e)
    ensures Delivered(db, name, e)
  {
  }
}
