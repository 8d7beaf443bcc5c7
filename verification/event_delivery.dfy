/**
 Collecting the events of an extension's source: one command reads the cursor, polls, validates, records every new event
 once, hands it to the sink, and moves the cursor; any failure rolls all of it back.
 */
module EventDelivery {
  import opened Wrappers

  const MAX_EVENTS: nat := 100
  const MAX_KEY: nat := 256
  const MAX_TYPE: nat := 128
  const MAX_NAME: nat := 128
  const MAX_CURSOR: nat := 10_000

  /** `occurred_at`, read as an ISO timestamp. */
  datatype Time = Aware(instant: int) | Naive | Malformed

  datatype DomainEvent = DomainEvent(kind: string, key: string, occurredAt: Time, payload: string)

  datatype Binding = Binding(extension: string, version: string, source: string)

  function SourceName(b: Binding): string {
    b.extension + ":" + b.source
  }

  /** Extension identifiers contain no colon, so the joined name determines both parts. */
  lemma SourceNameInjective(a: Binding, b: Binding)
    requires ':' !in a.extension && ':' !in b.extension && SourceName(a) == SourceName(b)
    ensures a.extension == b.extension && a.source == b.source
  {
    var s, m, n := SourceName(a), |a.extension|, |b.extension|;
    assert s[m] == ':' && s[n] == ':';
    assert forall i :: 0 <= i < m ==> s[i] == a.extension[i];
    assert forall i :: 0 <= i < n ==> s[i] == b.extension[i];
    assert m == n;
    assert a.extension == s[..m] == b.extension;
    assert a.source == s[m + 1..] == b.source;
  }

  datatype PollBatch = PollBatch(events: seq<DomainEvent>, keys: seq<string>, next: Option<string>)

  /** The fingerprint of source and key identifies an event. */
  datatype Identity = Identity(source: string, key: string)

  datatype CursorRow = CursorRow(cursor: Option<string>, extensionVersion: string, version: nat)

  datatype DomainRow = DomainRow(event: DomainEvent, extensionVersion: string)

  datatype Receipt = Receipt(request: Binding, added: nat)

  datatype Sunk = Sunk(id: Identity, event: DomainEvent)

  datatype Records = Records(cursors: map<string, CursorRow>, domain: map<Identity, DomainRow>, sunk: seq<Sunk>,
                             receipts: map<string, Receipt>)

  const NO_RECORDS := Records(map[], map[], [], map[])

  /** What is outside: whether an event is canonical JSON of at most a megabyte, and whether the sink accepts it. */
  datatype Outside = Outside(canonical: DomainEvent -> bool, sinks: DomainEvent -> bool)

  /** The command key is bounded like every other. */
  predicate ValidJob(job: string) {
    |"poll-job:" + job| <= MAX_KEY
  }

  predicate ValidBinding(b: Binding) {
    0 < |b.extension| <= MAX_NAME && 0 < |b.version| <= MAX_NAME && 0 < |b.source| <= MAX_NAME
  }

  predicate ValidEvent(e: DomainEvent, out: Outside) {
    0 < |e.kind| <= MAX_TYPE && e.occurredAt.Aware? && out.canonical(e)
  }

  predicate DistinctKeys(keys: seq<string>) {
    forall i, j :: 0 <= i < j < |keys| ==> keys[i] != keys[j]
  }

  predicate DistinctEvents(events: seq<DomainEvent>) {
    forall i, j :: 0 <= i < j < |events| ==> events[i].key != events[j].key
  }

  predicate ValidBatch(b: PollBatch, out: Outside) {
    && |b.events| <= MAX_EVENTS
    && (forall i :: 0 <= i < |b.keys| ==> 0 < |b.keys[i]| <= MAX_KEY)
    && DistinctKeys(b.keys) && (b.next.Some? ==> |b.next.value| <= MAX_CURSOR)
    && (forall i :: 0 <= i < |b.events| ==> ValidEvent(b.events[i], out))
    && DistinctEvents(b.events)
    && (set i | 0 <= i < |b.events| :: b.events[i].key) == (set i | 0 <= i < |b.keys| :: b.keys[i])
  }

  /** No event of the batch differs from what was recorded under its key. */
  predicate Immutable(domain: map<Identity, DomainRow>, source: string, events: seq<DomainEvent>) {
    forall i :: 0 <= i < |events| && Identity(source, events[i].key) in domain ==>
      domain[Identity(source, events[i].key)].event == events[i]
  }

  /** The events not recorded before, in order. */
  function Unseen(domain: map<Identity, DomainRow>, source: string, events: seq<DomainEvent>): seq<DomainEvent> {
    if events == [] then []
    else
      var n := |events| - 1;
      var before := Unseen(domain, source, events[..n]);
      if Identity(source, events[n].key) in domain then before else before + [events[n]]
  }

  function SunkAll(source: string, events: seq<DomainEvent>): seq<Sunk> {
    seq(|events|, i requires 0 <= i < |events| => Sunk(Identity(source, events[i].key), events[i]))
  }

  function Recorded(domain: map<Identity, DomainRow>, b: Binding, events: seq<DomainEvent>): map<Identity, DomainRow> {
    if events == [] then domain
    else
      var n := |events| - 1;
      var id := Identity(SourceName(b), events[n].key);
      var before := Recorded(domain, b, events[..n]);
      if id in before then before else before[id := DomainRow(events[n], b.version)]
  }

  predicate Accepted(db: Records, b: Binding, batch: PollBatch, out: Outside) {
    && ValidBatch(batch, out) && Immutable(db.domain, SourceName(b), batch.events)
    && TakesAll(Unseen(db.domain, SourceName(b), batch.events), out)
  }

  predicate TakesAll(events: seq<DomainEvent>, out: Outside) {
    forall i :: 0 <= i < |events| ==> out.sinks(events[i])
  }

  /** What one `collect` does, `polled` being what the source answers to the stored cursor. */
  function Collected(db: Records, b: Binding, job: string, polled: Option<PollBatch>, out: Outside): (Records, Option<nat>) {
    var source := SourceName(b);
    if !ValidBinding(b) || !ValidJob(job) then (db, None)
    else if job in db.receipts then (db, if db.receipts[job].request == b then Some(db.receipts[job].added) else None)
    else if polled.None? || !Accepted(db, b, polled.value, out) then (db, None)
    else
      var unseen := Unseen(db.domain, source, polled.value.events);
      var version := if source in db.cursors then db.cursors[source].version else 0;
      (Records(db.cursors[source := CursorRow(polled.value.next, b.version, version + 1)],
               Recorded(db.domain, b, polled.value.events),
               db.sunk + SunkAll(source, unseen),
               db.receipts[job := Receipt(b, |unseen|)]), Some(|unseen|))
  }

  function CursorOf(db: Records, source: string): Option<string> {
    if source in db.cursors then db.cursors[source].cursor else None
  }

  // ---- the recording loop, step by step ----

  lemma NothingYet(domain: map<Identity, DomainRow>, b: Binding)
    ensures Recorded(domain, b, []) == domain && Unseen(domain, SourceName(b), []) == [] && SunkAll(SourceName(b), []) == []
  {
  }

  lemma {:induction false} RecordedRows(domain: map<Identity, DomainRow>, b: Binding, events: seq<DomainEvent>)
    ensures var after := Recorded(domain, b, events);
            && (forall id :: id in after <==> id in domain || (id.source == SourceName(b) && Mentions(events, id.key)))
            && (forall id :: id in domain ==> after[id] == domain[id])
            && (DistinctEvents(events) ==> forall i :: 0 <= i < |events| && Identity(SourceName(b), events[i].key) !in domain ==>
                  after[Identity(SourceName(b), events[i].key)].event == events[i])
  {
    if events != [] {
      var n := |events| - 1;
      RecordedRows(domain, b, events[..n]);
      MentionsNext(events, n);
      assert events[..n + 1] == events;
      var before, after := Recorded(domain, b, events[..n]), Recorded(domain, b, events);
      if DistinctEvents(events) {
        forall i | 0 <= i < |events| && Identity(SourceName(b), events[i].key) !in domain
          ensures after[Identity(SourceName(b), events[i].key)].event == events[i]
        {
          if i < n { assert events[..n][i] == events[i]; }
        }
      }
    }
  }

  predicate Mentions(events: seq<DomainEvent>, key: string) {
    exists j :: 0 <= j < |events| && events[j].key == key
  }

  lemma {:induction false} RecordedSize(domain: map<Identity, DomainRow>, b: Binding, events: seq<DomainEvent>)
    requires DistinctEvents(events)
    ensures |Recorded(domain, b, events)| == |domain| + |Unseen(domain, SourceName(b), events)|
  {
    if events != [] {
      var n := |events| - 1;
      var before := events[..n];
      RecordedSize(domain, b, before);
      RecordedRows(domain, b, before);
      var id := Identity(SourceName(b), events[n].key);
      assert !Mentions(before, events[n].key);
      assert id in Recorded(domain, b, before) <==> id in domain;
    }
  }

  /** The count a collection returns is the number of records, and of sink calls, that it added; a failed one adds none. */
  lemma CountedOnce(db: Records, b: Binding, job: string, polled: Option<PollBatch>, out: Outside)
    requires job !in db.receipts
    ensures var (db', added) := Collected(db, b, job, polled, out);
            if added.Some? then |db'.domain| == |db.domain| + added.value && |db'.sunk| == |db.sunk| + added.value && job in db'.receipts
            else db' == db
  {
    hide Recorded, Unseen, ValidBatch;
    if polled.Some? && Accepted(db, b, polled.value, out) {
      DistinctOf(polled.value, out);
      RecordedSize(db.domain, b, polled.value.events);
    }
  }

  /** What a well-formed batch is, spelt out. */
  ghost predicate WellFormed(batch: PollBatch, out: Outside) {
    && |batch.events| <= 100 && (batch.next.Some? ==> |batch.next.value| <= 10_000)
    && (forall i :: 0 <= i < |batch.keys| ==> 1 <= |batch.keys[i]| <= 256)
    && (forall i, j :: 0 <= i < j < |batch.keys| ==> batch.keys[i] != batch.keys[j])
    && (forall i, j :: 0 <= i < j < |batch.events| ==> batch.events[i].key != batch.events[j].key)
    && (forall i :: 0 <= i < |batch.events| ==>
          1 <= |batch.events[i].kind| <= 128 && batch.events[i].occurredAt.Aware? && out.canonical(batch.events[i]))
    && (forall i :: 0 <= i < |batch.events| ==> batch.events[i].key in batch.keys)
    && (forall i :: 0 <= i < |batch.keys| ==> Mentions(batch.events, batch.keys[i]))
  }

  lemma ValidIff(batch: PollBatch, out: Outside)
    ensures ValidBatch(batch, out) <==> WellFormed(batch, out)
  {
    var e, k := set i | 0 <= i < |batch.events| :: batch.events[i].key, set i | 0 <= i < |batch.keys| :: batch.keys[i];
    assert forall key :: key in e <==> Mentions(batch.events, key);
    assert forall key :: key in k <==> key in batch.keys;
    if WellFormed(batch, out) {
      forall key | key in e
        ensures key in k
      {
        var i :| 0 <= i < |batch.events| && batch.events[i].key == key;
      }
      forall key | key in k
        ensures key in e
      {
        var i :| 0 <= i < |batch.keys| && batch.keys[i] == key;
      }
    }
    if ValidBatch(batch, out) {
      assert forall i :: 0 <= i < |batch.events| ==> batch.events[i].key in e;
      assert forall i :: 0 <= i < |batch.keys| ==> batch.keys[i] in k;
    }
  }

  /** Recorded before with the same content, or new and taken by the sink. */
  predicate Acceptable(domain: map<Identity, DomainRow>, source: string, e: DomainEvent, out: Outside) {
    var id := Identity(source, e.key);
    if id in domain then domain[id].event == e else out.sinks(e)
  }

  /** A new job takes effect exactly if its names and the batch are well-formed and every event is acceptable. */
  lemma CollectIff(db: Records, b: Binding, job: string, polled: Option<PollBatch>, out: Outside)
    requires job !in db.receipts
    ensures Collected(db, b, job, polled, out).1.Some? <==>
              && 1 <= |b.extension| <= 128 && 1 <= |b.version| <= 128 && 1 <= |b.source| <= 128 && |job| <= 247
              && polled.Some? && WellFormed(polled.value, out)
              && forall i :: 0 <= i < |polled.value.events| ==> Acceptable(db.domain, SourceName(b), polled.value.events[i], out)
  {
    hide Recorded, Unseen, ValidBatch, WellFormed, Immutable, SunkAll, TakesAll, Acceptable;
    assert |"poll-job:" + job| == 9 + |job|;
    if polled.Some? {
      ValidIff(polled.value, out);
      AcceptableAll(db.domain, SourceName(b), polled.value.events, out);
    }
  }

  /**
   What a job that takes effect leaves: every event of the batch recorded, only events of the batch handed over, the batch's
   cursor under this extension version, and nothing of other sources changed.
   */
  lemma CollectLeaves(db: Records, b: Binding, job: string, batch: PollBatch, out: Outside)
    requires job !in db.receipts && Collected(db, b, job, Some(batch), out).1.Some?
    ensures var db' := Collected(db, b, job, Some(batch), out).0;
            && SourceName(b) in db'.cursors && db'.cursors[SourceName(b)].cursor == batch.next
            && db'.cursors[SourceName(b)].extensionVersion == b.version
            && (forall s :: s != SourceName(b) ==> (s in db'.cursors <==> s in db.cursors) && CursorOf(db', s) == CursorOf(db, s))
            && (forall i :: 0 <= i < |batch.events| ==> HasEvent(db'.domain, SourceName(b), batch.events[i]))
            && (forall id :: id in db.domain ==> id in db'.domain && db'.domain[id] == db.domain[id])
            && (forall id :: id in db'.domain && id !in db.domain ==>
                  id.source == SourceName(b) && Mentions(batch.events, id.key) && db'.domain[id].extensionVersion == b.version)
            && db.sunk <= db'.sunk && forall i :: |db.sunk| <= i < |db'.sunk| ==> db'.sunk[i].event in batch.events
  {
    hide Recorded, Unseen, ValidBatch, Immutable, SunkAll, TakesAll, HasEvent;
    DistinctOf(batch, out);
    RecordedRows(db.domain, b, batch.events);
    RecordedVersions(db.domain, b, batch.events);
    UnseenEvents(db.domain, SourceName(b), batch.events);
    AllRecorded(db.domain, b, batch.events);
  }

  predicate HasEvent(domain: map<Identity, DomainRow>, source: string, e: DomainEvent) {
    Identity(source, e.key) in domain && domain[Identity(source, e.key)].event == e
  }

  lemma {:induction false} RecordedVersions(domain: map<Identity, DomainRow>, b: Binding, events: seq<DomainEvent>)
    ensures forall id :: id in Recorded(domain, b, events) && id !in domain ==>
              Recorded(domain, b, events)[id].extensionVersion == b.version
  {
    if events != [] { RecordedVersions(domain, b, events[..|events| - 1]); }
  }

  lemma AcceptableAll(domain: map<Identity, DomainRow>, source: string, events: seq<DomainEvent>, out: Outside)
    ensures Immutable(domain, source, events) && TakesAll(Unseen(domain, source, events), out) <==>
            forall i :: 0 <= i < |events| ==> Acceptable(domain, source, events[i], out)
  {
    hide Unseen, SunkAll, TakesAll, Immutable, Acceptable;
    if Immutable(domain, source, events) && TakesAll(Unseen(domain, source, events), out) {
      forall i | 0 <= i < |events|
        ensures Acceptable(domain, source, events[i], out)
      {
        EachAcceptable(domain, source, events, out, i);
      }
    }
    if forall i :: 0 <= i < |events| ==> Acceptable(domain, source, events[i], out) {
      AllTaken(domain, source, events, out);
    }
  }

  lemma EachAcceptable(domain: map<Identity, DomainRow>, source: string, events: seq<DomainEvent>, out: Outside, i: nat)
    requires Immutable(domain, source, events) && TakesAll(Unseen(domain, source, events), out) && i < |events|
    ensures Acceptable(domain, source, events[i], out)
  {
    hide Unseen, SunkAll;
    UnseenEvents(domain, source, events);
    var unseen := Unseen(domain, source, events);
    if Identity(source, events[i].key) !in domain {
      assert events[i] in unseen;
      var j :| 0 <= j < |unseen| && unseen[j] == events[i];
      assert out.sinks(unseen[j]);
    }
  }

  lemma AllTaken(domain: map<Identity, DomainRow>, source: string, events: seq<DomainEvent>, out: Outside)
    requires forall i :: 0 <= i < |events| ==> Acceptable(domain, source, events[i], out)
    ensures Immutable(domain, source, events) && TakesAll(Unseen(domain, source, events), out)
  {
    hide Unseen, SunkAll;
    UnseenEvents(domain, source, events);
    var unseen := Unseen(domain, source, events);
    forall j | 0 <= j < |unseen|
      ensures out.sinks(unseen[j])
    {
      assert unseen[j] in unseen;
      var i :| 0 <= i < |events| && events[i] == unseen[j];
      assert Acceptable(domain, source, events[i], out);
    }
    forall i | 0 <= i < |events| && Identity(source, events[i].key) in domain
      ensures domain[Identity(source, events[i].key)].event == events[i]
    {
      assert Acceptable(domain, source, events[i], out);
    }
  }

  lemma {:induction false} UnseenEvents(domain: map<Identity, DomainRow>, source: string, events: seq<DomainEvent>)
    ensures forall e :: e in Unseen(domain, source, events) <==> e in events && Identity(source, e.key) !in domain
    ensures forall i :: 0 <= i < |SunkAll(source, Unseen(domain, source, events))| ==>
              SunkAll(source, Unseen(domain, source, events))[i].event in events
  {
    if events != [] {
      var n := |events| - 1;
      UnseenEvents(domain, source, events[..n]);
      assert events == events[..n] + [events[n]];
    }
  }

  lemma AllRecorded(domain: map<Identity, DomainRow>, b: Binding, events: seq<DomainEvent>)
    requires DistinctEvents(events) && Immutable(domain, SourceName(b), events)
    ensures forall i :: 0 <= i < |events| ==> HasEvent(Recorded(domain, b, events), SourceName(b), events[i])
  {
    hide Recorded;
    RecordedRows(domain, b, events);
    assert forall i :: 0 <= i < |events| ==> Mentions(events, events[i].key);
  }

  lemma MentionsNext(events: seq<DomainEvent>, i: nat)
    requires i < |events|
    ensures forall key :: Mentions(events[..i + 1], key) <==> Mentions(events[..i], key) || key == events[i].key
    ensures DistinctEvents(events) ==> !Mentions(events[..i], events[i].key) && DistinctEvents(events[..i])
  {
    var a, c := events[..i], events[..i + 1];
    assert c == a + [events[i]];
    forall key
      ensures Mentions(c, key) <==> Mentions(a, key) || key == events[i].key
    {
      if Mentions(a, key) {
        var j :| 0 <= j < |a| && a[j].key == key;
        assert c[j] == a[j];
      }
      if Mentions(c, key) {
        var j :| 0 <= j < |c| && c[j].key == key;
        assert j < i ==> a[j] == c[j];
      }
      assert c[i] == events[i];
    }
  }

  lemma RecordedNext(domain: map<Identity, DomainRow>, b: Binding, events: seq<DomainEvent>, i: nat)
    requires i < |events| && DistinctEvents(events)
    ensures var source, id, e := SourceName(b), Identity(SourceName(b), events[i].key), events[i];
            var before, unseen := Recorded(domain, b, events[..i]), Unseen(domain, SourceName(b), events[..i]);
            && (id in before <==> id in domain) && (id in domain && id in before ==> before[id] == domain[id])
            && Recorded(domain, b, events[..i + 1]) == (if id in domain then before else before[id := DomainRow(e, b.version)])
            && Unseen(domain, source, events[..i + 1]) == (if id in domain then unseen else unseen + [e])
            && SunkAll(source, unseen + [e]) == SunkAll(source, unseen) + [Sunk(id, e)]
  {
    hide DistinctEvents, Recorded, Unseen, SunkAll, Mentions;
    RecordedRows(domain, b, events[..i]);
    MentionsNext(events, i);
    RecordedLast(domain, b, events, i);
    SunkLast(SourceName(b), Unseen(domain, SourceName(b), events[..i]), events[i]);
  }

  lemma RecordedLast(domain: map<Identity, DomainRow>, b: Binding, events: seq<DomainEvent>, i: nat)
    requires i < |events|
    ensures var id, before := Identity(SourceName(b), events[i].key), Recorded(domain, b, events[..i]);
            Recorded(domain, b, events[..i + 1]) == if id in before then before else before[id := DomainRow(events[i], b.version)]
    ensures var before := Unseen(domain, SourceName(b), events[..i]);
            Unseen(domain, SourceName(b), events[..i + 1]) ==
              if Identity(SourceName(b), events[i].key) in domain then before else before + [events[i]]
  {
    assert events[..i + 1][..i] == events[..i];
  }

  lemma SunkLast(source: string, events: seq<DomainEvent>, e: DomainEvent)
    ensures SunkAll(source, events + [e]) == SunkAll(source, events) + [Sunk(Identity(source, e.key), e)]
  {
  }

  lemma {:induction false} UnseenPrefix(domain: map<Identity, DomainRow>, source: string, events: seq<DomainEvent>, i: nat)
    requires i <= |events|
    ensures Unseen(domain, source, events[..i]) <= Unseen(domain, source, events)
  {
    if i < |events| {
      var n := |events| - 1;
      UnseenPrefix(domain, source, events[..n], i);
      assert events[..n][..i] == events[..i];
    } else {
      assert events[..i] == events;
    }
  }

  lemma ImmutableNext(domain: map<Identity, DomainRow>, source: string, events: seq<DomainEvent>, i: nat)
    requires i < |events|
    ensures var id := Identity(source, events[i].key);
            Immutable(domain, source, events[..i + 1]) <==>
              (Immutable(domain, source, events[..i]) && (id in domain ==> domain[id].event == events[i]))
  {
    var a, c := events[..i], events[..i + 1];
    assert c == a + [events[i]];
    if Immutable(domain, source, c) {
      forall j | 0 <= j < i && Identity(source, a[j].key) in domain
        ensures domain[Identity(source, a[j].key)].event == a[j]
      {
        assert c[j] == a[j];
      }
      assert c[i] == events[i];
    }
  }

  lemma DistinctOf(batch: PollBatch, out: Outside)
    requires ValidBatch(batch, out)
    ensures DistinctEvents(batch.events)
  {
  }

  class EventCollector {
    var cursors: map<string, CursorRow>
    var domain: map<Identity, DomainRow>
    var sunk: seq<Sunk>
    var receipts: map<string, Receipt>

    function View(): Records
      reads this
    {
      Records(cursors, domain, sunk, receipts)
    }

    constructor ()
      ensures View() == NO_RECORDS
    {
      cursors, domain, sunk, receipts := map[], map[], [], map[];
    }

    /** The validation part of `apply`. */
    method Validate(batch: PollBatch, out: Outside) returns (ok: bool)
      ensures ok == ValidBatch(batch, out)
    {
      if |batch.events| > MAX_EVENTS { return false; }
      var keys: set<string> := {};
      for i := 0 to |batch.keys|
        invariant keys == set j | 0 <= j < i :: batch.keys[j]
        invariant forall j :: 0 <= j < i ==> 0 < |batch.keys[j]| <= MAX_KEY
        invariant forall j, k :: 0 <= j < k < i ==> batch.keys[j] != batch.keys[k]
      {
        if batch.keys[i] == "" || |batch.keys[i]| > MAX_KEY || batch.keys[i] in keys { return false; }
        keys := keys + {batch.keys[i]};
      }
      if batch.next.Some? && |batch.next.value| > MAX_CURSOR { return false; }
      var eventKeys: set<string> := {};
      for i := 0 to |batch.events|
        invariant eventKeys == set j | 0 <= j < i :: batch.events[j].key
        invariant forall j :: 0 <= j < i ==> ValidEvent(batch.events[j], out)
        invariant forall j, k :: 0 <= j < k < i ==> batch.events[j].key != batch.events[k].key
      {
        var e := batch.events[i];
        if e.kind == "" || |e.kind| > MAX_TYPE || !e.occurredAt.Aware? || !out.canonical(e) || e.key in eventKeys { return false; }
        eventKeys := eventKeys + {e.key};
      }
      ok := eventKeys == keys;
    }

    /** `collect`: all of it in one command, keyed by the job. */
    method Collect(b: Binding, job: string, poll: Option<string> -> Option<PollBatch>, out: Outside)
      returns (added: Option<nat>)
      modifies this
      ensures (View(), added) == Collected(old(View()), b, job, poll(CursorOf(old(View()), SourceName(b))), out)
    {
      hide ValidBatch;
      if |b.extension| == 0 || |b.extension| > MAX_NAME || |b.version| == 0 || |b.version| > MAX_NAME
         || |b.source| == 0 || |b.source| > MAX_NAME {
        return None;
      }
      if |"poll-job:" + job| > MAX_KEY { return None; }
      var source := SourceName(b);
      if job in receipts {
        return if receipts[job].request == b then Some(receipts[job].added) else None;
      }
      var cursor := if source in cursors then cursors[source].cursor else None;
      var polled := poll(cursor);
      if polled.None? { return None; }
      var batch := polled.value;
      var ok := Validate(batch, out);
      if !ok { return None; }
      DistinctOf(batch, out);
      var newDomain, newSunk, count, done := RecordAll(b, batch.events, out);
      if !done { return None; }
      var version := if source in cursors then cursors[source].version else 0;
      cursors := cursors[source := CursorRow(batch.next, b.version, version + 1)];
      domain, sunk := newDomain, newSunk;
      receipts := receipts[job := Receipt(b, count)];
      added := Some(count);
    }

    /** The recording loop, inside the transaction: it stops at a changed event or when the sink fails. */
    method RecordAll(b: Binding, events: seq<DomainEvent>, out: Outside)
      returns (newDomain: map<Identity, DomainRow>, newSunk: seq<Sunk>, count: nat, done: bool)
      requires DistinctEvents(events)
      ensures var unseen := Unseen(domain, SourceName(b), events);
              && (done <==> Immutable(domain, SourceName(b), events) && forall i :: 0 <= i < |unseen| ==> out.sinks(unseen[i]))
              && (done ==> newDomain == Recorded(domain, b, events) && newSunk == sunk + SunkAll(SourceName(b), unseen)
                           && count == |unseen|)
    {
      hide Recorded, Unseen, SunkAll;
      var source := SourceName(b);
      newDomain, newSunk, count := domain, sunk, 0;
      NothingYet(domain, b);
      for i := 0 to |events|
        invariant newDomain == Recorded(domain, b, events[..i])
        invariant newSunk == sunk + SunkAll(source, Unseen(domain, source, events[..i]))
        invariant count == |Unseen(domain, source, events[..i])|
        invariant Immutable(domain, source, events[..i])
        invariant forall j :: 0 <= j < count ==> out.sinks(Unseen(domain, source, events[..i])[j])
      {
        var e := events[i];
        var id := Identity(source, e.key);
        RecordedNext(domain, b, events, i);
        if id in newDomain {
          if newDomain[id].event != e {
            return newDomain, newSunk, count, false;
          }
        } else {
          newDomain := newDomain[id := DomainRow(e, b.version)];
          if !out.sinks(e) {
            UnseenPrefix(domain, source, events, i + 1);
            assert Unseen(domain, source, events)[count] == e;
            return newDomain, newSunk, count, false;
          }
          newSunk := newSunk + [Sunk(id, e)];
          count := count + 1;
        }
        ImmutableNext(domain, source, events, i);
      }
      assert events[..|events|] == events;
      done := true;
    }
  }

  // ---- every event is recorded and handed over once ----

  /** Recorded events and committed sink calls correspond one to one. */
  ghost predicate SinkOnce(db: Records) {
    && (forall i, j :: 0 <= i < j < |db.sunk| ==> db.sunk[i].id != db.sunk[j].id)
    && (forall i :: 0 <= i < |db.sunk| ==> db.sunk[i].id in db.domain && db.domain[db.sunk[i].id].event == db.sunk[i].event)
    && (forall id :: id in db.domain ==> exists i :: 0 <= i < |db.sunk| && db.sunk[i].id == id)
  }

  lemma {:induction false} UnseenRows(domain: map<Identity, DomainRow>, source: string, events: seq<DomainEvent>)
    requires DistinctEvents(events)
    ensures var unseen := Unseen(domain, source, events);
            && DistinctEvents(unseen)
            && (forall e :: e in unseen <==> e in events && Identity(source, e.key) !in domain)
  {
    if events != [] {
      var n := |events| - 1;
      UnseenRows(domain, source, events[..n]);
      assert events == events[..n] + [events[n]];
      assert forall e :: e in events[..n] ==> e.key != events[n].key;
    }
  }

  lemma SinkKeeps(db: Records, b: Binding, events: seq<DomainEvent>, db': Records)
    requires SinkOnce(db) && DistinctEvents(events)
    requires db'.domain == Recorded(db.domain, b, events)
    requires db'.sunk == db.sunk + SunkAll(SourceName(b), Unseen(db.domain, SourceName(b), events))
    ensures SinkOnce(db')
  {
    hide Recorded, Unseen;
    var source := SourceName(b);
    var unseen := Unseen(db.domain, source, events);
    UnseenRows(db.domain, source, events);
    RecordedRows(db.domain, b, events);
    forall i | 0 <= i < |unseen|
      ensures Identity(source, unseen[i].key) !in db.domain && Identity(source, unseen[i].key) in db'.domain
      ensures db'.domain[Identity(source, unseen[i].key)].event == unseen[i]
    {
      assert unseen[i] in unseen;
      var j :| 0 <= j < |events| && events[j] == unseen[i];
      assert Mentions(events, events[j].key);
    }
    SinkRows(db, source, unseen, db');
    forall id | id in db'.domain
      ensures exists i :: 0 <= i < |db'.sunk| && db'.sunk[i].id == id
    {
      if id in db.domain {
        var i :| 0 <= i < |db.sunk| && db.sunk[i].id == id;
        assert db'.sunk[i].id == id;
      } else {
        var j :| 0 <= j < |events| && events[j].key == id.key;
        assert events[j] in unseen;
        var i :| 0 <= i < |unseen| && unseen[i] == events[j];
        assert db'.sunk[|db.sunk| + i].id == id;
      }
    }
  }

  lemma SinkRows(db: Records, source: string, unseen: seq<DomainEvent>, db': Records)
    requires SinkOnce(db) && db'.sunk == db.sunk + SunkAll(source, unseen) && DistinctEvents(unseen)
    requires forall id :: id in db.domain ==> id in db'.domain && db'.domain[id] == db.domain[id]
    requires forall i :: 0 <= i < |unseen| ==>
      && Identity(source, unseen[i].key) !in db.domain && Identity(source, unseen[i].key) in db'.domain
      && db'.domain[Identity(source, unseen[i].key)].event == unseen[i]
    ensures forall i, j :: 0 <= i < j < |db'.sunk| ==> db'.sunk[i].id != db'.sunk[j].id
    ensures forall i :: 0 <= i < |db'.sunk| ==> db'.sunk[i].id in db'.domain && db'.domain[db'.sunk[i].id].event == db'.sunk[i].event
  {
  }

  lemma CollectKeepsSinkOnce(db: Records, b: Binding, job: string, polled: Option<PollBatch>, out: Outside)
    requires SinkOnce(db)
    ensures SinkOnce(Collected(db, b, job, polled, out).0)
  {
    hide SinkOnce, Recorded, Unseen, SunkAll, ValidBatch;
    var (db', r) := Collected(db, b, job, polled, out);
    if db' != db {
      DistinctOf(polled.value, out);
      SinkKeeps(db, b, polled.value.events, db');
    }
  }

  /** A batch that changes an event recorded under the same key fails as a whole: no record, no sink call, no cursor. */
  lemma ChangedEventNeverAdvances(db: Records, b: Binding, job: string, polled: Option<PollBatch>, out: Outside, i: nat)
    requires polled.Some? && i < |polled.value.events| && Identity(SourceName(b), polled.value.events[i].key) in db.domain
    requires db.domain[Identity(SourceName(b), polled.value.events[i].key)].event != polled.value.events[i]
    ensures Collected(db, b, job, polled, out).0 == db
  {
    hide Recorded, Unseen, SunkAll, ValidBatch;
  }

  /** Running the same job again changes nothing and returns the same answer, whatever the source says this time. */
  lemma ReplayedJob(db: Records, b: Binding, job: string, polled: Option<PollBatch>, out: Outside,
                    again: Option<PollBatch>, out': Outside)
    requires Collected(db, b, job, polled, out).1.Some?
    ensures var (db', r) := Collected(db, b, job, polled, out);
            Collected(db', b, job, again, out') == (db', r)
    ensures var db' := Collected(db, b, job, polled, out).0;
            forall other :: other != b ==> Collected(db', other, job, again, out') == (db', None)
  {
    hide Recorded, Unseen, SunkAll, ValidBatch;
  }
}
