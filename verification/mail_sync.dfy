/**
 The mail store as an object, the synchronisation of one folder, and the bookkeeping of failures.
 */
module MailSync {
  import opened Wrappers
  import T = MailTables
  import opened MailTables
  import opened MailMachine

  class MailStore {
    var states: map<Folder, SyncState>
    var messages: set<MessageKey>
    var locations: map<Location, MessageKey>
    var events: seq<MailEvent>
    var next: nat

    function View(): Tables
      reads this
    {
      Tables(states, messages, locations, events, next)
    }

    constructor ()
      ensures View() == NO_MAIL
    {
      states, messages, locations, events, next := map[], {}, map[], [], 1;
    }

    method SetStateIdle(f: Folder, validity: nat, lastUid: nat)
      modifies this`states
      ensures View() == SetCursor(old(View()), f, validity, lastUid)
    {
      states := states[f := SyncState(validity, lastUid, Idle, None, 0, None)];
    }

    method ResetCursor(f: Folder, validity: nat)
      modifies this`states
      ensures View() == T.ResetCursor(old(View()), f, validity)
    {
      if f in states {
        states := states[f := states[f].(validity := validity, lastUid := 0, status := Reset)];
      } else {
        states := states[f := SyncState(validity, 0, Reset, None, 0, None)];
      }
    }

    method SetStateError(f: Folder, status: Status, error: string, failures: nat, until: Option<int>)
      modifies this`states
      ensures View() == SetError(old(View()), f, status, error, failures, until)
    {
      var row := if f in states then states[f] else SyncState(0, 0, Idle, None, 0, None);
      states := states[f := SyncState(row.validity, row.lastUid, status, Some(error), failures, until)];
    }

    /**
     One transaction for the whole batch. The count it returns twice is taken from the message inserts, and it is
     the number of event rows that were inserted.
     */
    method ApplyBatch(f: Folder, validity: nat, nextUid: nat, batch: seq<Fetched>)
      returns (newMessages: nat, newEvents: nat)
      requires Consistent(View())
      modifies this
      ensures View() == Apply(old(View()), f, validity, nextUid, batch) && Consistent(View())
      ensures newMessages == newEvents == |events| - |old(events)| == |messages| - |old(messages)|
      ensures old(events) <= events
    {
      hide Consistent, EventKey, Put;
      ghost var t0 := View();
      newMessages := 0;
      for i := 0 to |batch|
        invariant View() == PutAll(t0, f, validity, batch[..i]) && Consistent(View())
        invariant |events| == |t0.events| + newMessages && t0.events <= events
      {
        ghost var t := View();
        var m := batch[i];
        var k := MessageKey(f.account, m.dedupe);
        if k !in messages {
          messages := messages + {k};
          newMessages := newMessages + 1;
        }
        locations := locations[Location(f, validity, m.uid) := k];
        if forall j :: 0 <= j < |events| ==> events[j].key != EventKey(k) {
          events := events + [MailEvent(next, EventKey(k), k)];
        }
        next := next + 1;
        Inserted(t, View(), f, validity, m);
        PutKeeps(t, f, validity, m);
        assert batch[..i + 1][..i] == batch[..i];
      }
      assert batch[..|batch|] == batch;
      SetStateIdle(f, validity, nextUid);
      newEvents := newMessages;
      CursorKeeps(PutAll(t0, f, validity, batch), f, validity, nextUid);
      SameCount(t0);
      SameCount(View());
    }

    /** `events_after`: the events beyond a sequence number, in order, at most `limit` of them. */
    method EventsAfter(after: nat, limit: nat) returns (rows: seq<MailEvent>)
      requires Consistent(View())
      ensures IsPage(events, after, limit, rows)
    {
      var from := 0;
      while from < |events| && events[from].sequence <= after
        invariant from <= |events| && forall i :: 0 <= i < from ==> events[i].sequence <= after
      {
        from := from + 1;
      }
      var to := if |events| - from <= limit then |events| else from + limit;
      rows := events[from..to];
      assert PageAt(events, after, from);
    }
  }

  /** Where a page starts: everything before it is at most `after`, everything from there on is greater. */
  ghost predicate PageAt(events: seq<MailEvent>, after: nat, from: nat) {
    && from <= |events| && (forall i :: 0 <= i < from ==> events[i].sequence <= after)
    && (forall i :: from <= i < |events| ==> events[i].sequence > after)
  }

  ghost predicate IsPage(events: seq<MailEvent>, after: nat, limit: nat, rows: seq<MailEvent>) {
    exists from: nat :: PageAt(events, after, from) && rows == events[from..if |events| - from <= limit then |events| else from + limit]
  }

  lemma Inserted(t: Tables, t': Tables, f: Folder, validity: nat, m: Fetched)
    requires var k := MessageKey(f.account, m.dedupe);
             && t'.messages == t.messages + {k} && t'.states == t.states && t'.next == t.next + 1
             && t'.locations == t.locations[Location(f, validity, m.uid) := k]
             && t'.events == if Announced(t.events, EventKey(k)) then t.events else t.events + [MailEvent(t.next, EventKey(k), k)]
    ensures t' == Put(t, f, validity, m)
  {
    hide EventKey;
  }

  lemma CursorKeeps(t: Tables, f: Folder, validity: nat, lastUid: nat)
    requires Consistent(t)
    ensures Consistent(SetCursor(t, f, validity, lastUid))
  {
  }

  lemma SameCount(t: Tables)
    requires Consistent(t)
    ensures |t.events| == |t.messages|
  {
    EventCount(t.events, t.messages);
  }

  // ---- failures ----

  const BASE_BACKOFF_SECONDS := 60
  const MAX_BACKOFF_SECONDS := 3600
  const MAX_FAILURES: nat := 7

  function Pow2(n: nat): nat {
    if n == 0 then 1 else 2 * Pow2(n - 1)
  }

  function Min(a: int, b: int): int {
    if a <= b then a else b
  }

  function BackoffDelay(failures: nat): int {
    Min(BASE_BACKOFF_SECONDS * Pow2(if failures == 0 then 0 else failures - 1), MAX_BACKOFF_SECONDS)
  }

  lemma {:induction false} Pow2Grows(a: nat, b: nat)
    requires a <= b
    ensures Pow2(a) <= Pow2(b)
  {
    if a < b { Pow2Grows(a, b - 1); }
  }

  /** Counting no further than seven failures never shortens the wait. */
  lemma CappedFailures(n: nat)
    ensures BackoffDelay(if n <= MAX_FAILURES then n else MAX_FAILURES) == BackoffDelay(n)
  {
    if n > MAX_FAILURES {
      Pow2Grows(6, n - 1);
      assert Pow2(6) == 64 by { assert Pow2(3) == 8; }
    }
  }

  predicate NeedsUser(code: string) {
    code in {"MAIL_AUTH_FAILED", "MAIL_AUTH_UNSUPPORTED", "MAIL_CREDENTIAL_UNAVAILABLE"}
  }

  function FailOne(t: Tables, f: Folder, code: string, now: int): Tables {
    var failures := if f in t.states then t.states[f].failures else 0;
    var more := if failures + 1 <= MAX_FAILURES then failures + 1 else MAX_FAILURES;
    if NeedsUser(code) then SetError(t, f, NeedsUserAction, code, more, None)
    else SetError(t, f, Backoff, code, more, Some(now + BackoffDelay(more)))
  }

  function FailAll(t: Tables, folders: seq<Folder>, code: string, now: int): Tables {
    if folders == [] then t else FailOne(FailAll(t, folders[..|folders| - 1], code, now), folders[|folders| - 1], code, now)
  }

  /** `_record_failure` */
  method RecordFailure(store: MailStore, folders: seq<Folder>, code: string, now: int)
    modifies store`states
    ensures store.View() == FailAll(old(store.View()), folders, code, now)
  {
    for i := 0 to |folders|
      invariant store.View() == FailAll(old(store.View()), folders[..i], code, now)
    {
      var f := folders[i];
      assert folders[..i + 1][..i] == folders[..i];
      var failures := if f in store.states then store.states[f].failures else 0;
      var more := if failures + 1 <= MAX_FAILURES then failures + 1 else MAX_FAILURES;
      if NeedsUser(code) {
        store.SetStateError(f, NeedsUserAction, code, more, None);
      } else {
        store.SetStateError(f, Backoff, code, more, Some(now + BackoffDelay(more)));
      }
    }
    assert folders[..|folders|] == folders;
  }

  /** Recording failures touches no cursor, no mail and no event. */
  lemma {:induction false} FailuresKeepCursors(t: Tables, folders: seq<Folder>, code: string, now: int, f: Folder)
    ensures var t' := FailAll(t, folders, code, now);
            && t' == t.(states := t'.states) && (f in t'.states <==> f in t.states || f in folders)
            && (f in t'.states ==> if f in t.states then t'.states[f].validity == t.states[f].validity
                                                         && t'.states[f].lastUid == t.states[f].lastUid
                                   else t'.states[f].validity == 0 && t'.states[f].lastUid == 0)
  {
    if folders != [] {
      FailuresKeepCursors(t, folders[..|folders| - 1], code, now, f);
      assert folders == folders[..|folders| - 1] + [folders[|folders| - 1]];
    }
  }

  function FailTimes(t: Tables, f: Folder, code: string, at: seq<int>): Tables {
    if at == [] then t else FailOne(FailTimes(t, f, code, at[..|at| - 1]), f, code, at[|at| - 1])
  }

  /** After n transient failures in a row the folder waits 60 * 2^(n-1) seconds from the last one, at most an hour. */
  lemma {:induction false} ExponentialBackoff(t: Tables, f: Folder, code: string, at: seq<int>)
    requires code !in ["MAIL_AUTH_FAILED", "MAIL_AUTH_UNSUPPORTED", "MAIL_CREDENTIAL_UNAVAILABLE"]
    requires at != [] && (f in t.states ==> t.states[f].failures == 0)
    ensures var t' := FailTimes(t, f, code, at);
            && f in t'.states && t'.states[f].status == Backoff && t'.states[f].error == Some(code)
            && t'.states[f].failures == (if |at| <= MAX_FAILURES then |at| else MAX_FAILURES)
            && t'.states[f].backoffUntil == Some(at[|at| - 1] + Min(60 * Pow2(|at| - 1), 3600))
  {
    if |at| > 1 { ExponentialBackoff(t, f, code, at[..|at| - 1]); }
    CappedFailures(|at|);
  }

  // ---- one folder ----

  datatype Reply = Refused(code: string) | Batch(validity: nat, messages: seq<Fetched>)

  type Fetcher = (nat, nat, nat) -> Reply

  datatype FolderReport = FolderReport(status: Status, newMessages: nat, events: nat, scanned: nat)

  predicate BackoffActive(row: SyncState, now: int) {
    row.backoffUntil.Some? && row.backoffUntil.value > now
  }

  /** Whether this folder must not be asked now. */
  predicate Waits(states: map<Folder, SyncState>, f: Folder, force: bool, now: int) {
    f in states && !force && (states[f].status == NeedsUserAction || BackoffActive(states[f], now))
  }

  function MaxUid(chunk: seq<Fetched>): nat
    requires chunk != []
  {
    if |chunk| == 1 then chunk[0].uid
    else
      var before := MaxUid(chunk[..|chunk| - 1]);
      if before <= chunk[|chunk| - 1].uid then chunk[|chunk| - 1].uid else before
  }

  lemma {:induction false} MaxUidLast(chunk: seq<Fetched>)
    requires chunk != [] && Ascending(chunk)
    ensures MaxUid(chunk) == chunk[|chunk| - 1].uid
  {
    if |chunk| > 1 { MaxUidLast(chunk[..|chunk| - 1]); }
  }

  method HighestUid(chunk: seq<Fetched>) returns (uid: nat)
    requires chunk != []
    ensures uid == MaxUid(chunk)
  {
    uid := chunk[0].uid;
    assert chunk[..1][0] == chunk[0];
    for i := 1 to |chunk|
      invariant uid == MaxUid(chunk[..i])
    {
      assert chunk[..i + 1][..i] == chunk[..i];
      if uid <= chunk[i].uid { uid := chunk[i].uid; }
    }
    assert chunk[..|chunk|] == chunk;
  }

  /** The tables after all chunks have been committed one after the other. */
  function ApplyChunks(t: Tables, f: Folder, validity: nat, messages: seq<Fetched>): Tables
    decreases |messages|
  {
    if messages == [] then t
    else
      var chunk := FirstChunk(messages);
      ApplyChunks(Apply(t, f, validity, MaxUid(chunk), chunk), f, validity, messages[|chunk|..])
  }

  method CommitChunks(store: MailStore, f: Folder, validity: nat, messages: seq<Fetched>) returns (newMessages: nat, events: nat)
    requires Consistent(store.View())
    modifies store
    ensures store.View() == ApplyChunks(old(store.View()), f, validity, messages) && Consistent(store.View())
    ensures newMessages == events == |store.events| - |old(store.events)|
  {
    hide Consistent, Apply, MaxUid;
    newMessages, events := 0, 0;
    var start := 0;
    assert messages[0..] == messages;
    while start < |messages|
      invariant 0 <= start <= |messages| && Consistent(store.View())
      invariant ApplyChunks(store.View(), f, validity, messages[start..]) == ApplyChunks(old(store.View()), f, validity, messages)
      invariant newMessages == events == |store.events| - |old(store.events)|
    {
      var end := if |messages| - start <= MAX_BATCH_MESSAGES then |messages| else start + MAX_BATCH_MESSAGES;
      var chunk := messages[start..end];
      assert chunk == FirstChunk(messages[start..]) && messages[start..][|chunk|..] == messages[end..];
      var nextUid := HighestUid(chunk);
      var n, e := store.ApplyBatch(f, validity, nextUid, chunk);
      newMessages, events := newMessages + n, events + e;
      start := end;
    }
  }

  /** `_sync_folder` */
  method SyncFolder(store: MailStore, f: Folder, force: bool, limit: nat, now: int, fetch: Fetcher, refetch: Fetcher)
    returns (report: FolderReport)
    requires Consistent(store.View())
    modifies store
    ensures (store.View(), report) == Synced(old(store.View()), f, force, limit, now, fetch, refetch, report.newMessages)
    ensures Consistent(store.View())
    ensures report.newMessages == report.events == |store.events| - |old(store.events)|
  {
    hide Consistent, ApplyChunks;
    if Waits(store.states, f, force, now) {
      return FolderReport(if store.states[f].status == NeedsUserAction then NeedsUserAction else Backoff, 0, 0, 0);
    }
    var validity := if f in store.states then store.states[f].validity else 0;
    var lastUid := if f in store.states then store.states[f].lastUid else 0;
    var reset := false;
    var batch := fetch(validity, StartUid(validity, lastUid), limit);
    if batch.Refused? {
      OneFailure(store.View(), f, batch.code, now);
      RecordFailure(store, [f], batch.code, now);
      return FolderReport(if NeedsUser(batch.code) then NeedsUserAction else Backoff, 0, 0, 0);
    }
    if validity != 0 && batch.validity != 0 && batch.validity != validity {
      StateKeeps(store.View(), T.ResetCursor(store.View(), f, batch.validity));
      store.ResetCursor(f, batch.validity);
      reset := true;
      batch := refetch(batch.validity, 0, limit);
      if batch.Refused? {
        OneFailure(store.View(), f, batch.code, now);
        RecordFailure(store, [f], batch.code, now);
        return FolderReport(if NeedsUser(batch.code) then NeedsUserAction else Backoff, 0, 0, 0);
      }
    }
    if batch.messages == [] {
      if batch.validity != 0 {
        CursorKeeps(store.View(), f, batch.validity, if reset then 0 else lastUid);
        store.SetStateIdle(f, batch.validity, if reset then 0 else lastUid);
      }
      return FolderReport(Idle, 0, 0, 0);
    }
    var newMessages, events := CommitChunks(store, f, batch.validity, batch.messages);
    report := FolderReport(Idle, newMessages, events, |batch.messages|);
  }

  lemma StateKeeps(t: Tables, t': Tables)
    requires Consistent(t) && t' == t.(states := t'.states)
    ensures Consistent(t')
  {
  }

  lemma OneFailure(t: Tables, f: Folder, code: string, now: int)
    requires Consistent(t)
    ensures FailAll(t, [f], code, now) == FailOne(t, f, code, now)
    ensures Consistent(FailOne(t, f, code, now)) && FailOne(t, f, code, now).events == t.events
  {
    assert [f][..0] == [];
  }

  /** What one synchronisation does to the tables, apart from how many of the messages were new. */
  function Synced(t: Tables, f: Folder, force: bool, limit: nat, now: int, fetch: Fetcher, refetch: Fetcher, count: nat)
    : (Tables, FolderReport)
  {
    var failed := (code: string) => FolderReport(if NeedsUser(code) then NeedsUserAction else Backoff, 0, 0, 0);
    if Waits(t.states, f, force, now) then
      (t, FolderReport(if t.states[f].status == NeedsUserAction then NeedsUserAction else Backoff, 0, 0, 0))
    else
      var v := if f in t.states then t.states[f].validity else 0;
      var u := if f in t.states then t.states[f].lastUid else 0;
      match fetch(v, StartUid(v, u), limit)
      case Refused(code) => (FailOne(t, f, code, now), failed(code))
      case Batch(bv, messages) =>
        if v != 0 && bv != 0 && bv != v then
          var t' := T.ResetCursor(t, f, bv);
          match refetch(bv, 0, limit)
          case Refused(code) => (FailOne(t', f, code, now), failed(code))
          case Batch(bv', messages') => Stored(t', f, bv', 0, messages', count)
        else Stored(t, f, bv, u, messages, count)
  }

  function Stored(t: Tables, f: Folder, validity: nat, lastUid: nat, messages: seq<Fetched>, count: nat): (Tables, FolderReport) {
    if messages != [] then (ApplyChunks(t, f, validity, messages), FolderReport(Idle, count, count, |messages|))
    else (if validity != 0 then SetCursor(t, f, validity, lastUid) else t, FolderReport(Idle, 0, 0, 0))
  }

  // ---- progress ----

  ghost predicate Faithful(b: Mailbox, fetch: Fetcher, limit: nat) {
    forall v, start :: fetch(v, start, limit).Batch? ==>
      fetch(v, start, limit).validity == b.validity && IsFetch(b, start, limit, fetch(v, start, limit).messages)
  }

  /** The mail that a folder's cursor has not reached. */
  ghost function PendingUids(b: Mailbox, states: map<Folder, SyncState>, f: Folder): set<nat> {
    set uid | uid in b.letters && !(f in states && states[f].validity == b.validity && uid <= states[f].lastUid)
  }

  ghost predicate FolderOk(b: Mailbox, t: Tables, f: Folder) {
    f in t.states ==> CursorOk(b, t, f, t.states[f].validity, t.states[f].lastUid)
  }

  lemma {:induction false} ChunksStored(b: Mailbox, t: Tables, f: Folder, v: nat, done: nat, rest: seq<Fetched>)
    requires Consistent(t) && v > 0 && BoxOk(b) && CursorOk(b, t, f, v, done) && RestOk(b, v, done, rest)
    ensures var t' := ApplyChunks(t, f, v, rest);
            && CursorOk(b, t', f, v, rest[|rest| - 1].uid)
            && f in t'.states && t'.states[f].validity == v && t'.states[f].lastUid == rest[|rest| - 1].uid
    decreases |rest|
  {
    hide Consistent, CursorOk, KeepsMail, BoxOk, Apply;
    var boxes := map[f := b];
    var chunk := FirstChunk(rest);
    var n := |chunk|;
    assert chunk == rest[..n];
    MaxUidLast(chunk);
    ChunkStored(boxes, t, f, v, done, rest, n);
    var t' := Apply(t, f, v, rest[n - 1].uid, chunk);
    if n < |rest| {
      ChunksStored(b, t', f, v, rest[n - 1].uid, rest[n..]);
    } else {
      assert rest[n..] == [];
      Cursor(t, f, v, rest[n - 1].uid, chunk);
    }
  }

  lemma Cursor(t: Tables, f: Folder, v: nat, u: nat, chunk: seq<Fetched>)
    ensures f in Apply(t, f, v, u, chunk).states
    ensures Apply(t, f, v, u, chunk).states[f].validity == v && Apply(t, f, v, u, chunk).states[f].lastUid == u
  {
  }

  ghost function Above(b: Mailbox, uid: nat): set<nat> {
    set x | x in b.letters && x > uid
  }

  /** Storing what was fetched above `u` leaves strictly less above the new cursor, unless nothing was there. */
  lemma StoredProgress(t: Tables, b: Mailbox, f: Folder, u: nat, start: nat, limit: nat, messages: seq<Fetched>, count: nat)
    requires Consistent(t) && BoxOk(b) && limit > 0 && CursorOk(b, t, f, b.validity, u)
    requires IsFetch(b, start, limit, messages) && (start == u + 1 || (start == 0 && u == 0))
    ensures var t' := Stored(t, f, b.validity, u, messages, count).0;
            && FolderOk(b, t', f)
            && PendingUids(b, t'.states, f) <= Above(b, u)
            && (Above(b, u) != {} ==> PendingUids(b, t'.states, f) < Above(b, u))
  {
    hide Consistent, HasMail, InBatch, ApplyChunks;
    if messages == [] {
      assert Above(b, u) == {} by { NothingAbove(b, u, start, limit); }
      StateKeeps(t, SetCursor(t, f, b.validity, u));
      CursorMonotoneHere(b, t, f, b.validity, u);
    } else {
      RestFetched(b, u, start, limit, messages);
      ChunksStored(b, t, f, b.validity, u, messages);
      assert messages[0].uid in Above(b, u);
      assert messages[0].uid <= messages[|messages| - 1].uid;
    }
  }

  lemma NothingAbove(b: Mailbox, u: nat, start: nat, limit: nat)
    requires limit > 0 && IsFetch(b, start, limit, []) && (start == u + 1 || (start == 0 && u == 0))
    ensures Above(b, u) == {}
  {
    forall uid | uid in b.letters && uid > u
      ensures InBatch([], uid)
    {
    }
  }

  lemma RestFetched(b: Mailbox, u: nat, start: nat, limit: nat, messages: seq<Fetched>)
    requires BoxOk(b) && IsFetch(b, start, limit, messages) && (start == u + 1 || (start == 0 && u == 0)) && messages != []
    ensures RestOk(b, b.validity, u, messages)
  {
    hide InBatch;
  }

  lemma CursorMonotoneHere(b: Mailbox, t: Tables, f: Folder, v: nat, u: nat)
    requires CursorOk(b, t, f, v, u)
    ensures CursorOk(b, SetCursor(t, f, v, u), f, v, u)
  {
  }

  /**
   A synchronisation leaves a cursor below which all mail is stored; if it ends well and mail was pending, strictly less
   of it is pending now.
   */
  lemma SyncProgress(t: Tables, b: Mailbox, f: Folder, force: bool, limit: nat, now: int, fetch: Fetcher, refetch: Fetcher, count: nat)
    requires Consistent(t) && BoxOk(b) && FolderOk(b, t, f) && limit > 0
    requires Faithful(b, fetch, limit) && Faithful(b, refetch, limit)
    ensures var (t', report) := Synced(t, f, force, limit, now, fetch, refetch, count);
            && FolderOk(b, t', f)
            && PendingUids(b, t'.states, f) <= PendingUids(b, t.states, f)
            && (report.status == Idle && PendingUids(b, t.states, f) != {} ==>
                  PendingUids(b, t'.states, f) < PendingUids(b, t.states, f))
  {
    hide Consistent, BoxOk, IsFetch, Faithful, CursorOk, PendingUids, Stored, FailOne, T.ResetCursor;
    if !Waits(t.states, f, force, now) {
      var v := if f in t.states then t.states[f].validity else 0;
      var u := if f in t.states then t.states[f].lastUid else 0;
      FaithfulAt(b, fetch, limit, v, StartUid(v, u));
      match fetch(v, StartUid(v, u), limit)
      case Refused(code) => FailedFolder(t, b, f, code, now);
      case Batch(bv, messages) =>
        if v != 0 && bv != v {
          var t' := T.ResetCursor(t, f, bv);
          Restarted(t, b, f);
          FaithfulAt(b, refetch, limit, bv, 0);
          match refetch(bv, 0, limit) {
            case Refused(code) => FailedFolder(t', b, f, code, now);
            case Batch(_, messages') => StoredProgress(t', b, f, 0, 0, limit, messages', count);
          }
        } else {
          Continued(t, b, f);
          StoredProgress(t, b, f, u, StartUid(v, u), limit, messages, count);
        }
    }
  }

  lemma Continued(t: Tables, b: Mailbox, f: Folder)
    requires BoxOk(b) && FolderOk(b, t, f)
    requires f !in t.states || t.states[f].validity == 0 || t.states[f].validity == b.validity
    ensures var u := if f in t.states then t.states[f].lastUid else 0;
            && CursorOk(b, t, f, b.validity, u) && PendingUids(b, t.states, f) == Above(b, u)
            && (f !in t.states || t.states[f].validity == 0 ==> u == 0)
  {
    hide HasMail;
  }

  lemma Restarted(t: Tables, b: Mailbox, f: Folder)
    requires Consistent(t) && BoxOk(b) && f in t.states && t.states[f].validity != b.validity
    ensures var t' := T.ResetCursor(t, f, b.validity);
            && Consistent(t') && FolderOk(b, t', f) && CursorOk(b, t', f, b.validity, 0)
            && PendingUids(b, t'.states, f) == Above(b, 0) == PendingUids(b, t.states, f)
  {
    hide HasMail;
    StateKeeps(t, T.ResetCursor(t, f, b.validity));
  }

  lemma FailedFolder(t: Tables, b: Mailbox, f: Folder, code: string, now: int)
    requires BoxOk(b) && FolderOk(b, t, f)
    ensures var t' := FailOne(t, f, code, now);
            FolderOk(b, t', f) && PendingUids(b, t'.states, f) == PendingUids(b, t.states, f)
  {
    hide BackoffDelay;
  }

  lemma FaithfulAt(b: Mailbox, fetch: Fetcher, limit: nat, v: nat, start: nat)
    requires Faithful(b, fetch, limit) && BoxOk(b)
    ensures fetch(v, start, limit).Batch? ==> fetch(v, start, limit).validity == b.validity > 0
                                              && IsFetch(b, start, limit, fetch(v, start, limit).messages)
  {
    hide IsFetch;
  }

  // ---- when a folder is asked ----

  ghost predicate Answering(fetch: Fetcher) {
    forall v, start, limit :: fetch(v, start, limit).Batch?
  }

  /**
   Read off the columns of the row: without force, a folder that needs the user or whose deadline lies ahead is left alone.
   Any other is asked, and when the host answers the synchronisation ends well.
   */
  lemma AskedUnlessWaiting(t: Tables, f: Folder, force: bool, limit: nat, now: int, fetch: Fetcher, refetch: Fetcher, count: nat)
    requires Answering(fetch) && Answering(refetch)
    ensures var (t', report) := Synced(t, f, force, limit, now, fetch, refetch, count);
            if f in t.states && !force
               && (t.states[f].status == NeedsUserAction || (t.states[f].backoffUntil.Some? && now < t.states[f].backoffUntil.value))
            then t' == t && report == FolderReport(if t.states[f].status == NeedsUserAction then NeedsUserAction else Backoff, 0, 0, 0)
            else
              var v, u := if f in t.states then t.states[f].validity else 0, if f in t.states then t.states[f].lastUid else 0;
              var first := fetch(v, if v == 0 then 0 else u + 1, limit);
              var used := if v != 0 && first.validity != 0 && first.validity != v then refetch(first.validity, 0, limit) else first;
              report.status == Idle && report.newMessages == report.events && report.scanned == |used.messages|
  {
    hide ApplyChunks;
  }

  /**
   With a host that answers truthfully, a folder that need not wait has strictly less mail pending afterwards, if there was
   any, and its failures are forgotten.
   */
  lemma AskedMakesProgress(t: Tables, b: Mailbox, f: Folder, force: bool, limit: nat, now: int, fetch: Fetcher, refetch: Fetcher, count: nat)
    requires Consistent(t) && BoxOk(b) && FolderOk(b, t, f) && limit > 0
    requires Faithful(b, fetch, limit) && Faithful(b, refetch, limit) && Answering(fetch) && Answering(refetch)
    requires f in t.states && !force ==>
               t.states[f].status != NeedsUserAction && (t.states[f].backoffUntil.Some? ==> t.states[f].backoffUntil.value <= now)
    ensures var t' := Synced(t, f, force, limit, now, fetch, refetch, count).0;
            && Recovered(t', f)
            && (PendingUids(b, t.states, f) != {} ==> PendingUids(b, t'.states, f) < PendingUids(b, t.states, f))
  {
    hide Consistent, BoxOk, IsFetch, Faithful, CursorOk, PendingUids, Stored, T.ResetCursor;
    SyncProgress(t, b, f, force, limit, now, fetch, refetch, count);
    AskedUnlessWaiting(t, f, force, limit, now, fetch, refetch, count);
    var v := if f in t.states then t.states[f].validity else 0;
    var u := if f in t.states then t.states[f].lastUid else 0;
    var first := fetch(v, StartUid(v, u), limit);
    var second := refetch(first.validity, 0, limit);
    FaithfulAt(b, fetch, limit, v, StartUid(v, u));
    FaithfulAt(b, refetch, limit, first.validity, 0);
    StoredRecovers(t, f, first.validity, u, first.messages, count);
    StoredRecovers(T.ResetCursor(t, f, first.validity), f, second.validity, 0, second.messages, count);
  }

  lemma StoredRecovers(t: Tables, f: Folder, validity: nat, lastUid: nat, messages: seq<Fetched>, count: nat)
    requires validity > 0
    ensures Recovered(Stored(t, f, validity, lastUid, messages, count).0, f)
  {
    hide ApplyChunks;
    if messages != [] { ChunksRecover(t, f, validity, messages); }
  }

  /** Nothing is left of earlier failures. */
  predicate Recovered(t: Tables, f: Folder) {
    f in t.states && t.states[f].status == Idle && t.states[f].error == None && t.states[f].failures == 0 && t.states[f].backoffUntil == None
  }

  lemma {:induction false} ChunksRecover(t: Tables, f: Folder, validity: nat, messages: seq<Fetched>)
    requires messages != []
    ensures Recovered(ApplyChunks(t, f, validity, messages), f)
    decreases |messages|
  {
    hide MaxUid;
    var chunk := FirstChunk(messages);
    if |chunk| < |messages| {
      ChunksRecover(Apply(t, f, validity, MaxUid(chunk), chunk), f, validity, messages[|chunk|..]);
    }
  }

  /** After n transient failures in a row the folder is asked again exactly from 60 * 2^(n-1) seconds, at most an hour, on. */
  lemma AskedFromDeadline(t: Tables, f: Folder, code: string, at: seq<int>, limit: nat, now: int, fetch: Fetcher, refetch: Fetcher, count: nat)
    requires Answering(fetch) && Answering(refetch)
    requires code !in ["MAIL_AUTH_FAILED", "MAIL_AUTH_UNSUPPORTED", "MAIL_CREDENTIAL_UNAVAILABLE"]
    requires at != [] && (f in t.states ==> t.states[f].failures == 0)
    ensures var t' := FailTimes(t, f, code, at);
            Synced(t', f, false, limit, now, fetch, refetch, count).1.status == Idle <==>
              now >= at[|at| - 1] + Min(60 * Pow2(|at| - 1), 3600)
  {
    hide FailTimes, Synced;
    ExponentialBackoff(t, f, code, at);
    AskedUnlessWaiting(FailTimes(t, f, code, at), f, false, limit, now, fetch, refetch, count);
  }

  /** When the host refuses, the code is recorded and reported, and no mail, event or cursor is touched. */
  lemma RefusalRecorded(t: Tables, f: Folder, force: bool, limit: nat, now: int, fetch: Fetcher, refetch: Fetcher, count: nat, code: string)
    requires f in t.states && !force ==>
               t.states[f].status != NeedsUserAction && (t.states[f].backoffUntil.Some? ==> t.states[f].backoffUntil.value <= now)
    requires forall v, start, n :: fetch(v, start, n) == Refused(code)
    ensures var (t', report) := Synced(t, f, force, limit, now, fetch, refetch, count);
            var user := code in ["MAIL_AUTH_FAILED", "MAIL_AUTH_UNSUPPORTED", "MAIL_CREDENTIAL_UNAVAILABLE"];
            && report == FolderReport(if user then NeedsUserAction else Backoff, 0, 0, 0)
            && f in t'.states && t'.states[f].status == report.status && t'.states[f].error == Some(code)
            && t'.states[f].failures == Min((if f in t.states then t.states[f].failures else 0) + 1, 7)
            && (t'.states[f].backoffUntil.None? <==> user)
            && t' == t.(states := t'.states) && t'.states == t.states[f := t'.states[f]]
            && (f in t.states ==> t'.states[f].validity == t.states[f].validity && t'.states[f].lastUid == t.states[f].lastUid)
  {
    hide BackoffDelay;
  }

  /** A renumbered mailbox does not excuse earlier failures: one during the refetch counts on from them. */
  lemma FailureAfterReset(t: Tables, f: Folder, validity: nat, code: string, now: int)
    requires f in t.states && code !in ["MAIL_AUTH_FAILED", "MAIL_AUTH_UNSUPPORTED", "MAIL_CREDENTIAL_UNAVAILABLE"]
    ensures var row := FailOne(T.ResetCursor(t, f, validity), f, code, now).states[f];
            && row.validity == validity && row.lastUid == 0
            && row.failures == Min(t.states[f].failures + 1, 7) && row.backoffUntil == Some(now + BackoffDelay(row.failures))
    ensures T.ResetCursor(t, f, validity).states[f].backoffUntil == t.states[f].backoffUntil
  {
    hide BackoffDelay;
  }

  /** After an error that only the user can resolve the folder is asked again exactly when forced. */
  lemma AskedWhenForced(t: Tables, f: Folder, code: string, failedAt: int, force: bool, limit: nat, now: int,
                        fetch: Fetcher, refetch: Fetcher, count: nat)
    requires Answering(fetch) && Answering(refetch)
    requires code in ["MAIL_AUTH_FAILED", "MAIL_AUTH_UNSUPPORTED", "MAIL_CREDENTIAL_UNAVAILABLE"]
    ensures Synced(FailOne(t, f, code, failedAt), f, force, limit, now, fetch, refetch, count).1.status == Idle <==> force
    ensures var t' := FailOne(t, f, code, failedAt);
            f in t'.states && t'.states[f].status == NeedsUserAction && t'.states[f].error == Some(code) && t'.states[f].backoffUntil == None
  {
    hide Synced, BackoffDelay;
    AskedUnlessWaiting(FailOne(t, f, code, failedAt), f, force, limit, now, fetch, refetch, count);
  }
}
