/**
 Any number of concurrent synchronisations against mailboxes that receive, lose and renumber mail. A UIDVALIDITY
 value only ever increases, and under one value a UID is never given to a second message (sections 2.3.1.1
 of RFC 3501).
 */
module MailMachine {
  import opened Wrappers
  import opened MailTables

  const MAX_BATCH_MESSAGES: nat := 25

  datatype Mailbox = Mailbox(validity: nat, uidNext: nat, letters: map<nat, Dedupe>)

  ghost predicate BoxOk(b: Mailbox) {
    b.validity > 0 && b.uidNext > 0 && forall uid :: uid in b.letters ==> 0 < uid < b.uidNext
  }

  predicate Ascending(batch: seq<Fetched>) {
    forall i, j :: 0 <= i < j < |batch| ==> batch[i].uid < batch[j].uid
  }

  ghost predicate InBatch(batch: seq<Fetched>, uid: nat) {
    exists i :: 0 <= i < |batch| && batch[i].uid == uid
  }

  /** The lowest `limit` messages with a UID of at least `start`, in ascending order. */
  ghost predicate IsFetch(b: Mailbox, start: nat, limit: nat, batch: seq<Fetched>) {
    && |batch| <= limit && Ascending(batch)
    && (forall i :: 0 <= i < |batch| ==> start <= batch[i].uid && batch[i].uid in b.letters
                                         && b.letters[batch[i].uid] == batch[i].dedupe)
    && (forall uid :: uid in b.letters && start <= uid && (|batch| < limit || (batch != [] && uid <= batch[|batch| - 1].uid)) ==>
          InBatch(batch, uid))
  }

  /** Where a synchronisation of one folder stands, with what it remembers. */
  datatype Sync =
    | Reading(folder: Folder, validity: nat, lastUid: nat)
    | Mismatched(folder: Folder, validity: nat)
    | Refetching(folder: Folder)
    | Nothing(folder: Folder, validity: nat, lastUid: nat)
    | Applying(folder: Folder, validity: nat, done: nat, rest: seq<Fetched>)

  datatype World = World(boxes: map<Folder, Mailbox>, t: Tables, syncs: map<nat, Sync>)

  datatype Step =
    | Deliver(folder: Folder, uid: nat, dedupe: Dedupe)
    | Expunge(folder: Folder, uid: nat)
    | Renumber(folder: Folder, box: Mailbox)
    | Begin(id: nat, folder: Folder)
    | Fetch(id: nat, limit: nat, batch: seq<Fetched>)
    | ResetTo(id: nat)
    | Commit(id: nat)
    | Rest(id: nat)
    | Fail(folder: Folder, status: Status, error: string, failures: nat, until: Option<int>)
    | Crash(id: nat)

  /** The first UID a folder is asked for. */
  function StartUid(validity: nat, lastUid: nat): nat {
    if validity == 0 then 0 else lastUid + 1
  }

  function After(batch: seq<Fetched>, f: Folder, validity: nat, lastUid: nat): Sync {
    if batch == [] then Nothing(f, validity, lastUid) else Applying(f, validity, lastUid, batch)
  }

  ghost predicate Enabled(w: World, s: Step) {
    match s
    case Deliver(f, uid, _) => f in w.boxes && w.boxes[f].uidNext <= uid
    case Expunge(f, uid) => f in w.boxes
    case Renumber(f, box) => f in w.boxes && BoxOk(box) && w.boxes[f].validity < box.validity
    case Begin(id, f) => id !in w.syncs && f in w.boxes
    case Fetch(id, limit, batch) =>
      && id in w.syncs && limit > 0 && w.syncs[id].folder in w.boxes
      && match w.syncs[id] {
           case Reading(f, v, u) => IsFetch(w.boxes[f], StartUid(v, u), limit, batch)
           case Refetching(f) => IsFetch(w.boxes[f], 0, limit, batch)
           case _ => false
         }
    case ResetTo(id) => id in w.syncs && w.syncs[id].Mismatched?
    case Commit(id) => id in w.syncs && w.syncs[id].Applying? && w.syncs[id].rest != []
    case Rest(id) => id in w.syncs && w.syncs[id].Nothing?
    case Fail(f, _, _, _, _) => f in w.boxes
    case Crash(id) => id in w.syncs
  }

  function FirstChunk(rest: seq<Fetched>): (chunk: seq<Fetched>) {
    if |rest| <= MAX_BATCH_MESSAGES then rest else rest[..MAX_BATCH_MESSAGES]
  }

  /** What is committed together: the next 25 messages, or all that are left. */
  lemma ChunkSize(rest: seq<Fetched>)
    ensures FirstChunk(rest) <= rest && |FirstChunk(rest)| <= 25 && (|FirstChunk(rest)| < 25 ==> FirstChunk(rest) == rest)
  {
  }

  ghost function Do(w: World, s: Step): World
    requires Enabled(w, s)
  {
    match s
    case Deliver(f, uid, d) =>
      var b := w.boxes[f];
      w.(boxes := w.boxes[f := b.(uidNext := uid + 1, letters := b.letters[uid := d])])
    case Expunge(f, uid) => w.(boxes := w.boxes[f := w.boxes[f].(letters := w.boxes[f].letters - {uid})])
    case Renumber(f, box) => w.(boxes := w.boxes[f := box])
    case Begin(id, f) =>
      var sync := if f in w.t.states then Reading(f, w.t.states[f].validity, w.t.states[f].lastUid) else Reading(f, 0, 0);
      w.(syncs := w.syncs[id := sync])
    case Fetch(id, _, batch) =>
      var now := w.boxes[w.syncs[id].folder].validity;
      var sync := match w.syncs[id] {
        case Reading(f, v, u) => if v != 0 && now != v then Mismatched(f, now) else After(batch, f, now, u)
        case other => After(batch, other.folder, now, 0)
      };
      w.(syncs := w.syncs[id := sync])
    case ResetTo(id) =>
      w.(t := ResetCursor(w.t, w.syncs[id].folder, w.syncs[id].validity),
         syncs := w.syncs[id := Refetching(w.syncs[id].folder)])
    case Commit(id) =>
      var Applying(f, v, done, rest) := w.syncs[id];
      var chunk := FirstChunk(rest);
      var last := chunk[|chunk| - 1].uid;
      var later := rest[|chunk|..];
      w.(t := Apply(w.t, f, v, last, chunk),
         syncs := if later == [] then w.syncs - {id} else w.syncs[id := Applying(f, v, last, later)])
    case Rest(id) =>
      w.(t := SetCursor(w.t, w.syncs[id].folder, w.syncs[id].validity, w.syncs[id].lastUid), syncs := w.syncs - {id})
    case Fail(f, status, error, failures, until) => w.(t := SetError(w.t, f, status, error, failures, until))
    case Crash(id) => w.(syncs := w.syncs - {id})
  }

  // ---- the invariant ----

  ghost predicate HasMail(t: Tables, f: Folder, validity: nat, uid: nat, d: Dedupe) {
    var l, k := Location(f, validity, uid), MessageKey(f.account, d);
    l in t.locations && t.locations[l] == k && k in t.messages
  }

  /** Everything in the mailbox up to this cursor is stored, provided the cursor's UIDVALIDITY is still in force. */
  ghost predicate CursorOk(b: Mailbox, t: Tables, f: Folder, validity: nat, lastUid: nat) {
    && validity <= b.validity && (validity == 0 ==> lastUid == 0)
    && (validity == b.validity ==> lastUid < b.uidNext && forall uid :: uid in b.letters && uid <= lastUid ==>
          HasMail(t, f, validity, uid, b.letters[uid]))
  }

  /** What is still to be committed leaves no gap above `done`. */
  ghost predicate RestOk(b: Mailbox, validity: nat, done: nat, rest: seq<Fetched>) {
    && rest != [] && Ascending(rest) && done < rest[0].uid
    && (validity == b.validity ==>
          && rest[|rest| - 1].uid < b.uidNext
          && (forall i :: 0 <= i < |rest| && rest[i].uid in b.letters ==> b.letters[rest[i].uid] == rest[i].dedupe)
          && (forall uid :: uid in b.letters && done < uid <= rest[|rest| - 1].uid ==> InBatch(rest, uid)))
  }

  ghost predicate SyncOk(b: Mailbox, t: Tables, sync: Sync) {
    match sync
    case Reading(f, v, u) => CursorOk(b, t, f, v, u)
    case Mismatched(f, v) => 0 < v <= b.validity
    case Refetching(f) => true
    case Nothing(f, v, u) => v > 0 && CursorOk(b, t, f, v, u)
    case Applying(f, v, done, rest) => v > 0 && CursorOk(b, t, f, v, done) && RestOk(b, v, done, rest)
  }

  ghost predicate Inv(w: World) {
    && Consistent(w.t)
    && (forall f :: f in w.boxes ==> BoxOk(w.boxes[f]))
    && (forall f :: f in w.t.states ==> f in w.boxes && CursorOk(w.boxes[f], w.t, f, w.t.states[f].validity, w.t.states[f].lastUid))
    && (forall id :: id in w.syncs ==> w.syncs[id].folder in w.boxes && SyncOk(w.boxes[w.syncs[id].folder], w.t, w.syncs[id]))
  }

  // ---- mailbox steps ----

  /** Mailboxes change only so: letters keep their UIDs while the UIDVALIDITY stands, and new ones get higher UIDs. */
  ghost predicate BoxStep(b: Mailbox, b': Mailbox) {
    && b.validity <= b'.validity && BoxOk(b')
    && (b.validity == b'.validity ==> b.uidNext <= b'.uidNext && forall uid :: uid in b'.letters && uid < b.uidNext ==>
          uid in b.letters && b'.letters[uid] == b.letters[uid])
  }

  lemma BoxStepKeeps(b: Mailbox, b': Mailbox, t: Tables, sync: Sync)
    requires BoxStep(b, b') && SyncOk(b, t, sync)
    ensures SyncOk(b', t, sync)
  {
    hide HasMail, InBatch;
  }

  lemma CursorStepKeeps(b: Mailbox, b': Mailbox, t: Tables, f: Folder, v: nat, u: nat)
    requires BoxStep(b, b') && CursorOk(b, t, f, v, u)
    ensures CursorOk(b', t, f, v, u)
  {
    hide HasMail;
  }

  lemma BoxesKeep(w: World, w': World, f: Folder)
    requires Inv(w) && f in w.boxes && f in w'.boxes && w' == w.(boxes := w'.boxes) && w'.boxes == w.boxes[f := w'.boxes[f]]
    requires BoxStep(w.boxes[f], w'.boxes[f])
    ensures Inv(w')
  {
    hide CursorOk, SyncOk, Consistent;
    forall g | g in w'.t.states
      ensures g in w'.boxes && CursorOk(w'.boxes[g], w'.t, g, w'.t.states[g].validity, w'.t.states[g].lastUid)
    {
      if g == f { CursorStepKeeps(w.boxes[f], w'.boxes[f], w.t, f, w.t.states[f].validity, w.t.states[f].lastUid); }
    }
    forall id | id in w'.syncs
      ensures w'.syncs[id].folder in w'.boxes && SyncOk(w'.boxes[w'.syncs[id].folder], w'.t, w'.syncs[id])
    {
      if w.syncs[id].folder == f { BoxStepKeeps(w.boxes[f], w'.boxes[f], w.t, w.syncs[id]); }
    }
  }

  // ---- table steps ----

  /** No stored mail of a current mailbox is lost or relabelled. */
  ghost predicate KeepsMail(boxes: map<Folder, Mailbox>, t: Tables, t': Tables) {
    forall f, uid :: f in boxes && uid in boxes[f].letters
                     && HasMail(t, f, boxes[f].validity, uid, boxes[f].letters[uid]) ==>
      HasMail(t', f, boxes[f].validity, uid, boxes[f].letters[uid])
  }

  lemma CursorMonotone(boxes: map<Folder, Mailbox>, t: Tables, t': Tables, f: Folder, v: nat, u: nat)
    requires f in boxes && KeepsMail(boxes, t, t') && CursorOk(boxes[f], t, f, v, u)
    ensures CursorOk(boxes[f], t', f, v, u)
  {
    hide HasMail;
  }

  /** A step that writes one cursor row, and mail, and possibly ends or changes one synchronisation. */
  lemma TablesKeep(w: World, w': World, f: Folder)
    requires Inv(w) && w'.boxes == w.boxes && Consistent(w'.t) && KeepsMail(w.boxes, w.t, w'.t)
    requires f in w.boxes && f in w'.t.states && w'.t.states == w.t.states[f := w'.t.states[f]]
    requires CursorOk(w.boxes[f], w'.t, f, w'.t.states[f].validity, w'.t.states[f].lastUid)
    requires forall id :: id in w'.syncs ==>
      || (id in w.syncs && w'.syncs[id] == w.syncs[id])
      || (w'.syncs[id].folder in w.boxes && SyncOk(w.boxes[w'.syncs[id].folder], w'.t, w'.syncs[id]))
    ensures Inv(w')
  {
    hide CursorOk, RestOk, Consistent, KeepsMail;
    forall g | g in w'.t.states
      ensures g in w'.boxes && CursorOk(w'.boxes[g], w'.t, g, w'.t.states[g].validity, w'.t.states[g].lastUid)
    {
      if g != f { CursorMonotone(w.boxes, w.t, w'.t, g, w.t.states[g].validity, w.t.states[g].lastUid); }
    }
    forall id | id in w'.syncs && id in w.syncs && w'.syncs[id] == w.syncs[id]
      ensures SyncOk(w'.boxes[w'.syncs[id].folder], w'.t, w'.syncs[id])
    {
      match w.syncs[id]
      case Reading(g, v, u) => CursorMonotone(w.boxes, w.t, w'.t, g, v, u);
      case Nothing(g, v, u) => CursorMonotone(w.boxes, w.t, w'.t, g, v, u);
      case Applying(g, v, done, _) => CursorMonotone(w.boxes, w.t, w'.t, g, v, done);
      case _ =>
    }
  }

  lemma SameMail(boxes: map<Folder, Mailbox>, t: Tables, t': Tables)
    requires t' == t.(states := t'.states)
    ensures KeepsMail(boxes, t, t') && (Consistent(t) ==> Consistent(t'))
  {
  }

  /** A chunk is stored without a gap, and without disturbing what was stored before. */
  lemma ChunkStored(boxes: map<Folder, Mailbox>, t: Tables, f: Folder, v: nat, done: nat, rest: seq<Fetched>, n: nat)
    requires Consistent(t) && f in boxes && CursorOk(boxes[f], t, f, v, done) && RestOk(boxes[f], v, done, rest)
    requires v > 0 && 0 < n <= |rest|
    ensures var t' := Apply(t, f, v, rest[n - 1].uid, rest[..n]);
            && Consistent(t') && KeepsMail(boxes, t, t') && CursorOk(boxes[f], t', f, v, rest[n - 1].uid)
    ensures n < |rest| ==> RestOk(boxes[f], v, rest[n - 1].uid, rest[n..])
  {
    hide PutAll, EventsOf, Located, RestOk, HasMail;
    var b := boxes[f];
    var mid := PutAll(t, f, v, rest[..n]);
    var t' := Apply(t, f, v, rest[n - 1].uid, rest[..n]);
    PutAllKeeps(t, f, v, rest[..n]);
    PutAllRows(t, f, v, rest[..n]);
    forall g, uid | g in boxes && uid in boxes[g].letters && HasMail(t, g, boxes[g].validity, uid, boxes[g].letters[uid])
      ensures HasMail(mid, g, boxes[g].validity, uid, boxes[g].letters[uid])
      ensures HasMail(t', g, boxes[g].validity, uid, boxes[g].letters[uid])
    {
      ChunkEntry(boxes[g], t, mid, f, v, done, rest, n, g, uid);
      MailInCursor(mid, f, v, rest[n - 1].uid, g, boxes[g].validity, uid, boxes[g].letters[uid]);
    }
    if v == b.validity {
      RestBound(b, v, done, rest, n);
      forall uid | uid in b.letters && uid <= rest[n - 1].uid
        ensures HasMail(t', f, v, uid, b.letters[uid])
      {
        if uid > done { ChunkCovers(b, t, mid, f, v, done, rest, n, uid); }
        MailInCursor(mid, f, v, rest[n - 1].uid, f, v, uid, b.letters[uid]);
      }
    }
    if n < |rest| { RestAfter(b, v, done, rest, n); }
  }

  lemma MailInCursor(t: Tables, f: Folder, v: nat, u: nat, g: Folder, validity: nat, uid: nat, d: Dedupe)
    ensures HasMail(SetCursor(t, f, v, u), g, validity, uid, d) == HasMail(t, g, validity, uid, d)
  {
  }

  lemma RestBound(b: Mailbox, v: nat, done: nat, rest: seq<Fetched>, n: nat)
    requires RestOk(b, v, done, rest) && v == b.validity && 0 < n <= |rest|
    ensures rest[n - 1].uid < b.uidNext
  {
  }

  lemma ChunkEntry(b: Mailbox, t: Tables, t': Tables, f: Folder, v: nat, done: nat, rest: seq<Fetched>, n: nat, g: Folder, uid: nat)
    requires uid in b.letters && HasMail(t, g, b.validity, uid, b.letters[uid]) && 0 < n <= |rest|
    requires g == f ==> RestOk(b, v, done, rest)
    requires Located(t, t', f, v, rest[..n])
    ensures HasMail(t', g, b.validity, uid, b.letters[uid])
  {
    var l := Location(g, b.validity, uid);
    if Writes(rest[..n], f, v, l) {
      var i :| 0 <= i < n && l == Location(f, v, rest[..n][i].uid) && t'.locations[l] == MessageKey(f.account, rest[..n][i].dedupe);
      assert rest[..n][i] == rest[i];
    }
  }

  lemma ChunkCovers(b: Mailbox, t: Tables, t': Tables, f: Folder, v: nat, done: nat, rest: seq<Fetched>, n: nat, uid: nat)
    requires RestOk(b, v, done, rest) && v == b.validity && 0 < n <= |rest| && uid in b.letters && done < uid <= rest[n - 1].uid
    requires Consistent(t') && Located(t, t', f, v, rest[..n])
    ensures HasMail(t', f, v, uid, b.letters[uid])
  {
    hide EventsOf;
    assert InBatch(rest, uid);
    var i :| 0 <= i < |rest| && rest[i].uid == uid;
    assert i < n && rest[..n][i] == rest[i];
    var l := Location(f, v, uid);
    assert Writes(rest[..n], f, v, l);
    var j :| 0 <= j < n && l == Location(f, v, rest[..n][j].uid) && t'.locations[l] == MessageKey(f.account, rest[..n][j].dedupe);
    assert rest[..n][j] == rest[j];
  }

  lemma RestAfter(b: Mailbox, v: nat, done: nat, rest: seq<Fetched>, n: nat)
    requires RestOk(b, v, done, rest) && 0 < n < |rest|
    ensures RestOk(b, v, rest[n - 1].uid, rest[n..])
  {
    var later := rest[n..];
    forall uid | v == b.validity && uid in b.letters && rest[n - 1].uid < uid <= later[|later| - 1].uid
      ensures InBatch(later, uid)
    {
      var i :| 0 <= i < |rest| && rest[i].uid == uid;
      assert later[i - n].uid == uid;
    }
  }

  // ---- every step keeps the invariant ----

  lemma FetchKeeps(b: Mailbox, t: Tables, f: Folder, v: nat, u: nat, limit: nat, batch: seq<Fetched>)
    requires BoxOk(b) && CursorOk(b, t, f, v, u) && limit > 0
    requires IsFetch(b, StartUid(v, u), limit, batch)
    requires v == 0 || v == b.validity
    ensures SyncOk(b, t, After(batch, f, b.validity, u))
  {
    hide HasMail, InBatch;
  }

  lemma FreshFetchKeeps(b: Mailbox, t: Tables, f: Folder, limit: nat, batch: seq<Fetched>)
    requires BoxOk(b) && limit > 0 && IsFetch(b, 0, limit, batch)
    ensures SyncOk(b, t, After(batch, f, b.validity, 0))
  {
    hide HasMail, InBatch;
  }

  lemma StepKeeps(w: World, s: Step)
    requires Inv(w) && Enabled(w, s)
    ensures Inv(Do(w, s))
  {
    hide CursorOk, RestOk, Consistent, BoxOk, IsFetch, Apply, KeepsMail;
    var w' := Do(w, s);
    match s
    case Deliver(f, uid, d) => DeliverStep(w.boxes[f], uid, d); BoxesKeep(w, w', f);
    case Expunge(f, uid) => ExpungeStep(w.boxes[f], uid); BoxesKeep(w, w', f);
    case Renumber(f, box) => BoxesKeep(w, w', f);
    case Begin(id, f) => NoCursor(w.boxes[f], w.t, f, 0);
    case Fetch(id, limit, batch) =>
      var b := w.boxes[w.syncs[id].folder];
      match w.syncs[id] {
        case Reading(f, v, u) =>
          if v == 0 || v == b.validity { FetchKeeps(b, w.t, f, v, u, limit, batch); } else { Positive(b); }
        case Refetching(f) => FreshFetchKeeps(b, w.t, f, limit, batch);
      }
    case ResetTo(id) =>
      SameMail(w.boxes, w.t, w'.t);
      NoCursor(w.boxes[w.syncs[id].folder], w'.t, w.syncs[id].folder, w.syncs[id].validity);
      TablesKeep(w, w', w.syncs[id].folder);
    case Commit(id) => CommitKeeps(w, id);
    case Rest(id) =>
      var Nothing(f, v, u) := w.syncs[id];
      SameMail(w.boxes, w.t, w'.t);
      CursorMonotone(w.boxes, w.t, w'.t, f, v, u);
      TablesKeep(w, w', f);
    case Fail(f, _, _, _, _) =>
      SameMail(w.boxes, w.t, w'.t);
      if f in w.t.states {
        CursorMonotone(w.boxes, w.t, w'.t, f, w.t.states[f].validity, w.t.states[f].lastUid);
      } else {
        NoCursor(w.boxes[f], w'.t, f, 0);
      }
      TablesKeep(w, w', f);
    case Crash(id) =>
  }

  lemma CommitKeeps(w: World, id: nat)
    requires Inv(w) && Enabled(w, Commit(id))
    ensures Inv(Do(w, Commit(id)))
  {
    hide CursorOk, RestOk, Consistent, BoxOk, KeepsMail, PutAll;
    var w' := Do(w, Commit(id));
    var Applying(f, v, done, rest) := w.syncs[id];
    var n := |FirstChunk(rest)|;
    assert FirstChunk(rest) == rest[..n];
    ChunkStored(w.boxes, w.t, f, v, done, rest, n);
    PutAllRows(w.t, f, v, rest[..n]);
    TablesKeep(w, w', f);
  }

  lemma NoCursor(b: Mailbox, t: Tables, f: Folder, v: nat)
    requires BoxOk(b) && v <= b.validity
    ensures CursorOk(b, t, f, v, 0)
  {
  }

  lemma Positive(b: Mailbox)
    requires BoxOk(b)
    ensures b.validity > 0
  {
  }

  lemma DeliverStep(b: Mailbox, uid: nat, d: Dedupe)
    requires BoxOk(b) && b.uidNext <= uid
    ensures BoxStep(b, b.(uidNext := uid + 1, letters := b.letters[uid := d]))
  {
  }

  lemma ExpungeStep(b: Mailbox, uid: nat)
    requires BoxOk(b)
    ensures BoxStep(b, b.(letters := b.letters - {uid}))
  {
  }

  // ---- whole runs ----

  ghost predicate Init(w: World) {
    w.t == NO_MAIL && w.syncs == map[] && forall f :: f in w.boxes ==> BoxOk(w.boxes[f])
  }

  ghost predicate Run(ws: seq<World>, steps: seq<Step>) {
    && |ws| == |steps| + 1 && Init(ws[0])
    && forall i :: 0 <= i < |steps| ==> Enabled(ws[i], steps[i]) && ws[i + 1] == Do(ws[i], steps[i])
  }

  lemma {:induction false} RunKeeps(ws: seq<World>, steps: seq<Step>, i: nat)
    requires Run(ws, steps) && i < |ws|
    ensures Inv(ws[i])
  {
    hide Inv, Do, Enabled;
    if i == 0 {
      InitInv(ws[0]);
    } else {
      RunKeeps(ws, steps, i - 1);
      StepKeeps(ws[i - 1], steps[i - 1]);
    }
  }

  lemma InitInv(w: World)
    requires Init(w)
    ensures Inv(w)
  {
  }

  /**
   No mail is lost: at every moment of every run, a message that is in the mailbox at or below the stored cursor, under
   the stored UIDVALIDITY, has its location row and its message row.
   */
  lemma NoMailLost(ws: seq<World>, steps: seq<Step>, i: nat, f: Folder, uid: nat)
    requires Run(ws, steps) && i < |ws|
    requires f in ws[i].boxes && f in ws[i].t.states && uid in ws[i].boxes[f].letters
    requires ws[i].t.states[f].validity == ws[i].boxes[f].validity && uid <= ws[i].t.states[f].lastUid
    ensures HasMail(ws[i].t, f, ws[i].boxes[f].validity, uid, ws[i].boxes[f].letters[uid])
  {
    hide Do, Enabled, HasMail, Consistent;
    RunKeeps(ws, steps, i);
  }

  /** One logical message, one event, at every moment of every run; and the event log only grows. */
  lemma OneEventPerMessage(ws: seq<World>, steps: seq<Step>, i: nat)
    requires Run(ws, steps) && i < |ws|
    ensures Consistent(ws[i].t) && |ws[i].t.events| == |ws[i].t.messages|
    ensures i + 1 < |ws| ==> ws[i].t.events <= ws[i + 1].t.events
  {
    hide Do, Enabled, EventsOf;
    RunKeeps(ws, steps, i);
    EventCount(ws[i].t.events, ws[i].t.messages);
    if i + 1 < |ws| { LogGrows(ws[i], steps[i]); }
  }

  lemma LogGrows(w: World, s: Step)
    requires Inv(w) && Enabled(w, s)
    ensures w.t.events <= Do(w, s).t.events
  {
    hide PutAll, EventsOf, CursorOk, RestOk;
    if s.Commit? {
      var Applying(f, v, done, rest) := w.syncs[s.id];
      PutAllKeeps(w.t, f, v, FirstChunk(rest));
    }
  }

  // ---- what an undisturbed synchronisation achieves ----

  /** From any reachable state, a synchronisation that fetches a chunk of new mail and commits it has stored it, up to a new cursor. */
  lemma UndisturbedSync(w: World, id: nat, f: Folder, limit: nat, batch: seq<Fetched>)
    requires Inv(w) && id !in w.syncs && f in w.boxes && limit > 0 && 0 < |batch| <= 25
    requires f in w.t.states ==> w.t.states[f].validity == w.boxes[f].validity
    requires IsFetch(w.boxes[f], if f in w.t.states then w.t.states[f].lastUid + 1 else 0, limit, batch)
    ensures Enabled(w, Begin(id, f)) && Enabled(Do(w, Begin(id, f)), Fetch(id, limit, batch))
    ensures Enabled(Do(Do(w, Begin(id, f)), Fetch(id, limit, batch)), Commit(id))
    ensures var w' := Do(Do(Do(w, Begin(id, f)), Fetch(id, limit, batch)), Commit(id));
            && f in w'.t.states && w'.t.states[f].validity == w.boxes[f].validity && w'.t.states[f].lastUid == batch[|batch| - 1].uid
            && (forall i :: 0 <= i < |batch| ==> HasMail(w'.t, f, w.boxes[f].validity, batch[i].uid, batch[i].dedupe))
            && w'.syncs == w.syncs
  {
    hide IsFetch, CursorOk, PutAll, HasMail;
    var v := w.boxes[f].validity;
    assert BoxOk(w.boxes[f]);
    var w1 := Do(w, Begin(id, f));
    var w2 := Do(w1, Fetch(id, limit, batch));
    assert FirstChunk(batch) == batch && batch[|batch|..] == [];
    var w3 := Do(w2, Commit(id));
    assert w3.syncs == w.syncs;
    BatchStored(w, f, v, batch, limit);
  }

  lemma BatchStored(w: World, f: Folder, v: nat, batch: seq<Fetched>, limit: nat)
    requires Inv(w) && f in w.boxes && batch != []
    requires exists start :: IsFetch(w.boxes[f], start, limit, batch)
    ensures var t' := Apply(w.t, f, v, batch[|batch| - 1].uid, batch);
            forall i :: 0 <= i < |batch| ==> HasMail(t', f, v, batch[i].uid, batch[i].dedupe)
  {
    hide Inv, PutAll, EventKey, Announced;
    PutAllRows(w.t, f, v, batch);
    assert Consistent(w.t) by { InvConsistent(w); }
    PutAllKeeps(w.t, f, v, batch);
    var t' := Apply(w.t, f, v, batch[|batch| - 1].uid, batch);
    forall i | 0 <= i < |batch|
      ensures HasMail(t', f, v, batch[i].uid, batch[i].dedupe)
    {
      var l := Location(f, v, batch[i].uid);
      assert Writes(batch, f, v, l);
      var j :| 0 <= j < |batch| && l == Location(f, v, batch[j].uid) && t'.locations[l] == MessageKey(f.account, batch[j].dedupe);
    }
  }

  lemma InvConsistent(w: World)
    requires Inv(w)
    ensures Consistent(w.t)
  {
    hide Consistent;
  }
}
