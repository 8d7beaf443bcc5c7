/**
 The tables of the mail extension that synchronisation writes: per-folder cursors, messages by logical identity,
 locations by UID, and the event log. Every statement is a function on the tables.
 */
module MailTables {
  import opened Wrappers
  import opened Text

  // ---- logical identity of a message ----

  predicate IsHex(s: string) {
    |s| == 64 && forall i :: 0 <= i < |s| ==> '0' <= s[i] <= '9' || 'a' <= s[i] <= 'f'
  }

  type Hex = s: string | IsHex(s) witness seq(64, i => '0')

  const BY_ID := "mid:"
  const BY_CONTENT := "content:"

  predicate IsDedupe(s: string) {
    || (|s| == 68 && s[..4] == BY_ID && IsHex(s[4..]))
    || (|s| == 72 && s[..8] == BY_CONTENT && IsHex(s[8..]))
  }

  type Dedupe = s: string | IsDedupe(s) witness BY_ID + seq(64, i => '0')

  /** `str.strip` */
  function Strip(s: string): string {
    if s != [] && IsSpace(s[0]) then Strip(s[1..])
    else if s != [] && IsSpace(s[|s| - 1]) then Strip(s[..|s| - 1])
    else s
  }

  /** Stripping takes exactly the white space at both ends. */
  lemma {:induction false} Stripped(s: string) returns (left: string, right: string)
    ensures s == left + Strip(s) + right && Blank(left) && Blank(right)
    ensures Strip(s) == [] || (!IsSpace(Strip(s)[0]) && !IsSpace(Strip(s)[|Strip(s)| - 1]))
    ensures Blank(s) <==> Strip(s) == []
    decreases |s|
  {
    hide IsSpace, Blank;
    left, right := [], [];
    BlankJoin([], []);
    if s != [] && IsSpace(s[0]) {
      left, right := Stripped(s[1..]);
      assert s == [s[0]] + s[1..];
      BlankJoin([s[0]], s[1..]);
      BlankJoin([s[0]], left);
      left := [s[0]] + left;
    } else if s != [] && IsSpace(s[|s| - 1]) {
      left, right := Stripped(s[..|s| - 1]);
      assert s == s[..|s| - 1] + [s[|s| - 1]];
      BlankJoin(s[..|s| - 1], [s[|s| - 1]]);
      BlankJoin(right, [s[|s| - 1]]);
      right := right + [s[|s| - 1]];
    } else if s != [] {
      BlankJoin([s[0]], s[1..]);
      assert s == [s[0]] + s[1..];
    }
  }

  lemma BlankJoin(a: string, b: string)
    ensures Blank(a + b) <==> Blank(a) && Blank(b)
    ensures Blank([]) && forall c :: Blank([c]) <==> IsSpace(c)
  {
    hide IsSpace;
    var s := a + b;
    assert forall i :: 0 <= i < |a| ==> s[i] == a[i];
    assert forall i :: 0 <= i < |b| ==> s[|a| + i] == b[i];
    forall c
      ensures Blank([c]) <==> IsSpace(c)
    {
      assert [c][0] == c;
    }
  }

  /** What is digested: the stripped Message-ID in lower case, a bar and the content hash. */
  function BoundText(messageId: string, contentHash: Hex, lower: string -> string): string {
    lower(Strip(messageId)) + "|" + contentHash
  }

  /** `dedupe_key`; the digest and lower-casing are given. */
  function DedupeKey(messageId: Option<string>, contentHash: Hex, lower: string -> string, digest: string -> Hex): (d: Dedupe)
    ensures if messageId.Some? && !Blank(messageId.value) then |d| == 68 else |d| == 72 && d[8..] == contentHash
  {
    if messageId.Some? && !Blank(messageId.value) then
      var s := BY_ID + digest(BoundText(messageId.value, contentHash, lower));
      assert s[..4] == BY_ID && s[4..] == digest(BoundText(messageId.value, contentHash, lower));
      s
    else
      var s := BY_CONTENT + contentHash;
      assert s[..8] == BY_CONTENT && s[8..] == contentHash;
      s
  }

  predicate Collision(digest: string -> Hex, x: string, y: string) {
    x != y && digest(x) == digest(y)
  }

  /**
   Two messages have the same identity exactly if their content hashes agree and either both have a Message-ID, and these
   agree once stripped and in lower case, or neither has one; or if the digest collides on what the two bind.
   */
  lemma SameIdentity(id: Option<string>, hash: Hex, id': Option<string>, hash': Hex, lower: string -> string, digest: string -> Hex)
    ensures var has, has' := id.Some? && !Blank(id.value), id'.Some? && !Blank(id'.value);
            DedupeKey(id, hash, lower, digest) == DedupeKey(id', hash', lower, digest) <==>
              && has == has'
              && (|| (hash == hash' && (has ==> lower(Strip(id.value)) == lower(Strip(id'.value))))
                  || (has && Collision(digest, lower(Strip(id.value)) + "|" + hash, lower(Strip(id'.value)) + "|" + hash')))
  {
    hide Strip, IsHex;
    if id.Some? && !Blank(id.value) && id'.Some? && !Blank(id'.value) {
      var a, b := BoundText(id.value, hash, lower), BoundText(id'.value, hash', lower);
      var d, d' := DedupeKey(id, hash, lower, digest), DedupeKey(id', hash', lower, digest);
      assert d == BY_ID + digest(a) && d' == BY_ID + digest(b);
      assert d == d' ==> d[4..] == d'[4..];
      assert d[4..] == digest(a) && d'[4..] == digest(b);
      BoundParts(lower(Strip(id.value)), hash, lower(Strip(id'.value)), hash');
    }
  }

  lemma BoundParts(a: string, hash: Hex, b: string, hash': Hex)
    ensures a + "|" + hash == b + "|" + hash' <==> a == b && hash == hash'
  {
    var s, s' := a + "|" + hash, b + "|" + hash';
    assert |hash| == 64 && |hash'| == 64;
    assert s[..|s| - 65] == a && s[|s| - 64..] == hash;
    assert s'[..|s'| - 65] == b && s'[|s'| - 64..] == hash';
  }

  datatype MessageKey = MessageKey(account: string, dedupe: Dedupe)

  function EventKey(k: MessageKey): string {
    "smail:" + k.account + ":" + k.dedupe
  }

  /** The textual event key determines account and message, whatever characters the account id contains. */
  lemma EventKeyInjective(a: MessageKey, b: MessageKey)
    requires EventKey(a) == EventKey(b)
    ensures a == b
  {
    var s := EventKey(a);
    var n := |s|;
    KeyTail(a);
    KeyTail(b);
    assert |a.dedupe| == |b.dedupe|;
    var d := |a.dedupe|;
    assert a.dedupe == s[n - d..] == b.dedupe;
    assert a.account == s[6..n - d - 1] == b.account;
  }

  lemma KeyTail(k: MessageKey)
    ensures var s, n, d := EventKey(k), |EventKey(k)|, |k.dedupe|;
            && n == 6 + |k.account| + 1 + d && s[n - d..] == k.dedupe && s[6..n - d - 1] == k.account
            && (d == 68 ==> s[n - 66] == 'd' && s[n - 68] == 'm')
            && (d == 72 ==> s[n - 66] == 't')
            && s[n - 65] == ':' && (d == 68 || d == 72)
  {
    var s, n, d := EventKey(k), |EventKey(k)|, |k.dedupe|;
    assert s == ("smail:" + k.account + ":") + k.dedupe;
    assert forall i :: 0 <= i < d ==> s[n - d + i] == k.dedupe[i];
    if d == 68 {
      assert k.dedupe[..4][0] == k.dedupe[0] && k.dedupe[..4][2] == k.dedupe[2] && k.dedupe[..4][3] == k.dedupe[3];
    } else {
      assert k.dedupe[..8][6] == k.dedupe[6] && k.dedupe[..8][7] == k.dedupe[7];
    }
  }

  // ---- tables ----

  datatype Folder = Folder(account: string, name: string)

  datatype Location = Location(folder: Folder, validity: nat, uid: nat)

  datatype Status = Idle | Reset | Backoff | NeedsUserAction

  datatype SyncState = SyncState(validity: nat, lastUid: nat, status: Status, error: Option<string>,
                                 failures: nat, backoffUntil: Option<int>)

  datatype MailEvent = MailEvent(sequence: nat, key: string, about: MessageKey)

  datatype Tables = Tables(states: map<Folder, SyncState>, messages: set<MessageKey>,
                           locations: map<Location, MessageKey>, events: seq<MailEvent>, next: nat)

  const NO_MAIL := Tables(map[], {}, map[], [], 1)

  /** A message as fetched: its UID and its logical identity. */
  datatype Fetched = Fetched(uid: nat, dedupe: Dedupe)

  predicate Announced(events: seq<MailEvent>, key: string) {
    exists i :: 0 <= i < |events| && events[i].key == key
  }

  /** The inserts for one message; a conflicting event insert still uses up its sequence number. */
  function Put(t: Tables, f: Folder, validity: nat, m: Fetched): Tables {
    var k := MessageKey(f.account, m.dedupe);
    t.(messages := t.messages + {k},
       locations := t.locations[Location(f, validity, m.uid) := k],
       events := if Announced(t.events, EventKey(k)) then t.events else t.events + [MailEvent(t.next, EventKey(k), k)],
       next := t.next + 1)
  }

  function PutAll(t: Tables, f: Folder, validity: nat, batch: seq<Fetched>): Tables {
    if batch == [] then t else Put(PutAll(t, f, validity, batch[..|batch| - 1]), f, validity, batch[|batch| - 1])
  }

  /** `apply_batch`: one transaction. */
  function Apply(t: Tables, f: Folder, validity: nat, nextUid: nat, batch: seq<Fetched>): Tables {
    SetCursor(PutAll(t, f, validity, batch), f, validity, nextUid)
  }

  /** `set_state_idle`, and the last statement of `apply_batch`. */
  function SetCursor(t: Tables, f: Folder, validity: nat, lastUid: nat): Tables {
    t.(states := t.states[f := SyncState(validity, lastUid, Idle, None, 0, None)])
  }

  /** `reset_cursor`: everything about earlier failures is kept. */
  function ResetCursor(t: Tables, f: Folder, validity: nat): Tables {
    var row := if f in t.states then t.states[f] else SyncState(0, 0, Idle, None, 0, None);
    t.(states := t.states[f := row.(validity := validity, lastUid := 0, status := Reset)])
  }

  /** `set_state_error`: the cursor is kept; a new row has none. */
  function SetError(t: Tables, f: Folder, status: Status, error: string, failures: nat, until: Option<int>): Tables {
    var row := if f in t.states then t.states[f] else SyncState(0, 0, Idle, None, 0, None);
    t.(states := t.states[f := row.(status := status, error := Some(error), failures := failures, backoffUntil := until)])
  }

  // ---- one logical message, one event ----

  /** Messages and events correspond one to one, in sequence order, and every location names a stored message. */
  ghost predicate Consistent(t: Tables) {
    && EventsOf(t.events, t.messages)
    && t.next > 0 && (forall i :: 0 <= i < |t.events| ==> 0 < t.events[i].sequence < t.next)
    && (forall l :: l in t.locations ==> t.locations[l] in t.messages)
  }

  ghost predicate EventsOf(events: seq<MailEvent>, messages: set<MessageKey>) {
    && (forall i :: 0 <= i < |events| ==> events[i].about in messages && events[i].key == EventKey(events[i].about))
    && (forall k :: k in messages ==> exists i :: 0 <= i < |events| && events[i].about == k)
    && (forall i, j :: 0 <= i < j < |events| ==> events[i].sequence < events[j].sequence && events[i].about != events[j].about)
  }

  /** An event for this message exists exactly when the message is stored. */
  lemma AnnouncedIff(t: Tables, k: MessageKey)
    requires EventsOf(t.events, t.messages)
    ensures Announced(t.events, EventKey(k)) <==> k in t.messages
  {
    hide EventKey;
    if Announced(t.events, EventKey(k)) {
      var i :| 0 <= i < |t.events| && t.events[i].key == EventKey(k);
      EventKeyInjective(t.events[i].about, k);
    }
  }

  lemma PutKeeps(t: Tables, f: Folder, validity: nat, m: Fetched)
    requires Consistent(t)
    ensures Consistent(Put(t, f, validity, m)) && t.events <= Put(t, f, validity, m).events
    ensures |Put(t, f, validity, m).events| == |t.events| + if MessageKey(f.account, m.dedupe) in t.messages then 0 else 1
  {
    hide EventKey, EventsOf, Announced;
    var k := MessageKey(f.account, m.dedupe);
    AnnouncedIff(t, k);
    if k in t.messages {
      assert t.messages + {k} == t.messages;
    } else {
      EventsGrow(t.events, t.messages, MailEvent(t.next, EventKey(k), k));
    }
  }

  lemma EventsGrow(events: seq<MailEvent>, messages: set<MessageKey>, e: MailEvent)
    requires EventsOf(events, messages) && e.about !in messages && e.key == EventKey(e.about)
    requires forall i :: 0 <= i < |events| ==> events[i].sequence < e.sequence
    ensures EventsOf(events + [e], messages + {e.about})
  {
    hide EventKey;
    var more := events + [e];
    forall x | x in messages + {e.about}
      ensures exists i :: 0 <= i < |more| && more[i].about == x
    {
      if x == e.about {
        assert more[|events|].about == x;
      } else {
        var i :| 0 <= i < |events| && events[i].about == x;
        assert more[i].about == x;
      }
    }
  }

  lemma {:induction false} PutAllKeeps(t: Tables, f: Folder, validity: nat, batch: seq<Fetched>)
    requires Consistent(t)
    ensures Consistent(PutAll(t, f, validity, batch)) && t.events <= PutAll(t, f, validity, batch).events
  {
    hide Consistent, Put;
    if batch != [] {
      PutAllKeeps(t, f, validity, batch[..|batch| - 1]);
      PutKeeps(PutAll(t, f, validity, batch[..|batch| - 1]), f, validity, batch[|batch| - 1]);
    }
  }

  /** There are as many events as messages. */
  lemma {:induction false} EventCount(events: seq<MailEvent>, messages: set<MessageKey>)
    requires EventsOf(events, messages)
    ensures |events| == |messages|
  {
    hide EventKey;
    if events == [] {
      assert messages == {};
    } else {
      var n := |events| - 1;
      var rest, k := events[..n], events[n].about;
      forall x | x in messages - {k}
        ensures exists i :: 0 <= i < |rest| && rest[i].about == x
      {
        var i :| 0 <= i < |events| && events[i].about == x;
        assert rest[i].about == x;
      }
      EventCount(rest, messages - {k});
    }
  }

  ghost predicate Writes(batch: seq<Fetched>, f: Folder, validity: nat, l: Location) {
    exists i :: 0 <= i < |batch| && l == Location(f, validity, batch[i].uid)
  }

  ghost predicate WritesTo(batch: seq<Fetched>, f: Folder, validity: nat, l: Location, k: MessageKey) {
    exists i :: 0 <= i < |batch| && l == Location(f, validity, batch[i].uid) && k == MessageKey(f.account, batch[i].dedupe)
  }

  /** The locations after a batch: those of its messages point at them, all others are as before. */
  ghost predicate Located(t: Tables, t': Tables, f: Folder, validity: nat, batch: seq<Fetched>) {
    && t'.states == t.states && t.messages <= t'.messages
    && (forall l :: l in t.locations || Writes(batch, f, validity, l) <==> l in t'.locations)
    && (forall l :: l in t'.locations ==>
          if Writes(batch, f, validity, l) then WritesTo(batch, f, validity, l, t'.locations[l])
          else l in t.locations && t'.locations[l] == t.locations[l])
  }

  lemma {:induction false} PutAllRows(t: Tables, f: Folder, validity: nat, batch: seq<Fetched>)
    ensures Located(t, PutAll(t, f, validity, batch), f, validity, batch)
  {
    hide EventKey, Announced;
    if batch != [] {
      var n := |batch| - 1;
      PutAllRows(t, f, validity, batch[..n]);
      hide PutAll;
      PutRow(t, PutAll(t, f, validity, batch[..n]), f, validity, batch);
      PutLast(t, f, validity, batch);
    }
  }

  lemma PutLast(t: Tables, f: Folder, validity: nat, batch: seq<Fetched>)
    requires batch != []
    ensures PutAll(t, f, validity, batch) == Put(PutAll(t, f, validity, batch[..|batch| - 1]), f, validity, batch[|batch| - 1])
  {
  }

  lemma PutRow(t: Tables, mid: Tables, f: Folder, validity: nat, batch: seq<Fetched>)
    requires batch != [] && Located(t, mid, f, validity, batch[..|batch| - 1])
    ensures Located(t, Put(mid, f, validity, batch[|batch| - 1]), f, validity, batch)
  {
    hide EventKey, Announced, Writes, WritesTo;
    var n := |batch| - 1;
    var before, m := batch[..n], batch[n];
    var here, k0 := Location(f, validity, m.uid), MessageKey(f.account, m.dedupe);
    WritesMore(batch, f, validity, here, k0);
    forall l
      ensures Writes(batch, f, validity, l) <==> Writes(before, f, validity, l) || l == here
    {
      WritesMore(batch, f, validity, l, k0);
    }
    forall l, k
      ensures WritesTo(before, f, validity, l, k) ==> WritesTo(batch, f, validity, l, k)
    {
      WritesMore(batch, f, validity, l, k);
    }
  }

  lemma WritesMore(batch: seq<Fetched>, f: Folder, validity: nat, l: Location, k: MessageKey)
    requires batch != []
    ensures var before, m := batch[..|batch| - 1], batch[|batch| - 1];
            && (Writes(batch, f, validity, l) <==> Writes(before, f, validity, l) || l == Location(f, validity, m.uid))
            && (WritesTo(before, f, validity, l, k) ==> WritesTo(batch, f, validity, l, k))
            && WritesTo(batch, f, validity, Location(f, validity, m.uid), MessageKey(f.account, m.dedupe))
  {
    var n := |batch| - 1;
    var before, m := batch[..n], batch[n];
    assert batch == before + [m];
    if i :| 0 <= i < |batch| && l == Location(f, validity, batch[i].uid) { assert i < n ==> before[i] == batch[i]; }
    if i :| 0 <= i < |before| && l == Location(f, validity, before[i].uid) { assert batch[i] == before[i]; }
    if i :| 0 <= i < |before| && l == Location(f, validity, before[i].uid) && k == MessageKey(f.account, before[i].dedupe) {
      assert batch[i] == before[i];
    }
    assert batch[n] == m;
  }
}
