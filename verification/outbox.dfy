/**
 The draft and send tables as an object, preparing a draft version, and projecting the outcome of a send.
 */
module Outbox {
  import opened Wrappers
  import T = OutboxTables
  import opened OutboxTables
  import D = DraftMachine
  import S = SendMachine

  class OutboxStore {
    var drafts: map<string, Draft>
    var versions: seq<VersionRow>
    var actions: map<ActionId, Action>

    function View(): Tables
      reads this
    {
      Tables(drafts, versions, actions)
    }

    constructor ()
      ensures View() == NO_DRAFTS
    {
      drafts, versions, actions := map[], [], map[];
    }

    method GetByRequest(draft: string, request: string) returns (r: Option<VersionRow>)
      ensures r == ByRequest(versions, draft, request)
    {
      r := None;
      for i := 0 to |versions|
        invariant r == ByRequest(versions[..i], draft, request)
      {
        assert versions[..i + 1][..i] == versions[..i];
        if versions[i].draft == draft && versions[i].request == request { r := Some(versions[i]); }
      }
      assert versions[..|versions|] == versions;
    }

    method GetByVersion(draft: string, version: int) returns (r: Option<VersionRow>)
      ensures r == if version >= 0 then ByVersion(versions, draft, version) else None
    {
      r := None;
      for i := 0 to |versions|
        invariant r == if version >= 0 then ByVersion(versions[..i], draft, version) else None
      {
        assert versions[..i + 1][..i] == versions[..i];
        if versions[i].draft == draft && versions[i].version == version { r := Some(versions[i]); }
      }
      assert versions[..|versions|] == versions;
    }

    method HighestVersion(draft: string) returns (n: nat)
      ensures n == MaxVersion(versions, draft)
    {
      n := 0;
      for i := 0 to |versions|
        invariant n == MaxVersion(versions[..i], draft)
      {
        assert versions[..i + 1][..i] == versions[..i];
        if versions[i].draft == draft && n <= versions[i].version { n := versions[i].version; }
      }
      assert versions[..|versions|] == versions;
    }

    /** One transaction; `None` is the conflict error. */
    method InsertDraftVersion(row: VersionRow, expected: nat) returns (version: Option<nat>)
      modifies this`drafts, this`versions
      ensures (View(), version) == InsertVersion(old(View()), row, expected)
    {
      if row.draft !in drafts { drafts := drafts[row.draft := Draft(row.account, 0)]; }
      var same := GetByRequest(row.draft, row.request);
      if drafts[row.draft].current != expected || same.Some? { return None; }
      var highest := HighestVersion(row.draft);
      versions := versions + [row.(version := highest + 1)];
      drafts := drafts[row.draft := drafts[row.draft].(current := highest + 1)];
      version := Some(highest + 1);
    }

    /** `prepare_action`: claims the action id, or fails if it is bound to another approval. */
    method PrepareAction(a: Approval) returns (r: Option<Action>)
      modifies this`actions
      ensures View() == PutAction(old(View()), a.action, S.NewAction(a))
      ensures r == if actions[a.action].envelope == a then Some(actions[a.action]) else None
    {
      if a.action !in actions {
        actions := actions[a.action := Action(a.account, a.draft, a.version, a, Prepared, "")];
      }
      r := if actions[a.action].envelope == a then Some(actions[a.action]) else None;
    }

    /** `preview`: the version, if it is current and agrees with the approval. */
    method Preview(a: Approval, matches: S.Matcher) returns (row: Option<VersionRow>)
      ensures row.Some? <==>
                && a.version >= 1 && a.draft in drafts && drafts[a.draft].current == a.version
                && ByVersion(versions, a.draft, a.version).Some?
                && var v := ByVersion(versions, a.draft, a.version).value;
                   a.digest == v.digest && a.action == ActionId(v.draft, v.request, v.digest) && matches(a.other, v.details)
      ensures row.Some? ==> row == ByVersion(versions, a.draft, a.version)
    {
      if a.version < 1 || a.draft !in drafts || drafts[a.draft].current != a.version { return None; }
      row := GetByVersion(a.draft, a.version);
      if row.Some? && !(a.digest == row.value.digest && a.action == ActionId(row.value.draft, row.value.request, row.value.digest)
                        && matches(a.other, row.value.details)) {
        row := None;
      }
    }

    /**
     `materialize`, when nobody edits in between: it succeeds exactly for the current version, an approval that agrees with
     it, and an action that is not bound to another approval, and the action is then bound to this one.
     */
    method Materialize(a: Approval, matches: S.Matcher) returns (row: Option<VersionRow>)
      requires DraftsOk(View()) && S.ActionsOk(View())
      modifies this`actions
      ensures DraftsOk(View()) && S.ActionsOk(View())
      ensures row.Some? <==>
                && a.version >= 1 && a.draft in drafts && drafts[a.draft].current == a.version
                && ByVersion(versions, a.draft, a.version).Some?
                && (var v := ByVersion(versions, a.draft, a.version).value;
                    a.digest == v.digest && a.action == ActionId(v.draft, v.request, v.digest) && matches(a.other, v.details))
                && (a.action in old(actions) ==> old(actions)[a.action].envelope == a)
      ensures row.Some? ==> a.draft in drafts && drafts[a.draft].current == a.version == row.value.version
                            && row.value in versions && ActionOf(row.value) == a.action && row.value.digest == a.digest
      ensures row.Some? ==> a.action in actions && actions[a.action].envelope == a
      ensures row.Some? && a.action !in old(actions) ==> actions[a.action] == Action(a.account, a.draft, a.version, a, Prepared, "")
      ensures row.None? ==> View() == old(View())
      ensures forall id :: id in old(actions) ==> id in actions && actions[id] == old(actions[id])
    {
      hide DraftsOk, S.ActionsOk, ByVersion;
      row := Preview(a, matches);
      if row.None? { return; }
      ghost var t := View();
      ByVersionFinds(versions, a.draft, a.version);
      BoundElsewhere(t, a);
      var action := PrepareAction(a);
      ActionClaimed(t, a, row.value);
      if action.None? { row := None; }
    }

    /** `project_status`: `None` for a state that cannot be projected. */
    method ProjectStatus(id: ActionId, state: SendState, receipt: string) returns (r: Option<Action>)
      modifies this`actions
      ensures View() == if state == Prepared then old(View()) else Project(old(View()), id, state, receipt)
      ensures state != Prepared ==> r == if id in actions then Some(actions[id]) else None
      ensures actions.Keys == old(actions).Keys && forall x :: x in actions && x != id ==> actions[x] == old(actions)[x]
      ensures id in actions && state != Prepared ==>
                var was, now := old(actions)[id], actions[id];
                if (was.state == Prepared || was.state == Unknown) && was.state != state
                then now == was.(state := state, receipt := receipt) else now == was
    {
      if state == Prepared { return None; }
      if id in actions && (actions[id].state == Prepared || actions[id].state == Unknown) && actions[id].state != state {
        actions := actions[id := actions[id].(state := state, receipt := receipt)];
      }
      r := if id in actions then Some(actions[id]) else None;
    }

    /** `sync_status`: the host's ledger decides, except while it is still working. */
    method SyncStatus(id: ActionId, host: HostStatus, receipt: string) returns (shown: Option<SendState>)
      modifies this`actions
      ensures actions.Keys == old(actions).Keys && forall x :: x in actions && x != id ==> actions[x] == old(actions)[x]
      ensures id in actions && old(actions)[id].state in {Prepared, Unknown} ==>
                && (host == HostSucceeded ==> actions[id] == old(actions)[id].(state := Succeeded, receipt := receipt))
                && (host == HostPartial ==> actions[id] == old(actions)[id].(state := Partial, receipt := receipt))
                && (host == HostFailed ==> actions[id] == old(actions)[id].(state := Failed, receipt := receipt))
                && (host == HostUnknown ==>
                      actions[id].state == Unknown && (old(actions)[id].state == Prepared ==> actions[id].receipt == receipt))
      ensures id in actions && (host == HostPrepared || host == Executing || old(actions)[id].state !in {Prepared, Unknown}) ==>
                actions[id] == old(actions)[id]
      ensures View() == if id in old(actions) && Final(host).Some? then Project(old(View()), id, Final(host).value, receipt) else old(View())
      ensures shown == if id in actions then Some(actions[id].state) else None
    {
      if id !in actions { return None; }
      var final := Final(host);
      if final.None? { return Some(actions[id].state); }
      var action := ProjectStatus(id, final.value, receipt);
      shown := Some(actions[id].state);
    }

    /** `reconcile`: what the Sent folder says. */
    method ReconcileSent(id: ActionId, sent: SentStatus, receipt: string) returns (shown: Option<SendState>)
      modifies this`actions
      ensures actions.Keys == old(actions).Keys && forall x :: x in actions && x != id ==> actions[x] == old(actions)[x]
      ensures id in actions && old(actions)[id].state in {Prepared, Unknown} ==>
                && (sent == Matched ==> actions[id] == old(actions)[id].(state := SentConfirmed, receipt := receipt))
                && (sent == Ambiguous ==> actions[id] == old(actions)[id].(state := NeedsUserAction, receipt := receipt))
                && (sent == NotFound ==>
                      actions[id].state == Unknown && (old(actions)[id].state == Prepared ==> actions[id].receipt == receipt))
      ensures id in actions && (sent == Unavailable || old(actions)[id].state !in {Prepared, Unknown}) ==>
                actions[id] == old(actions)[id]
      ensures View() == if id in old(actions) && Confirmed(sent).Some? then Project(old(View()), id, Confirmed(sent).value, receipt) else old(View())
      ensures shown == if id in actions then Some(actions[id].state) else None
    {
      if id !in actions { return None; }
      match sent {
        case Matched => var _ := ProjectStatus(id, SentConfirmed, receipt);
        case Ambiguous => var _ := ProjectStatus(id, NeedsUserAction, receipt);
        case NotFound => var _ := ProjectStatus(id, Unknown, receipt);
        case Unavailable =>
      }
      shown := Some(actions[id].state);
    }
  }

  datatype HostStatus = HostPrepared | Executing | HostSucceeded | HostPartial | HostFailed | HostUnknown

  function Final(host: HostStatus): Option<SendState> {
    match host
    case HostPrepared => None
    case Executing => None
    case HostSucceeded => Some(Succeeded)
    case HostPartial => Some(Partial)
    case HostFailed => Some(Failed)
    case HostUnknown => Some(Unknown)
  }

  datatype SentStatus = Matched | Ambiguous | NotFound | Unavailable

  function Confirmed(sent: SentStatus): Option<SendState> {
    match sent
    case Matched => Some(SentConfirmed)
    case Ambiguous => Some(NeedsUserAction)
    case NotFound => Some(Unknown)
    case Unavailable => None
  }

  lemma BoundElsewhere(t: Tables, a: Approval)
    ensures a.action in t.actions ==> PutAction(t, a.action, S.NewAction(a)) == t
  {
  }

  lemma ActionClaimed(t: Tables, a: Approval, row: VersionRow)
    requires DraftsOk(t) && S.ActionsOk(t) && row in t.versions && ActionOf(row) == a.action && row.draft == a.draft && row.version == a.version
    ensures var t' := PutAction(t, a.action, S.NewAction(a));
            DraftsOk(t') && S.ActionsOk(t')
  {
    var i :| 0 <= i < |t.versions| && t.versions[i] == row;
    assert S.HasRow(t.versions, a.action, a.draft, a.version);
    S.DraftsAlone(t, PutAction(t, a.action, S.NewAction(a)));
    hide S.HasRow, DraftsOk;
  }

  // ---- preparing a draft ----

  class Artifacts {
    var stored: set<nat>
    var deleted: set<nat>
    var next: nat

    constructor ()
      ensures stored == {} && deleted == {} && next == 0
    {
      stored, deleted, next := {}, {}, 0;
    }
  }

  /** What becomes of the insert: answered, executed with the answer lost, or never executed. */
  datatype Fault = Answered | AnswerLost | NeverExecuted

  /** Artifact numbers are handed out once, and rows reference artifacts handed out before. */
  ghost predicate ArtifactsOk(rows: seq<VersionRow>, arts: Artifacts)
    reads arts
  {
    && (forall i :: 0 <= i < |rows| ==> rows[i].artifact < arts.next)
    && (forall x :: x in arts.deleted ==> x < arts.next)
  }

  /** Another attempt's insert that is executed while this one is under way. */
  datatype Rival = Rival(row: VersionRow, expected: nat)

  function WithRival(t: Tables, rival: Option<Rival>): Tables {
    if rival.Some? then InsertVersion(t, rival.value.row, rival.value.expected).0 else t
  }

  /** The version the caller saw as the draft's current one. */
  function Pointer(drafts: map<string, Draft>, draft: string): nat {
    if draft in drafts then drafts[draft].current else 0
  }

  /** The tables after an insert that reached the database or did not. */
  function Executed(t: Tables, row: VersionRow, expected: nat, fault: Fault): Tables {
    if fault.NeverExecuted? then t else InsertVersion(t, row, expected).0
  }

  /**
   The part of `prepare` after the artifact is stored: insert the version, and on any failure look the request up and delete
   the artifact unless its own row is there.
   */
  method Insert(db: OutboxStore, arts: Artifacts, a: D.Args, handle: nat, expected: nat, fault: Fault)
    returns (r: Option<VersionRow>)
    requires DraftsOk(db.View()) && T.Seen(db.View(), a.draft, a.account, expected)
    requires forall i :: 0 <= i < |db.versions| ==> db.versions[i].artifact < handle
    modifies db, arts`deleted
    ensures DraftsOk(db.View()) && db.View() == Executed(old(db.View()), D.RowFor(handle, a), expected, fault)
    ensures db.actions == old(db.actions) && forall i :: 0 <= i < |db.versions| ==> db.versions[i].artifact <= handle
    ensures r == (var found := ByRequest(db.versions, a.draft, a.request);
                  if found.Some? && found.value.digest == a.digest then found else None)
    ensures r.None? ==> db.View() == old(db.View())
    ensures arts.deleted == old(arts.deleted) + if D.Referenced(db.versions, handle) then {} else {handle}
    ensures D.Referenced(db.versions, handle) ==> r.Some?
    ensures D.Referenced(db.versions, handle) <==>
              !fault.NeverExecuted? && InsertVersion(old(db.View()), D.RowFor(handle, a), expected).1.Some?
  {
    hide DraftsOk, ByRequest, InsertVersion, D.Referenced;
    var row := D.RowFor(handle, a);
    ghost var t := db.View();
    NotYet(db.versions, handle);
    ByRequestFinds(db.versions, a.draft, a.request);
    var version: Option<nat> := None;
    if !fault.NeverExecuted? {
      InsertKeeps(t, row, expected);
      version := db.InsertDraftVersion(row, expected);
    }
    if version.Some? { Inserted(t, db.View(), row, version.value); }
    if fault.Answered? && version.Some? { return Some(row.(version := version.value)); }
    var committed := db.GetByRequest(a.draft, a.request);
    if committed.Some? && committed.value.artifact == handle { return committed; }
    arts.deleted := arts.deleted + {handle};
    r := if committed.Some? && committed.value.digest == a.digest then committed else None;
  }

  /**
   `prepare` with a request id and an answering recovery lookup; the answer to the put may be lost. Whatever happens to the
   insert, and whether or not another attempt gets in first, it succeeds exactly if the draft is not another account's, the
   put was answered or not needed, and a row with this content is stored for the request in the end, and then returns that
   row; an error leaves no version of its own behind. The artifact it stored is referenced by a row exactly if it has not
   been deleted, and neither when the put was not answered.
   */
  method Prepare(db: OutboxStore, arts: Artifacts, a: D.Args, answered: bool, fault: Fault, rival: Option<Rival>)
    returns (r: Option<VersionRow>, ghost replayed: bool)
    requires DraftsOk(db.View()) && ArtifactsOk(db.versions, arts) && a.given
    requires rival.Some? ==> rival.value.row.artifact < arts.next
                             && T.Seen(db.View(), rival.value.row.draft, rival.value.row.account, rival.value.expected)
    modifies db, arts
    ensures DraftsOk(db.View()) && ArtifactsOk(db.versions, arts) && db.actions == old(db.actions)
    ensures var found := ByRequest(db.versions, a.draft, a.request);
            r == if SameAccount(old(db.drafts), a) && (replayed || answered) && found.Some? && found.value.digest == a.digest
                 then found else None
    ensures answered && rival.None? && !fault.NeverExecuted? && SameAccount(old(db.drafts), a) && !replayed ==> r.Some?
    ensures r.None? ==> db.View() == old(db.View()) || db.View() == WithRival(old(db.View()), rival)
    ensures db.View() == if !SameAccount(old(db.drafts), a) || replayed then old(db.View())
                         else if !answered then WithRival(old(db.View()), rival)
                         else Executed(WithRival(old(db.View()), rival), D.RowFor(old(arts.next), a), Pointer(old(db.drafts), a.draft), fault)
    ensures replayed <==> ByRequest(old(db.versions), a.draft, a.request).Some?
    ensures replayed ==> db.View() == old(db.View()) && arts.stored == old(arts.stored) && arts.deleted == old(arts.deleted)
    ensures if SameAccount(old(db.drafts), a) && !replayed
            then arts.next == old(arts.next) + 1 && arts.stored == old(arts.stored) + {old(arts.next)}
            else arts.next == old(arts.next) && arts.stored == old(arts.stored) && arts.deleted == old(arts.deleted)
    ensures arts.next > old(arts.next) ==>
              var orphan := !D.Referenced(db.versions, old(arts.next));
              && (!answered ==> orphan)
              && arts.deleted == old(arts.deleted) + if answered && orphan then {old(arts.next)} else {}
  {
    hide DraftsOk, ByRequest, InsertVersion, D.Referenced;
    ghost var t := db.View();
    replayed := ByRequest(db.versions, a.draft, a.request).Some?;
    if a.draft in db.drafts && db.drafts[a.draft].account != a.account { return None, replayed; }
    var expected := Pointer(db.drafts, a.draft);
    var previous := db.GetByRequest(a.draft, a.request);
    if previous.Some? {
      return if previous.value.digest == a.digest then previous else None, replayed;
    }
    var handle := arts.next;
    arts.stored, arts.next := arts.stored + {handle}, handle + 1;
    InsertSucceeds(t, D.RowFor(handle, a), expected);
    if rival.Some? {
      InsertKeeps(t, rival.value.row, rival.value.expected);
      var _ := db.InsertDraftVersion(rival.value.row, rival.value.expected);
    }
    NotYet(db.versions, handle);
    if !answered { return None, replayed; }
    r := Insert(db, arts, a, handle, expected, fault);
  }

  /** Without a rival the pointer is where it was seen, and a new request is inserted. */
  lemma InsertSucceeds(t: Tables, row: VersionRow, expected: nat)
    requires expected == if row.draft in t.drafts then t.drafts[row.draft].current else 0
    requires ByRequest(t.versions, row.draft, row.request).None?
    ensures InsertVersion(t, row, expected).1.Some?
  {
  }

  predicate SameAccount(drafts: map<string, Draft>, a: D.Args) {
    a.draft in drafts ==> drafts[a.draft].account == a.account
  }

  lemma NotYet(rows: seq<VersionRow>, handle: nat)
    requires forall i :: 0 <= i < |rows| ==> rows[i].artifact < handle
    ensures !D.Referenced(rows, handle)
  {
  }

  lemma Inserted(t: Tables, t': Tables, row: VersionRow, version: nat)
    requires DraftsOk(t') && t'.versions == t.versions + [row.(version := version)]
    ensures ByRequest(t'.versions, row.draft, row.request) == Some(row.(version := version))
    ensures D.Referenced(t'.versions, row.artifact)
  {
    var i := |t.versions|;
    assert t'.versions[i] == row.(version := version);
    RowUnique(t', i);
  }
}
