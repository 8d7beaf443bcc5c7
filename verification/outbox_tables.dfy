/**
 Drafts, their versions and the send actions of the mail extension. A version row is never changed or removed once it is
 inserted; derived identifiers are the tuples they are hashed from.
 */
module OutboxTables {
  import opened Wrappers

  type Digest = string

  /** `local_action_id` */
  datatype ActionId = ActionId(draft: string, request: string, digest: Digest)

  datatype Draft = Draft(account: string, current: nat)

  /** `details` are the columns that are stored and returned but not compared here. */
  datatype VersionRow = VersionRow(draft: string, version: nat, account: string, digest: Digest, request: string,
                                   artifact: nat, details: string)

  function ActionOf(row: VersionRow): ActionId {
    ActionId(row.draft, row.request, row.digest)
  }

  datatype SendState = Prepared | Unknown | Succeeded | Partial | Failed | SentConfirmed | NeedsUserAction

  /** The arguments of a send; their digest is the envelope digest. `other` are the columns compared as a whole. */
  datatype Approval = Approval(account: string, draft: string, version: int, digest: Digest, action: ActionId, other: string)

  datatype Action = Action(account: string, draft: string, version: int, envelope: Approval, state: SendState, receipt: string)

  datatype Tables = Tables(drafts: map<string, Draft>, versions: seq<VersionRow>, actions: map<ActionId, Action>)

  const NO_DRAFTS := Tables(map[], [], map[])

  // ---- reading versions ----

  /** COALESCE(max(version), 0) */
  function MaxVersion(rows: seq<VersionRow>, draft: string): nat {
    if rows == [] then 0
    else
      var before, row := MaxVersion(rows[..|rows| - 1], draft), rows[|rows| - 1];
      if row.draft == draft && before <= row.version then row.version else before
  }

  function ByRequest(rows: seq<VersionRow>, draft: string, request: string): Option<VersionRow> {
    if rows == [] then None
    else
      var row := rows[|rows| - 1];
      if row.draft == draft && row.request == request then Some(row)
      else ByRequest(rows[..|rows| - 1], draft, request)
  }

  function ByVersion(rows: seq<VersionRow>, draft: string, version: nat): Option<VersionRow> {
    if rows == [] then None
    else
      var row := rows[|rows| - 1];
      if row.draft == draft && row.version == version then Some(row)
      else ByVersion(rows[..|rows| - 1], draft, version)
  }

  lemma {:induction false} ByRequestFinds(rows: seq<VersionRow>, draft: string, request: string)
    ensures var r := ByRequest(rows, draft, request);
            && (r.Some? ==> r.value in rows && r.value.draft == draft && r.value.request == request)
            && (r.None? ==> forall i :: 0 <= i < |rows| ==> rows[i].draft != draft || rows[i].request != request)
  {
    if rows != [] {
      ByRequestFinds(rows[..|rows| - 1], draft, request);
      assert rows == rows[..|rows| - 1] + [rows[|rows| - 1]];
    }
  }

  lemma {:induction false} ByVersionFinds(rows: seq<VersionRow>, draft: string, version: nat)
    ensures var r := ByVersion(rows, draft, version);
            && (r.Some? ==> r.value in rows && r.value.draft == draft && r.value.version == version)
            && (r.None? ==> forall i :: 0 <= i < |rows| ==> rows[i].draft != draft || rows[i].version != version)
  {
    if rows != [] {
      ByVersionFinds(rows[..|rows| - 1], draft, version);
      assert rows == rows[..|rows| - 1] + [rows[|rows| - 1]];
    }
  }

  // ---- inserting a version ----

  /**
   `insert_draft_version`: one transaction that ensures the draft row, and inserts the next version and moves the pointer
   to it only if the pointer is where the caller saw it and the request is new.
   */
  function InsertVersion(t: Tables, row: VersionRow, expected: nat): (Tables, Option<nat>) {
    var drafts := if row.draft in t.drafts then t.drafts else t.drafts[row.draft := Draft(row.account, 0)];
    if drafts[row.draft].current == expected && ByRequest(t.versions, row.draft, row.request).None? then
      var version := MaxVersion(t.versions, row.draft) + 1;
      (t.(drafts := drafts[row.draft := drafts[row.draft].(current := version)],
          versions := t.versions + [row.(version := version)]), Some(version))
    else (t.(drafts := drafts), None)
  }

  /** Versions of a draft are 1, 2, ... up to its current one, in insertion order, each for a request of its own. */
  ghost predicate DraftsOk(t: Tables) {
    && (forall i :: 0 <= i < |t.versions| ==> RowOk(t.drafts, t.versions[i]))
    && (forall i, j :: 0 <= i < j < |t.versions| && t.versions[i].draft == t.versions[j].draft ==>
          t.versions[i].version < t.versions[j].version && t.versions[i].request != t.versions[j].request)
    && (forall d :: d in t.drafts ==> t.drafts[d].current >= 1)
    && (forall d, n: nat :: d in t.drafts && 1 <= n <= t.drafts[d].current ==> HasVersion(t.versions, d, n))
  }

  ghost predicate RowOk(drafts: map<string, Draft>, row: VersionRow) {
    row.draft in drafts && row.account == drafts[row.draft].account && 1 <= row.version <= drafts[row.draft].current
  }

  ghost predicate HasVersion(rows: seq<VersionRow>, draft: string, n: nat) {
    exists i :: 0 <= i < |rows| && rows[i].draft == draft && rows[i].version == n
  }

  lemma {:induction false} MaxVersionBounds(rows: seq<VersionRow>, draft: string)
    ensures forall i :: 0 <= i < |rows| && rows[i].draft == draft ==> rows[i].version <= MaxVersion(rows, draft)
    ensures MaxVersion(rows, draft) == 0 || HasVersion(rows, draft, MaxVersion(rows, draft))
  {
    if rows != [] {
      var n := |rows| - 1;
      MaxVersionBounds(rows[..n], draft);
      if HasVersion(rows[..n], draft, MaxVersion(rows[..n], draft)) {
        var i :| 0 <= i < n && rows[..n][i].draft == draft && rows[..n][i].version == MaxVersion(rows[..n], draft);
        assert rows[i] == rows[..n][i];
      }
      forall i | 0 <= i < |rows| && rows[i].draft == draft
        ensures rows[i].version <= MaxVersion(rows, draft)
      {
        if i < n { assert rows[..n][i] == rows[i]; }
      }
    }
  }

  lemma MaxIsCurrent(t: Tables, draft: string)
    requires DraftsOk(t)
    ensures MaxVersion(t.versions, draft) == if draft in t.drafts then t.drafts[draft].current else 0
  {
    MaxVersionBounds(t.versions, draft);
    if draft in t.drafts {
      assert HasVersion(t.versions, draft, t.drafts[draft].current);
    }
  }

  /** Whoever inserts has seen either no draft at all, or one of the same account. */
  ghost predicate Seen(t: Tables, draft: string, account: string, expected: nat) {
    expected == 0 || (draft in t.drafts && t.drafts[draft].account == account)
  }

  lemma InsertKeeps(t: Tables, row: VersionRow, expected: nat)
    requires DraftsOk(t) && Seen(t, row.draft, row.account, expected)
    ensures var (t', v) := InsertVersion(t, row, expected);
            && DraftsOk(t') && t.versions <= t'.versions && t'.actions == t.actions
            && (forall d :: d in t.drafts ==> d in t'.drafts && t'.drafts[d].account == t.drafts[d].account
                                              && t.drafts[d].current <= t'.drafts[d].current)
            && (v.None? ==> t' == t)
            && (v.Some? ==> t'.versions == t.versions + [row.(version := v.value)] && v.value == expected + 1
                            && row.draft in t'.drafts && t'.drafts[row.draft].current == v.value)
  {
    hide MaxVersion, ByRequest, RowOk, HasVersion;
    var (t', v) := InsertVersion(t, row, expected);
    MaxIsCurrent(t, row.draft);
    ByRequestFinds(t.versions, row.draft, row.request);
    if row.draft !in t.drafts {
      NoRows(t, row.draft);
      assert expected == 0;
    }
    if v.Some? { InsertRows(t, t', row, expected); }
  }

  lemma NoRows(t: Tables, draft: string)
    requires DraftsOk(t) && draft !in t.drafts
    ensures forall request :: ByRequest(t.versions, draft, request).None?
  {
    hide HasVersion, ByRequest;
    forall request
      ensures ByRequest(t.versions, draft, request).None?
    {
      ByRequestFinds(t.versions, draft, request);
    }
  }

  lemma InsertRows(t: Tables, t': Tables, row: VersionRow, expected: nat)
    requires DraftsOk(t) && Seen(t, row.draft, row.account, expected)
    requires if row.draft in t.drafts then t.drafts[row.draft].current == expected else expected == 0
    requires forall i :: 0 <= i < |t.versions| && t.versions[i].draft == row.draft ==> t.versions[i].request != row.request
    requires t'.versions == t.versions + [row.(version := expected + 1)]
    requires t'.drafts == t.drafts[row.draft := Draft(if row.draft in t.drafts then t.drafts[row.draft].account else row.account, expected + 1)]
    ensures DraftsOk(t')
  {
    forall d, n: nat | d in t'.drafts && 1 <= n <= t'.drafts[d].current
      ensures HasVersion(t'.versions, d, n)
    {
      if d == row.draft && n == expected + 1 {
        assert t'.versions[|t.versions|].version == n;
      } else {
        assert HasVersion(t.versions, d, n);
        var i :| 0 <= i < |t.versions| && t.versions[i].draft == d && t.versions[i].version == n;
        assert t'.versions[i] == t.versions[i];
      }
    }
    forall i | 0 <= i < |t'.versions|
      ensures RowOk(t'.drafts, t'.versions[i])
    {
      if i < |t.versions| { assert RowOk(t.drafts, t.versions[i]); }
    }
    assert forall i :: 0 <= i < |t.versions| && t.versions[i].draft == row.draft ==> RowOk(t.drafts, t.versions[i]);
  }

  /** A row is the one its draft and request determine, and the one its draft and version determine. */
  lemma RowUnique(t: Tables, i: nat)
    requires DraftsOk(t) && i < |t.versions|
    ensures ByRequest(t.versions, t.versions[i].draft, t.versions[i].request) == Some(t.versions[i])
    ensures ByVersion(t.versions, t.versions[i].draft, t.versions[i].version) == Some(t.versions[i])
  {
    hide RowOk, HasVersion;
    ByRequestFinds(t.versions, t.versions[i].draft, t.versions[i].request);
    ByVersionFinds(t.versions, t.versions[i].draft, t.versions[i].version);
  }

  // ---- send actions ----

  /** INSERT ... ON CONFLICT (local_action_id) DO NOTHING */
  function PutAction(t: Tables, id: ActionId, action: Action): Tables {
    if id in t.actions then t else t.(actions := t.actions[id := action])
  }

  predicate Open(state: SendState) {
    state == Prepared || state == Unknown
  }

  /** `project_status`: only an open state can be left, and only for another one. */
  function Project(t: Tables, id: ActionId, state: SendState, receipt: string): Tables {
    if id in t.actions && Open(t.actions[id].state) && t.actions[id].state != state
    then t.(actions := t.actions[id := t.actions[id].(state := state, receipt := receipt)])
    else t
  }

  /**
   What a projection shows afterwards: an action in PREPARED or UNKNOWN takes a different state and its receipt, one in any
   other state keeps its own, and no other action, draft or version is touched.
   */
  lemma Projected(t: Tables, id: ActionId, state: SendState, receipt: string)
    ensures var t' := Project(t, id, state, receipt);
            && t'.drafts == t.drafts && t'.versions == t.versions && t'.actions.Keys == t.actions.Keys
            && (forall x :: x in t.actions && x != id ==> t'.actions[x] == t.actions[x])
            && (id in t.actions ==>
                  var a, a' := t.actions[id], t'.actions[id];
                  && a'.account == a.account && a'.draft == a.draft && a'.version == a.version && a'.envelope == a.envelope
                  && (a.state == Prepared || a.state == Unknown ==> a'.state == state && (a.state != state ==> a'.receipt == receipt))
                  && (!(a.state == Prepared || a.state == Unknown) || a.state == state ==> a' == a))
  {
  }
}
