/**
 Sending drafts while they are being edited. Materialising reads the draft's current version, reads and checks that
 version, and then claims the action; edits may be committed in between.
 */
module SendMachine {
  import opened Wrappers
  import opened OutboxTables

  /** Sender, subject, recipients and attachments, and the account fingerprint, agree with the stored version. */
  type Matcher = (string, string) -> bool

  predicate Verifies(a: Approval, row: VersionRow, matches: Matcher) {
    a.digest == row.digest && a.action == ActionOf(row) && matches(a.other, row.details)
  }

  datatype Phase = Asked | Current | Verified | Claimed | Materialized | Refused

  datatype Send = Send(approval: Approval, phase: Phase)

  datatype World = World(t: Tables, sends: map<nat, Send>)

  datatype Step =
    | Edit(row: VersionRow, expected: nat)
    | Ask(id: nat, approval: Approval)
    | ReadDraft(id: nat)
    | ReadVersion(id: nat)
    | Claim(id: nat)
    | ReadBack(id: nat)
    | Record(action: ActionId, state: SendState, receipt: string)

  ghost predicate Enabled(w: World, s: Step) {
    match s
    case Edit(row, expected) => Seen(w.t, row.draft, row.account, expected)
    case Ask(id, _) => id !in w.sends
    case ReadDraft(id) => id in w.sends && w.sends[id].phase.Asked?
    case ReadVersion(id) => id in w.sends && w.sends[id].phase.Current?
    case Claim(id) => id in w.sends && w.sends[id].phase.Verified?
    case ReadBack(id) => id in w.sends && w.sends[id].phase.Claimed? && w.sends[id].approval.action in w.t.actions
    case Record(_, state, _) => state != Prepared
  }

  function Moved(w: World, id: nat, phase: Phase): World
    requires id in w.sends
  {
    w.(sends := w.sends[id := w.sends[id].(phase := phase)])
  }

  function NewAction(a: Approval): Action {
    Action(a.account, a.draft, a.version, a, Prepared, "")
  }

  ghost function Do(w: World, s: Step, matches: Matcher): World
    requires Enabled(w, s)
  {
    match s
    case Edit(row, expected) => w.(t := InsertVersion(w.t, row, expected).0)
    case Ask(id, a) => w.(sends := w.sends[id := Send(a, if a.version >= 1 then Asked else Refused)])
    case ReadDraft(id) =>
      var a := w.sends[id].approval;
      Moved(w, id, if a.draft in w.t.drafts && w.t.drafts[a.draft].current == a.version then Current else Refused)
    case ReadVersion(id) =>
      var a := w.sends[id].approval;
      var row := if a.version >= 0 then ByVersion(w.t.versions, a.draft, a.version) else None;
      Moved(w, id, if row.Some? && Verifies(a, row.value, matches) then Verified else Refused)
    case Claim(id) =>
      var a := w.sends[id].approval;
      Moved(w, id, Claimed).(t := PutAction(w.t, a.action, NewAction(a)))
    case ReadBack(id) =>
      var a := w.sends[id].approval;
      Moved(w, id, if w.t.actions[a.action].envelope == a then Materialized else Refused)
    case Record(action, state, receipt) => w.(t := Project(w.t, action, state, receipt))
  }

  // ---- the invariant ----

  ghost predicate HasRow(rows: seq<VersionRow>, action: ActionId, draft: string, version: int) {
    exists i :: 0 <= i < |rows| && ActionOf(rows[i]) == action && rows[i].draft == draft && rows[i].version == version
  }

  /** An action belongs to the one version that carries its id, and to one approval. */
  ghost predicate ActionsOk(t: Tables) {
    forall id :: id in t.actions ==>
      && t.actions[id].envelope.action == id && t.actions[id].envelope.version == t.actions[id].version
      && t.actions[id].envelope.draft == t.actions[id].draft
      && HasRow(t.versions, id, t.actions[id].draft, t.actions[id].version)
  }

  ghost predicate SendOk(w: World, send: Send) {
    var a := send.approval;
    && (send.phase.Current? || send.phase.Verified? || send.phase.Claimed? || send.phase.Materialized? ==>
          a.draft in w.t.drafts && a.version <= w.t.drafts[a.draft].current)
    && (send.phase.Verified? || send.phase.Claimed? || send.phase.Materialized? ==>
          HasRow(w.t.versions, a.action, a.draft, a.version))
    && (send.phase.Claimed? || send.phase.Materialized? ==> a.action in w.t.actions)
    && (send.phase.Materialized? ==> w.t.actions[a.action].envelope == a)
  }

  ghost predicate Inv(w: World) {
    DraftsOk(w.t) && ActionsOk(w.t) && forall id :: id in w.sends ==> SendOk(w, w.sends[id])
  }

  /** What no step ever undoes. */
  ghost predicate Grows(t: Tables, t': Tables) {
    && t.versions <= t'.versions
    && (forall d :: d in t.drafts ==> d in t'.drafts && t.drafts[d].current <= t'.drafts[d].current)
    && (forall id :: id in t.actions ==> id in t'.actions && ActionKept(t.actions[id], t'.actions[id]))
  }

  /** The approval an action is bound to never changes, and once its state is final nothing of it does. */
  predicate ActionKept(a: Action, a': Action) {
    a'.envelope == a.envelope && a'.draft == a.draft && a'.version == a.version && (!Open(a.state) ==> a' == a)
  }

  lemma RowKept(rows: seq<VersionRow>, rows': seq<VersionRow>, action: ActionId, draft: string, version: int)
    requires rows <= rows' && HasRow(rows, action, draft, version)
    ensures HasRow(rows', action, draft, version)
  {
    var i :| 0 <= i < |rows| && ActionOf(rows[i]) == action && rows[i].draft == draft && rows[i].version == version;
    assert rows'[i] == rows[i];
  }

  lemma SendKept(w: World, w': World, send: Send)
    requires SendOk(w, send) && Grows(w.t, w'.t)
    ensures SendOk(w', send)
  {
    hide HasRow;
    var a := send.approval;
    if send.phase.Verified? || send.phase.Claimed? || send.phase.Materialized? {
      RowKept(w.t.versions, w'.t.versions, a.action, a.draft, a.version);
    }
  }

  lemma ActionsKept(t: Tables, t': Tables)
    requires ActionsOk(t) && Grows(t, t')
    requires forall id :: id in t'.actions ==> id in t.actions
    ensures ActionsOk(t')
  {
    hide HasRow;
    forall id | id in t'.actions
      ensures HasRow(t'.versions, id, t'.actions[id].draft, t'.actions[id].version)
    {
      RowKept(t.versions, t'.versions, id, t.actions[id].draft, t.actions[id].version);
    }
  }

  /** Every step only adds: versions, pointers, actions, and at most one state change out of an open state. */
  lemma StepGrows(w: World, s: Step, matches: Matcher)
    requires Inv(w) && Enabled(w, s)
    ensures Grows(w.t, Do(w, s, matches).t)
  {
    hide DraftsOk, ActionsOk, SendOk, InsertVersion;
    if s.Edit? { InsertKeeps(w.t, s.row, s.expected); }
  }

  lemma SendsKept(w: World, w': World, id: nat)
    requires (forall x :: x in w.sends ==> SendOk(w, w.sends[x])) && Grows(w.t, w'.t)
    requires id in w'.sends && w'.sends == w.sends[id := w'.sends[id]] && SendOk(w', w'.sends[id])
    ensures forall x :: x in w'.sends ==> SendOk(w', w'.sends[x])
  {
    hide SendOk, Grows;
    forall x | x in w'.sends && x != id
      ensures SendOk(w', w'.sends[x])
    {
      SendKept(w, w', w.sends[x]);
    }
  }

  lemma ReadKeeps(w: World, s: Step, matches: Matcher)
    requires Inv(w) && Enabled(w, s) && (s.Ask? || s.ReadDraft? || s.ReadVersion? || s.ReadBack?)
    ensures Inv(Do(w, s, matches))
  {
    hide DraftsOk, ActionsOk, HasRow, ByVersion;
    var w', id := Do(w, s, matches), s.id;
    if id in w.sends { assert SendOk(w, w.sends[id]); }
    if s.ReadVersion? && w.sends[id].approval.version >= 0 { VersionRead(w.t, w.sends[id].approval, matches); }
    SendsKept(w, w', id);
  }

  lemma VersionRead(t: Tables, a: Approval, matches: Matcher)
    requires a.version >= 0
    ensures var row := ByVersion(t.versions, a.draft, a.version);
            row.Some? && Verifies(a, row.value, matches) ==> HasRow(t.versions, a.action, a.draft, a.version)
  {
    hide ByVersion;
    ByVersionFinds(t.versions, a.draft, a.version);
    var row := ByVersion(t.versions, a.draft, a.version);
    if row.Some? && Verifies(a, row.value, matches) {
      var i :| 0 <= i < |t.versions| && t.versions[i] == row.value;
    }
  }

  lemma ClaimKeeps(w: World, id: nat, matches: Matcher)
    requires Inv(w) && Enabled(w, Claim(id))
    ensures Inv(Do(w, Claim(id), matches))
  {
    hide DraftsOk, HasRow;
    var w' := Do(w, Claim(id), matches);
    assert SendOk(w, w.sends[id]);
    DraftsAlone(w.t, w'.t);
    SendsKept(w, w', id);
  }

  lemma DraftsAlone(t: Tables, t': Tables)
    requires DraftsOk(t) && t' == t.(actions := t'.actions)
    ensures DraftsOk(t')
  {
  }

  lemma TableKeeps(w: World, s: Step, matches: Matcher)
    requires Inv(w) && Enabled(w, s) && (s.Edit? || s.Record?)
    ensures Inv(Do(w, s, matches))
  {
    hide DraftsOk, ActionsOk, SendOk, Grows, InsertVersion;
    var w' := Do(w, s, matches);
    StepGrows(w, s, matches);
    if s.Edit? { InsertKeeps(w.t, s.row, s.expected); } else { DraftsAlone(w.t, w'.t); }
    ActionsKept(w.t, w'.t);
    forall x | x in w'.sends
      ensures SendOk(w', w'.sends[x])
    {
      SendKept(w, w', w.sends[x]);
    }
  }

  lemma StepKeeps(w: World, s: Step, matches: Matcher)
    requires Inv(w) && Enabled(w, s)
    ensures Inv(Do(w, s, matches))
  {
    hide Inv, Do;
    match s
    case Edit(_, _) => TableKeeps(w, s, matches);
    case Record(_, _, _) => TableKeeps(w, s, matches);
    case Claim(id) => ClaimKeeps(w, id, matches);
    case _ => ReadKeeps(w, s, matches);
  }

  // ---- whole runs ----

  ghost predicate Run(ws: seq<World>, steps: seq<Step>, matches: Matcher) {
    && |ws| == |steps| + 1 && ws[0] == World(NO_DRAFTS, map[])
    && forall i :: 0 <= i < |steps| ==> Enabled(ws[i], steps[i]) && ws[i + 1] == Do(ws[i], steps[i], matches)
  }

  lemma {:induction false} RunKeeps(ws: seq<World>, steps: seq<Step>, matches: Matcher, i: nat)
    requires Run(ws, steps, matches) && i < |ws|
    ensures Inv(ws[i])
  {
    hide Do, Enabled;
    if i > 0 {
      RunKeeps(ws, steps, matches, i - 1);
      hide Inv;
      StepKeeps(ws[i - 1], steps[i - 1], matches);
    }
  }

  lemma {:induction false} RunGrows(ws: seq<World>, steps: seq<Step>, matches: Matcher, i: nat, j: nat)
    requires Run(ws, steps, matches) && i <= j < |ws|
    ensures Grows(ws[i].t, ws[j].t)
  {
    hide Do, Enabled, Inv;
    if i < j {
      RunGrows(ws, steps, matches, i, j - 1);
      RunKeeps(ws, steps, matches, j - 1);
      StepGrows(ws[j - 1], steps[j - 1], matches);
    }
  }

  /** An action id is bound to one approval for good, and a state other than PREPARED or UNKNOWN is final. */
  lemma ActionsFinal(ws: seq<World>, steps: seq<Step>, matches: Matcher, i: nat, j: nat, id: ActionId)
    requires Run(ws, steps, matches) && i <= j < |ws| && id in ws[i].t.actions
    ensures id in ws[j].t.actions && ws[j].t.actions[id].envelope == ws[i].t.actions[id].envelope
    ensures !Open(ws[i].t.actions[id].state) ==> ws[j].t.actions[id] == ws[i].t.actions[id]
  {
    hide Run;
    RunGrows(ws, steps, matches, i, j);
  }

  /** The step records a state other than PREPARED and UNKNOWN for the action. */
  predicate Concludes(s: Step, id: ActionId) {
    s.Record? && s.action == id && s.state != Prepared && s.state != Unknown
  }

  lemma RecordStep(w: World, s: Step, matches: Matcher, id: ActionId)
    requires Enabled(w, s)
    ensures var t' := Do(w, s, matches).t;
            && (id in w.t.actions ==> id in t'.actions)
            && (id !in w.t.actions && id in t'.actions ==> t'.actions[id].state == Prepared)
            && (id in w.t.actions && w.t.actions[id].state in {Prepared, Unknown} ==>
                  if Concludes(s, id) then t'.actions[id].state == s.state && t'.actions[id].receipt == s.receipt
                  else t'.actions[id].state in {Prepared, Unknown})
  {
    hide InsertVersion, ByVersion;
    if s.Edit? { InsertLeavesActions(w.t, s.row, s.expected); }
  }

  lemma InsertLeavesActions(t: Tables, row: VersionRow, expected: nat)
    ensures InsertVersion(t, row, expected).0.actions == t.actions
  {
  }

  lemma {:induction false} OpenUntilConcluded(ws: seq<World>, steps: seq<Step>, matches: Matcher, c: nat, i: nat, id: ActionId)
    requires Run(ws, steps, matches) && c < i < |ws| && id !in ws[c].t.actions && id in ws[c + 1].t.actions
    requires forall k :: c < k < i ==> !Concludes(steps[k], id)
    ensures id in ws[i].t.actions && ws[i].t.actions[id].state in {Prepared, Unknown}
  {
    hide Do, Enabled, Concludes;
    if i > c + 1 { OpenUntilConcluded(ws, steps, matches, c, i - 1, id); }
    RecordStep(ws[i - 1], steps[i - 1], matches, id);
  }

  /** First terminal wins: the first final state recorded after an action was claimed is its state ever after. */
  lemma FirstFinalWins(ws: seq<World>, steps: seq<Step>, matches: Matcher, c: nat, i: nat, j: nat, id: ActionId)
    requires Run(ws, steps, matches) && c < i < j < |ws| && id !in ws[c].t.actions && id in ws[c + 1].t.actions
    requires Concludes(steps[i], id) && forall k :: c < k < i ==> !Concludes(steps[k], id)
    ensures id in ws[j].t.actions && ws[j].t.actions[id].state == steps[i].state && ws[j].t.actions[id].receipt == steps[i].receipt
  {
    hide Do, Enabled;
    OpenUntilConcluded(ws, steps, matches, c, i, id);
    RecordStep(ws[i], steps[i], matches, id);
    ActionsFinal(ws, steps, matches, i + 1, j, id);
  }

  /** Two sends that were materialised with the same action id had the same approval, hence the same version. */
  lemma OneApprovalPerAction(ws: seq<World>, steps: seq<Step>, matches: Matcher, i: nat, x: nat, y: nat)
    requires Run(ws, steps, matches) && i < |ws| && x in ws[i].sends && y in ws[i].sends
    requires ws[i].sends[x].phase.Materialized? && ws[i].sends[y].phase.Materialized?
    requires ws[i].sends[x].approval.action == ws[i].sends[y].approval.action
    ensures ws[i].sends[x].approval == ws[i].sends[y].approval
  {
    hide Run, HasRow, DraftsOk;
    RunKeeps(ws, steps, matches, i);
    assert SendOk(ws[i], ws[i].sends[x]) && SendOk(ws[i], ws[i].sends[y]);
  }

  predicate PastRead(phase: Phase) {
    phase.Current? || phase.Verified? || phase.Claimed? || phase.Materialized?
  }

  /** A send gets past the read of the draft in one way only. */
  lemma PassesRead(w: World, s: Step, matches: Matcher, id: nat)
    requires Enabled(w, s)
    requires var w' := Do(w, s, matches); id in w'.sends && PastRead(w'.sends[id].phase)
    requires !(id in w.sends && PastRead(w.sends[id].phase))
    ensures var a := Do(w, s, matches).sends[id].approval;
            && id in w.sends && w.sends[id] == Send(a, Asked) && s == ReadDraft(id)
            && a.draft in w.t.drafts && w.t.drafts[a.draft].current == a.version
  {
    hide ByVersion, InsertVersion, PutAction, Project, Verifies;
  }

  lemma KeepsApproval(w: World, s: Step, matches: Matcher, id: nat)
    requires Enabled(w, s) && id in w.sends
    ensures id in Do(w, s, matches).sends && Do(w, s, matches).sends[id].approval == w.sends[id].approval
  {
    hide ByVersion, InsertVersion, PutAction, Project, Verifies;
  }

  /**
   Once an edit has committed, no send that has not yet read the draft can get past that read with an earlier version.
   */
  lemma {:induction false} NoEarlierVersion(ws: seq<World>, steps: seq<Step>, matches: Matcher, i: nat, j: nat, id: nat)
    requires Run(ws, steps, matches) && i <= j < |ws|
    requires id !in ws[i].sends || ws[i].sends[id].phase.Asked?
    requires id in ws[j].sends && PastRead(ws[j].sends[id].phase)
    ensures var a := ws[j].sends[id].approval;
            a.draft in ws[i].t.drafts ==> a.version >= ws[i].t.drafts[a.draft].current
  {
    hide Inv, Do, Enabled;
    if id in ws[j - 1].sends && PastRead(ws[j - 1].sends[id].phase) {
      NoEarlierVersion(ws, steps, matches, i, j - 1, id);
      KeepsApproval(ws[j - 1], steps[j - 1], matches, id);
    } else {
      RunGrows(ws, steps, matches, i, j - 1);
      PassesRead(ws[j - 1], steps[j - 1], matches, id);
    }
  }

  /** A version that a send goes on with was the draft's current one at the moment the send read the draft. */
  lemma {:induction false} MaterializedWasCurrent(ws: seq<World>, steps: seq<Step>, matches: Matcher, j: nat, id: nat) returns (k: nat)
    requires Run(ws, steps, matches) && j < |ws|
    requires id in ws[j].sends && PastRead(ws[j].sends[id].phase)
    ensures k < j && steps[k] == ReadDraft(id)
    ensures id in ws[k].sends && ws[k].sends[id] == Send(ws[j].sends[id].approval, Asked)
    ensures var a := ws[j].sends[id].approval; a.draft in ws[k].t.drafts && ws[k].t.drafts[a.draft].current == a.version
  {
    hide Inv, Do, Enabled;
    if id in ws[j - 1].sends && PastRead(ws[j - 1].sends[id].phase) {
      k := MaterializedWasCurrent(ws, steps, matches, j - 1, id);
      KeepsApproval(ws[j - 1], steps[j - 1], matches, id);
    } else {
      PassesRead(ws[j - 1], steps[j - 1], matches, id);
      k := j - 1;
    }
  }

  // ---- edits while a send is under way ----

  /** The step commits an edit of this draft. */
  predicate Edits(w: World, s: Step, draft: string) {
    s.Edit? && s.row.draft == draft && InsertVersion(w.t, s.row, s.expected).1.Some?
  }

  lemma StepCurrent(w: World, s: Step, matches: Matcher, draft: string)
    requires Inv(w) && Enabled(w, s) && draft in w.t.drafts
    ensures var t := Do(w, s, matches).t;
            draft in t.drafts && t.drafts[draft].current == w.t.drafts[draft].current + if Edits(w, s, draft) then 1 else 0
  {
    hide DraftsOk, ActionsOk, SendOk;
    if s.Edit? {
      if Edits(w, s, draft) { CurrentMoved(w.t, s.row, s.expected); }
      InsertKeeps(w.t, s.row, s.expected);
    }
  }

  predicate PastCheck(phase: Phase) {
    phase.Verified? || phase.Claimed? || phase.Materialized?
  }

  /** A stored version is the approved one: same digest, same action, and everything else the approval lists. */
  ghost predicate Agrees(rows: seq<VersionRow>, a: Approval, matches: Matcher) {
    exists i :: 0 <= i < |rows| && rows[i].draft == a.draft && rows[i].version == a.version && rows[i].digest == a.digest
                && a.action == ActionId(rows[i].draft, rows[i].request, rows[i].digest) && matches(a.other, rows[i].details)
  }

  lemma PassesCheck(w: World, s: Step, matches: Matcher, id: nat)
    requires Enabled(w, s)
    requires var w' := Do(w, s, matches); id in w'.sends && PastCheck(w'.sends[id].phase)
    requires !(id in w.sends && PastCheck(w.sends[id].phase))
    ensures id in w.sends && s == ReadVersion(id) && Do(w, s, matches).sends[id].approval == w.sends[id].approval
    ensures Agrees(w.t.versions, w.sends[id].approval, matches)
  {
    hide ByVersion, InsertVersion, PutAction, Project;
    var a := w.sends[id].approval;
    ByVersionFinds(w.t.versions, a.draft, a.version);
    var row := ByVersion(w.t.versions, a.draft, a.version).value;
    var i :| 0 <= i < |w.t.versions| && w.t.versions[i] == row;
  }

  /** What is materialised is what was approved: a stored version that agrees with the approval in every point. */
  lemma {:induction false} MaterializedAgrees(ws: seq<World>, steps: seq<Step>, matches: Matcher, j: nat, id: nat)
    requires Run(ws, steps, matches) && j < |ws| && id in ws[j].sends && PastCheck(ws[j].sends[id].phase)
    ensures Agrees(ws[j].t.versions, ws[j].sends[id].approval, matches)
  {
    hide Do, Enabled, Inv, PastCheck;
    if j > 0 {
      var w, s := ws[j - 1], steps[j - 1];
      RunGrows(ws, steps, matches, j - 1, j);
      if id in w.sends && PastCheck(w.sends[id].phase) {
        MaterializedAgrees(ws, steps, matches, j - 1, id);
        KeepsApproval(w, s, matches, id);
      } else {
        PassesCheck(w, s, matches, id);
      }
      AgreesLater(w.t.versions, ws[j].t.versions, ws[j].sends[id].approval, matches);
    }
  }

  lemma AgreesLater(rows: seq<VersionRow>, rows': seq<VersionRow>, a: Approval, matches: Matcher)
    requires rows <= rows' && Agrees(rows, a, matches)
    ensures Agrees(rows', a, matches)
  {
    var i :| 0 <= i < |rows| && rows[i].draft == a.draft && rows[i].version == a.version && rows[i].digest == a.digest
             && a.action == ActionId(rows[i].draft, rows[i].request, rows[i].digest) && matches(a.other, rows[i].details);
    assert rows'[i] == rows[i];
  }

  /** A draft's current version stays the same over a stretch of a run exactly if no edit of it commits there. */
  lemma {:induction false} CurrentStays(ws: seq<World>, steps: seq<Step>, matches: Matcher, k: nat, j: nat, draft: string)
    requires Run(ws, steps, matches) && k <= j < |ws| && draft in ws[k].t.drafts
    ensures draft in ws[j].t.drafts && ws[k].t.drafts[draft].current <= ws[j].t.drafts[draft].current
    ensures ws[j].t.drafts[draft].current == ws[k].t.drafts[draft].current <==>
            forall n :: k <= n < j ==> !Edits(ws[n], steps[n], draft)
  {
    hide Inv, Do, Enabled, Edits;
    if k < j {
      CurrentStays(ws, steps, matches, k, j - 1, draft);
      RunKeeps(ws, steps, matches, j - 1);
      StepCurrent(ws[j - 1], steps[j - 1], matches, draft);
    }
  }

  /**
   Exactly when a send is outrun: at any moment at or after its materialisation, the version it sent is still current if and
   only if no edit of its draft has committed since the send read the draft.
   */
  lemma MaterializedIsCurrentIff(ws: seq<World>, steps: seq<Step>, matches: Matcher, j: nat, id: nat) returns (k: nat)
    requires Run(ws, steps, matches) && j < |ws|
    requires id in ws[j].sends && ws[j].sends[id].phase.Materialized?
    ensures k < j && steps[k] == ReadDraft(id) && ws[j].sends[id].approval.draft in ws[j].t.drafts
    ensures var a := ws[j].sends[id].approval;
            ws[j].t.drafts[a.draft].current == a.version <==> forall n :: k <= n < j ==> !Edits(ws[n], steps[n], a.draft)
  {
    hide Run, Edits;
    k := MaterializedWasCurrent(ws, steps, matches, j, id);
    CurrentStays(ws, steps, matches, k, j, ws[j].sends[id].approval.draft);
  }

  /**
   Between the read and the claim nothing protects a send: an edit committed after the version was verified does not stop
   it, and it materialises a version that is no longer current.
   */
  lemma EditBetweenReadAndClaim(w: World, id: nat, row: VersionRow, expected: nat, matches: Matcher)
    requires Inv(w) && id in w.sends && w.sends[id].phase.Verified? && w.sends[id].approval.action !in w.t.actions
    requires Seen(w.t, row.draft, row.account, expected) && row.draft == w.sends[id].approval.draft
    requires InsertVersion(w.t, row, expected).1.Some?
    ensures var w' := Do(w, Edit(row, expected), matches);
            var w'' := Do(w', Claim(id), matches);
            && Enabled(w'', ReadBack(id))
            && var end := Do(w'', ReadBack(id), matches);
               && end.sends[id].phase.Materialized? && row.draft in end.t.drafts
               && end.t.drafts[row.draft].current > end.sends[id].approval.version
  {
    hide InsertVersion, DraftsOk, HasRow, ActionsOk;
    InsertKeeps(w.t, row, expected);
    assert SendOk(w, w.sends[id]);
    assert InsertVersion(w.t, row, expected).0.drafts[row.draft].current > w.t.drafts[row.draft].current by {
      CurrentMoved(w.t, row, expected);
    }
  }

  lemma FirstVersion(row: VersionRow)
    ensures InsertVersion(NO_DRAFTS, row, 0) ==
              (Tables(map[row.draft := Draft(row.account, 1)], [row.(version := 1)], map[]), Some(1))
  {
    assert ByRequest([], row.draft, row.request) == None && MaxVersion([], row.draft) == 0;
    var t := InsertVersion(NO_DRAFTS, row, 0).0;
    assert t.drafts == map[row.draft := Draft(row.account, 1)];
    assert t.versions == [row.(version := 1)];
  }

  lemma SecondVersion(t: Tables, first: VersionRow, row: VersionRow)
    requires t == Tables(map[row.draft := Draft(row.account, 1)], [first], map[])
    requires first.draft == row.draft && first.request != row.request && first.version == 1
    ensures InsertVersion(t, row, 1).1 == Some(2)
  {
    assert [first][..0] == [];
    assert MaxVersion([], row.draft) == 0 && ByRequest([], row.draft, row.request) == None;
  }

  /** The first four steps: version 1 is written, and a send of it has read and verified it. */
  lemma VerifiedRun(first: VersionRow, a: Approval, matches: Matcher) returns (ws: seq<World>, steps: seq<Step>)
    requires a.draft == first.draft && a.version == 1 && Verifies(a, first, matches)
    ensures Run(ws, steps, matches) && |steps| == 4
    ensures ws[4] == World(Tables(map[first.draft := Draft(first.account, 1)], [first.(version := 1)], map[]), map[0 := Send(a, Verified)])
  {
    hide InsertVersion;
    FirstVersion(first);
    var t := Tables(map[first.draft := Draft(first.account, 1)], [first.(version := 1)], map[]);
    assert ByVersion([first.(version := 1)], first.draft, 1) == Some(first.(version := 1));
    steps := [Edit(first, 0), Ask(0, a), ReadDraft(0), ReadVersion(0)];
    ws := [World(NO_DRAFTS, map[]), World(t, map[]), World(t, map[0 := Send(a, Asked)]), World(t, map[0 := Send(a, Current)]),
           World(t, map[0 := Send(a, Verified)])];
  }

  lemma RunStep(ws: seq<World>, steps: seq<Step>, matches: Matcher, s: Step)
    requires Run(ws, steps, matches) && Enabled(ws[|steps|], s)
    ensures Run(ws + [Do(ws[|steps|], s, matches)], steps + [s], matches)
  {
    hide Do, Enabled;
  }

  /**
   Such a run from the start: version 1 is written, read and verified for a send, version 2 is committed, and then version 1
   is materialised.
   */
  lemma SupersededVersionMaterialises(first: VersionRow, second: VersionRow, a: Approval, matches: Matcher)
    returns (ws: seq<World>, steps: seq<Step>)
    requires first.draft == second.draft == a.draft && first.account == second.account && first.request != second.request
    requires a.version == 1 && Verifies(a, first, matches)
    ensures Run(ws, steps, matches) && |steps| == 7 && steps[4] == Edit(second, 1)
    ensures 0 in ws[7].sends && ws[7].sends[0] == Send(a, Materialized)
    ensures a.draft in ws[7].t.drafts && ws[7].t.drafts[a.draft].current > a.version
  {
    ws, steps := VerifiedRun(first, a, matches);
    hide Run, InsertVersion, Verifies, Inv;
    RunKeeps(ws, steps, matches, 4);
    SecondVersion(ws[4].t, first.(version := 1), second);
    EditBetweenReadAndClaim(ws[4], 0, second, 1, matches);
    KeepsApproval(ws[4], Edit(second, 1), matches, 0);
    var w5 := Do(ws[4], Edit(second, 1), matches);
    RunStep(ws, steps, matches, Edit(second, 1));
    ws, steps := ws + [w5], steps + [Edit(second, 1)];
    var w6 := Do(w5, Claim(0), matches);
    RunStep(ws, steps, matches, Claim(0));
    ws, steps := ws + [w6], steps + [Claim(0)];
    RunStep(ws, steps, matches, ReadBack(0));
    ws, steps := ws + [Do(w6, ReadBack(0), matches)], steps + [ReadBack(0)];
  }

  lemma CurrentMoved(t: Tables, row: VersionRow, expected: nat)
    requires DraftsOk(t) && row.draft in t.drafts && InsertVersion(t, row, expected).1.Some?
    ensures InsertVersion(t, row, expected).0.drafts[row.draft].current == t.drafts[row.draft].current + 1
  {
    MaxIsCurrent(t, row.draft);
  }
}
