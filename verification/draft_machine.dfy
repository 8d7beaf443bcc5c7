/**
 Concurrent attempts to prepare a draft version, each of which may lose the answer to its put or its insert, be cancelled or
 killed anywhere, or find that another attempt of the same request got there first. The artifact an attempt stores carries
 the attempt's number; deleted means that its deletion has been requested.
 */
module DraftMachine {
  import opened Wrappers
  import opened OutboxTables

  datatype Args = Args(draft: string, account: string, digest: Digest, request: string, given: bool, details: string)

  datatype Phase =
    | Fresh
    | Known(expected: nat)
    | Ready(expected: nat)
    | Stored
    | Recovering
    | Cleaning(committed: Option<VersionRow>)
    | Done(output: Option<VersionRow>)

  datatype Attempt = Attempt(args: Args, phase: Phase)

  /**
   `flying` are inserts that have been sent and not executed, with the pointer they expect; `landed` the results of those
   that were; `late` and `blind` remember inserts that landed only after the recovery lookup, and recoveries that had none;
   `stray` the artifacts of attempts that were interrupted before they could request the deletion.
   */
  datatype World = World(t: Tables, attempts: map<nat, Attempt>, flying: map<nat, nat>, landed: map<nat, Option<nat>>,
                         put: set<nat>, deleted: set<nat>, late: set<nat>, blind: set<nat>, stray: set<nat>)

  /**
   `LosePut`: the bytes are stored but the answer does not arrive. `Interrupt`: the process ends, or a cancellation hits
   outside the insert and the shielded deletion.
   */
  datatype Step =
    | Begin(id: nat, args: Args)
    | ReadDraft(id: nat)
    | CheckRequest(id: nat)
    | Store(id: nat)
    | LosePut(id: nat)
    | Interrupt(id: nat)
    | Land(id: nat)
    | Drop(id: nat)
    | Reply(id: nat)
    | Lose(id: nat)
    | Recover(id: nat)
    | RecoverBlind(id: nat)
    | Delete(id: nat)

  function RowFor(id: nat, a: Args): VersionRow {
    VersionRow(a.draft, 0, a.account, a.digest, a.request, id, a.details)
  }

  ghost predicate Enabled(w: World, s: Step) {
    match s
    case Begin(id, _) => id !in w.attempts
    case ReadDraft(id) => id in w.attempts && w.attempts[id].phase.Fresh?
    case CheckRequest(id) => id in w.attempts && w.attempts[id].phase.Known?
    case Store(id) => id in w.attempts && w.attempts[id].phase.Ready?
    case LosePut(id) => id in w.attempts && w.attempts[id].phase.Ready?
    case Interrupt(id) => id in w.attempts && !w.attempts[id].phase.Done?
    case Land(id) => id in w.flying && id in w.attempts
    case Drop(id) => id in w.flying
    case Reply(id) => id in w.attempts && w.attempts[id].phase.Stored? && id in w.landed
    case Lose(id) => id in w.attempts && w.attempts[id].phase.Stored?
    case Recover(id) => id in w.attempts && w.attempts[id].phase.Recovering? && w.attempts[id].args.given
    case RecoverBlind(id) => id in w.attempts && w.attempts[id].phase.Recovering?
    case Delete(id) => id in w.attempts && w.attempts[id].phase.Cleaning?
  }

  function Moved(w: World, id: nat, phase: Phase): World
    requires id in w.attempts
  {
    w.(attempts := w.attempts[id := w.attempts[id].(phase := phase)])
  }

  /** A row found under the attempt's own request: its answer if the content is the same, an error otherwise. */
  function Replayed(a: Args, row: VersionRow): Phase {
    if row.digest == a.digest then Done(Some(row)) else Done(None)
  }

  ghost function Do(w: World, s: Step): World
    requires Enabled(w, s)
  {
    match s
    case Begin(id, args) => w.(attempts := w.attempts[id := Attempt(args, Fresh)])
    case ReadDraft(id) =>
      var a := w.attempts[id].args;
      if a.draft !in w.t.drafts then Moved(w, id, Known(0))
      else if w.t.drafts[a.draft].account != a.account then Moved(w, id, Done(None))
      else Moved(w, id, Known(w.t.drafts[a.draft].current))
    case CheckRequest(id) =>
      var a, e := w.attempts[id].args, w.attempts[id].phase.expected;
      var previous := ByRequest(w.t.versions, a.draft, a.request);
      if a.given && previous.Some? then Moved(w, id, Replayed(a, previous.value)) else Moved(w, id, Ready(e))
    case Store(id) =>
      Moved(w, id, Stored).(put := w.put + {id}, flying := w.flying[id := w.attempts[id].phase.expected])
    case LosePut(id) => Moved(w, id, Done(None)).(put := w.put + {id}, stray := w.stray + {id})
    case Interrupt(id) => Moved(w, id, Done(None)).(stray := if id in w.put then w.stray + {id} else w.stray)
    case Land(id) =>
      var (t, v) := InsertVersion(w.t, RowFor(id, w.attempts[id].args), w.flying[id]);
      var after := w.attempts[id].phase.Cleaning? || (w.attempts[id].phase.Done? && id !in w.stray);
      w.(t := t, flying := w.flying - {id}, landed := w.landed[id := v],
         late := if v.Some? && after then w.late + {id} else w.late)
    case Drop(id) => w.(flying := w.flying - {id})
    case Reply(id) =>
      var v := w.landed[id];
      if v.Some? then Moved(w, id, Done(Some(RowFor(id, w.attempts[id].args).(version := v.value))))
      else Moved(w, id, Recovering)
    case Lose(id) => Moved(w, id, Recovering)
    case Recover(id) =>
      var a := w.attempts[id].args;
      var committed := ByRequest(w.t.versions, a.draft, a.request);
      if committed.Some? && committed.value.artifact == id then Moved(w, id, Done(committed))
      else Moved(w, id, Cleaning(committed))
    case RecoverBlind(id) => Moved(w, id, Cleaning(None)).(blind := w.blind + {id})
    case Delete(id) =>
      var c := w.attempts[id].phase.committed;
      var phase := if c.Some? then Replayed(w.attempts[id].args, c.value) else Done(None);
      Moved(w, id, phase).(deleted := w.deleted + {id})
  }

  // ---- the invariant ----

  ghost predicate Referenced(rows: seq<VersionRow>, id: nat) {
    exists i :: 0 <= i < |rows| && rows[i].artifact == id
  }

  /** A row written by an attempt carries what the attempt asked for. */
  predicate WrittenBy(row: VersionRow, a: Args) {
    row.draft == a.draft && row.account == a.account && row.digest == a.digest && row.request == a.request
    && row.details == a.details
  }

  predicate Answers(rows: seq<VersionRow>, a: Args, row: VersionRow) {
    row in rows && row.draft == a.draft && row.request == a.request
  }

  ghost predicate AttemptOk(w: World, id: nat)
    requires id in w.attempts
  {
    var a, rows := w.attempts[id].args, w.t.versions;
    var excused := id in w.late || id in w.blind;
    match w.attempts[id].phase
    case Fresh => id !in w.put
    case Known(e) => id !in w.put && Seen(w.t, a.draft, a.account, e)
    case Ready(e) => id !in w.put && Seen(w.t, a.draft, a.account, e)
    case Stored =>
      && id in w.put && id !in w.deleted && id !in w.late
      && (id in w.landed && w.landed[id].Some? ==> RowFor(id, a).(version := w.landed[id].value) in rows)
    case Recovering => id in w.put && id !in w.deleted && id !in w.late
    case Cleaning(c) =>
      && id in w.put && id !in w.deleted && (!excused ==> !Referenced(rows, id))
      && (c.Some? ==> Answers(rows, a, c.value))
    case Done(out) =>
      && (out.Some? ==> Answers(rows, a, out.value) && out.value.digest == a.digest)
      && (id in w.put ==> id in w.deleted || Referenced(rows, id) || id in w.stray)
      && (out.None? && id in w.put && id !in w.stray ==> id in w.deleted)
      && (id in w.stray ==> out.None? && id !in w.deleted)
      && (id in w.deleted && !excused ==> !Referenced(rows, id))
  }

  /** What the shared parts say about an attempt. */
  ghost predicate TracesOk(w: World) {
    && (forall id :: id in w.flying ==>
          && id in w.attempts && id in w.put && !Referenced(w.t.versions, id)
          && Seen(w.t, w.attempts[id].args.draft, w.attempts[id].args.account, w.flying[id]))
    && (forall id :: id in w.deleted || id in w.stray ==> id in w.attempts && w.attempts[id].phase.Done?)
    && (forall id :: id in w.landed && w.landed[id].Some? ==> Referenced(w.t.versions, id))
    && (forall id :: id in w.put || id in w.landed ==> id in w.attempts && id in w.put)
    && (forall id :: id in w.late ==> Referenced(w.t.versions, id))
    && (forall i :: 0 <= i < |w.t.versions| ==>
          && w.t.versions[i].artifact in w.put && w.t.versions[i].artifact in w.attempts
          && w.t.versions[i].artifact in w.landed && w.landed[w.t.versions[i].artifact].Some?
          && WrittenBy(w.t.versions[i], w.attempts[w.t.versions[i].artifact].args))
  }

  ghost predicate Inv(w: World) {
    DraftsOk(w.t) && TracesOk(w) && forall id :: id in w.attempts ==> AttemptOk(w, id)
  }

  // ---- steps that only move one attempt ----

  /** The shared parts are as before, apart from what was put and deleted for this attempt. */
  lemma MoveKeeps(w: World, w': World, id: nat)
    requires Inv(w) && w'.t == w.t && w'.landed == w.landed && w'.late == w.late
    requires id in w'.attempts && w'.attempts == w.attempts[id := w'.attempts[id]]
    requires id in w.attempts ==> w'.attempts[id].args == w.attempts[id].args
    requires forall x :: x != id ==>
      (x in w'.put <==> x in w.put) && (x in w'.deleted <==> x in w.deleted) && (x in w'.blind <==> x in w.blind)
      && (x in w'.stray <==> x in w.stray)
    requires TracesOk(w') && AttemptOk(w', id)
    ensures Inv(w')
  {
    hide DraftsOk, TracesOk, Seen, Referenced, WrittenBy, Answers;
    forall x | x in w'.attempts && x != id
      ensures AttemptOk(w', x)
    {
      assert AttemptOk(w, x);
    }
  }

  lemma TracesMove(w: World, w': World, id: nat)
    requires TracesOk(w) && w'.t == w.t && w'.flying == w.flying && w'.landed == w.landed && w'.late == w.late && w'.put == w.put
    requires id in w'.attempts && w'.attempts == w.attempts[id := w'.attempts[id]]
    requires id in w.attempts ==> w'.attempts[id].args == w.attempts[id].args
    requires w'.deleted <= w.deleted + {id} && w'.stray <= w.stray + {id}
    requires id in w'.deleted || id in w'.stray ==> w'.attempts[id].phase.Done?
    ensures TracesOk(w')
  {
    hide Referenced, Seen, WrittenBy;
  }

  lemma BeginKeeps(w: World, s: Step)
    requires Inv(w) && Enabled(w, s) && (s.Begin? || s.ReadDraft? || s.CheckRequest?)
    ensures Inv(Do(w, s))
  {
    hide DraftsOk, Referenced, TracesOk;
    var w', id := Do(w, s), s.id;
    if id in w.attempts { assert AttemptOk(w, id); }
    NotPut(w, id);
    if s.CheckRequest? { ByRequestFinds(w.t.versions, w.attempts[id].args.draft, w.attempts[id].args.request); }
    TracesMove(w, w', id);
    MoveKeeps(w, w', id);
  }

  lemma NotPut(w: World, id: nat)
    requires TracesOk(w)
    ensures (id in w.deleted || id in w.stray ==> id in w.attempts && w.attempts[id].phase.Done?)
    ensures id !in w.attempts ==> id !in w.put
  {
  }

  lemma StoreKeeps(w: World, id: nat)
    requires Inv(w) && Enabled(w, Store(id))
    ensures Inv(Do(w, Store(id)))
  {
    hide DraftsOk, Referenced, WrittenBy, Seen;
    var w' := Do(w, Store(id));
    assert AttemptOk(w, id);
    NotReferenced(w, id);
    MoveKeeps(w, w', id);
  }

  lemma LosePutKeeps(w: World, id: nat)
    requires Inv(w) && Enabled(w, LosePut(id))
    ensures Inv(Do(w, LosePut(id)))
  {
    hide DraftsOk, Referenced, WrittenBy, Seen;
    var w' := Do(w, LosePut(id));
    assert AttemptOk(w, id);
    NotReferenced(w, id);
    MoveKeeps(w, w', id);
  }

  lemma InterruptKeeps(w: World, id: nat)
    requires Inv(w) && Enabled(w, Interrupt(id))
    ensures Inv(Do(w, Interrupt(id)))
  {
    hide DraftsOk, Referenced, TracesOk, Seen;
    var w' := Do(w, Interrupt(id));
    assert AttemptOk(w, id);
    NotPut(w, id);
    TracesMove(w, w', id);
    MoveKeeps(w, w', id);
  }

  lemma NotReferenced(w: World, id: nat)
    requires TracesOk(w) && id !in w.put
    ensures !Referenced(w.t.versions, id)
  {
  }

  lemma RecoverKeeps(w: World, s: Step)
    requires Inv(w) && Enabled(w, s) && (s.Reply? || s.Lose? || s.Recover?)
    ensures Inv(Do(w, s))
  {
    hide DraftsOk, Referenced, TracesOk, Seen;
    var w', id := Do(w, s), s.id;
    assert AttemptOk(w, id);
    NotPut(w, id);
    if s.Reply? && w.landed[id].Some? { OwnRow(w, id); }
    if s.Recover? { RecoverLookup(w, id); }
    TracesMove(w, w', id);
    MoveKeeps(w, w', id);
  }

  lemma CleanKeeps(w: World, s: Step)
    requires Inv(w) && Enabled(w, s) && (s.RecoverBlind? || s.Delete?)
    ensures Inv(Do(w, s))
  {
    hide DraftsOk, Referenced, TracesOk, Seen;
    var w', id := Do(w, s), s.id;
    assert AttemptOk(w, id);
    NotPut(w, id);
    TracesMove(w, w', id);
    MoveKeeps(w, w', id);
  }

  lemma OwnRow(w: World, id: nat)
    requires id in w.attempts && id in w.landed && w.landed[id].Some?
    requires RowFor(id, w.attempts[id].args).(version := w.landed[id].value) in w.t.versions
    ensures Referenced(w.t.versions, id)
  {
    var i :| 0 <= i < |w.t.versions| && w.t.versions[i] == RowFor(id, w.attempts[id].args).(version := w.landed[id].value);
  }

  /** The lookup by request finds the attempt's own row if there is one: a row with its artifact has its request. */
  lemma RecoverLookup(w: World, id: nat)
    requires DraftsOk(w.t) && TracesOk(w) && id in w.attempts
    ensures var a := w.attempts[id].args;
            var committed := ByRequest(w.t.versions, a.draft, a.request);
            && (committed.Some? ==> Answers(w.t.versions, a, committed.value))
            && (committed.Some? && committed.value.artifact == id ==> Referenced(w.t.versions, id) && committed.value.digest == a.digest)
            && (!(committed.Some? && committed.value.artifact == id) ==> !Referenced(w.t.versions, id))
  {
    hide DraftsOk;
    var a := w.attempts[id].args;
    ByRequestFinds(w.t.versions, a.draft, a.request);
    if Referenced(w.t.versions, id) {
      var i :| 0 <= i < |w.t.versions| && w.t.versions[i].artifact == id;
      RowUnique(w.t, i);
    }
  }

  // ---- executing an insert ----

  lemma LandKeeps(w: World, id: nat)
    requires Inv(w) && Enabled(w, Land(id))
    ensures Inv(Do(w, Land(id)))
  {
    hide DraftsOk, WrittenBy, InsertVersion;
    var w' := Do(w, Land(id));
    var a := w.attempts[id].args;
    var row := RowFor(id, a);
    var v := InsertVersion(w.t, row, w.flying[id]).1;
    InsertKeeps(w.t, row, w.flying[id]);
    LandTraces(w, w', id, v);
    forall x | x in w'.attempts
      ensures AttemptOk(w', x)
    {
      assert AttemptOk(w, x);
      LandAttempt(w, w', id, v, x);
    }
  }

  /** The tables after an insert: the same, or one more row. */
  ghost predicate Grown(t: Tables, t': Tables, row: VersionRow, v: Option<nat>) {
    && t.versions <= t'.versions
    && (forall d :: d in t.drafts ==> d in t'.drafts && t'.drafts[d].account == t.drafts[d].account)
    && (v.None? ==> t' == t) && (v.Some? ==> t'.versions == t.versions + [row.(version := v.value)])
  }

  lemma LandTraces(w: World, w': World, id: nat, v: Option<nat>)
    requires TracesOk(w) && id in w.flying && id in w.attempts && Grown(w.t, w'.t, RowFor(id, w.attempts[id].args), v)
    requires w' == w.(t := w'.t, flying := w.flying - {id}, landed := w.landed[id := v], late := w'.late)
    requires w.late <= w'.late <= w.late + if v.Some? then {id} else {}
    ensures TracesOk(w')
  {
    hide Referenced, WrittenBy;
    forall x | x in w'.flying
      ensures x in w'.put && !Referenced(w'.t.versions, x)
      ensures Seen(w'.t, w.attempts[x].args.draft, w.attempts[x].args.account, w'.flying[x])
    {
      assert Seen(w.t, w.attempts[x].args.draft, w.attempts[x].args.account, w.flying[x]);
      GrownReferences(w.t, w'.t, RowFor(id, w.attempts[id].args), v, x);
    }
    forall x | x in w'.late || (x in w'.landed && w'.landed[x].Some?)
      ensures Referenced(w'.t.versions, x)
    {
      GrownReferences(w.t, w'.t, RowFor(id, w.attempts[id].args), v, x);
    }
    LandRows(w, w', id, v);
  }

  lemma LandRows(w: World, w': World, id: nat, v: Option<nat>)
    requires TracesOk(w) && id in w.flying && id in w.attempts && Grown(w.t, w'.t, RowFor(id, w.attempts[id].args), v)
    requires w' == w.(t := w'.t, flying := w.flying - {id}, landed := w.landed[id := v], late := w'.late)
    ensures forall i :: 0 <= i < |w'.t.versions| ==>
              && w'.t.versions[i].artifact in w'.put && w'.t.versions[i].artifact in w'.attempts
              && w'.t.versions[i].artifact in w'.landed && w'.landed[w'.t.versions[i].artifact].Some?
              && WrittenBy(w'.t.versions[i], w'.attempts[w'.t.versions[i].artifact].args)
  {
    forall i | 0 <= i < |w.t.versions|
      ensures w.t.versions[i].artifact != id
    {
      assert !Referenced(w.t.versions, id);
    }
  }

  lemma GrownReferences(t: Tables, t': Tables, row: VersionRow, v: Option<nat>, x: nat)
    requires Grown(t, t', row, v)
    ensures Referenced(t'.versions, x) <==> Referenced(t.versions, x) || (v.Some? && x == row.artifact)
  {
    if Referenced(t.versions, x) {
      var i :| 0 <= i < |t.versions| && t.versions[i].artifact == x;
      assert t'.versions[i] == t.versions[i];
    }
    if v.Some? { assert t'.versions[|t.versions|].artifact == row.artifact; }
  }

  lemma LandAttempt(w: World, w': World, id: nat, v: Option<nat>, x: nat)
    requires id in w.flying && id in w.attempts && x in w.attempts && AttemptOk(w, x)
    requires Grown(w.t, w'.t, RowFor(id, w.attempts[id].args), v)
    requires w' == w.(t := w'.t, flying := w.flying - {id}, landed := w.landed[id := v], late := w'.late)
    requires var after := w.attempts[id].phase.Cleaning? || (w.attempts[id].phase.Done? && id !in w.stray);
             w'.late == if v.Some? && after then w.late + {id} else w.late
    ensures AttemptOk(w', x)
  {
    hide Referenced;
    GrownReferences(w.t, w'.t, RowFor(id, w.attempts[id].args), v, x);
    assert v.Some? ==> w'.t.versions[|w.t.versions|] == RowFor(id, w.attempts[id].args).(version := v.value);
  }

  lemma StepKeeps(w: World, s: Step)
    requires Inv(w) && Enabled(w, s)
    ensures Inv(Do(w, s))
  {
    hide Inv, Do;
    match s
    case Land(id) => LandKeeps(w, id);
    case Drop(id) => DropKeeps(w, id);
    case Store(id) => StoreKeeps(w, id);
    case LosePut(id) => LosePutKeeps(w, id);
    case Interrupt(id) => InterruptKeeps(w, id);
    case Reply(_) => RecoverKeeps(w, s);
    case Lose(_) => RecoverKeeps(w, s);
    case Recover(_) => RecoverKeeps(w, s);
    case RecoverBlind(_) => CleanKeeps(w, s);
    case Delete(_) => CleanKeeps(w, s);
    case _ => BeginKeeps(w, s);
  }

  lemma DropKeeps(w: World, id: nat)
    requires Inv(w) && Enabled(w, Drop(id))
    ensures Inv(Do(w, Drop(id)))
  {
    hide DraftsOk, Referenced, WrittenBy, Seen, Answers;
    var w' := Do(w, Drop(id));
    forall x | x in w'.attempts
      ensures AttemptOk(w', x)
    {
      assert AttemptOk(w, x);
    }
  }

  // ---- whole runs ----

  ghost predicate Init(w: World) {
    w == World(NO_DRAFTS, map[], map[], map[], {}, {}, {}, {}, {})
  }

  ghost predicate Run(ws: seq<World>, steps: seq<Step>) {
    && |ws| == |steps| + 1 && Init(ws[0])
    && forall i :: 0 <= i < |steps| ==> Enabled(ws[i], steps[i]) && ws[i + 1] == Do(ws[i], steps[i])
  }

  lemma {:induction false} RunKeeps(ws: seq<World>, steps: seq<Step>, i: nat)
    requires Run(ws, steps) && i < |ws|
    ensures Inv(ws[i])
  {
    hide Inv, Do, Enabled;
    if i == 0 {
      InitInv(ws[0]);
    } else {
      RunKeeps(ws, steps, i - 1);
      StepKeeps(ws[i - 1], steps[i - 1]);
    }
  }

  lemma InitInv(w: World)
    requires Init(w)
    ensures Inv(w)
  {
  }

  /**
   How a replayed request ends: when a row of its draft and request is there, it is the answer if the content is the same and
   an error otherwise, whether it is found before storing anything or in the recovery.
   */
  lemma ReplayAnswers(w: World, id: nat, i: nat)
    requires Inv(w) && id in w.attempts && i < |w.t.versions|
    requires var a := w.attempts[id].args; a.given && w.t.versions[i].draft == a.draft && w.t.versions[i].request == a.request
    ensures var answer := if w.t.versions[i].digest == w.attempts[id].args.digest then Some(w.t.versions[i]) else None;
            && (w.attempts[id].phase.Known? ==> Do(w, CheckRequest(id)).attempts[id].phase == Done(answer))
            && (w.attempts[id].phase.Recovering? && w.t.versions[i].artifact == id ==>
                  Do(w, Recover(id)).attempts[id].phase == Done(Some(w.t.versions[i])))
            && (w.attempts[id].phase.Recovering? && w.t.versions[i].artifact != id ==>
                  && Do(w, Recover(id)).attempts[id].phase.Cleaning?
                  && Do(Do(w, Recover(id)), Delete(id)).attempts[id].phase == Done(answer))
  {
    hide ByRequest, DraftsOk, TracesOk, AttemptOk;
    RowUnique(w.t, i);
  }

  /**
   Request idempotency: at every moment of every run, all attempts of one draft and request that have succeeded returned
   the same row, which is the only one of that draft and request.
   */
  lemma SameRequestSameOutput(ws: seq<World>, steps: seq<Step>, i: nat, x: nat, y: nat)
    requires Run(ws, steps) && i < |ws| && x in ws[i].attempts && y in ws[i].attempts
    requires ws[i].attempts[x].args.draft == ws[i].attempts[y].args.draft
    requires ws[i].attempts[x].args.request == ws[i].attempts[y].args.request
    requires ws[i].attempts[x].phase.Done? && ws[i].attempts[x].phase.output.Some?
    requires ws[i].attempts[y].phase.Done? && ws[i].attempts[y].phase.output.Some?
    ensures ws[i].attempts[x].phase.output == ws[i].attempts[y].phase.output
    ensures ws[i].attempts[x].args.digest == ws[i].attempts[y].args.digest
    ensures forall j, k :: 0 <= j < k < |ws[i].t.versions| && ws[i].t.versions[j].draft == ws[i].t.versions[k].draft ==>
              ws[i].t.versions[j].request != ws[i].t.versions[k].request
  {
    hide Do, Enabled, Run, Referenced, WrittenBy, Seen;
    RunKeeps(ws, steps, i);
    assert AttemptOk(ws[i], x) && AttemptOk(ws[i], y);
    var rows := ws[i].t.versions;
    var j :| 0 <= j < |rows| && rows[j] == ws[i].attempts[x].phase.output.value;
    var k :| 0 <= k < |rows| && rows[k] == ws[i].attempts[y].phase.output.value;
    RowUnique(ws[i].t, j);
    RowUnique(ws[i].t, k);
  }

  /** The versions of a draft are exactly 1 to its current one, and all belong to the draft's account. */
  lemma VersionsComplete(ws: seq<World>, steps: seq<Step>, i: nat, d: string, n: nat)
    requires Run(ws, steps) && i < |ws| && d in ws[i].t.drafts
    ensures HasVersion(ws[i].t.versions, d, n) <==> 1 <= n <= ws[i].t.drafts[d].current
    ensures forall j :: 0 <= j < |ws[i].t.versions| && ws[i].t.versions[j].draft == d ==>
              ws[i].t.versions[j].account == ws[i].t.drafts[d].account
  {
    hide Do, Enabled, Run, TracesOk, AttemptOk;
    RunKeeps(ws, steps, i);
    assert forall j :: 0 <= j < |ws[i].t.versions| ==> RowOk(ws[i].t.drafts, ws[i].t.versions[j]);
  }

  /**
   An artifact deleted after a recovery lookup is referenced by a version if and only if the insert landed only after
   that lookup.
   */
  lemma ArtifactLostIff(ws: seq<World>, steps: seq<Step>, i: nat, id: nat)
    requires Run(ws, steps) && i < |ws| && id in ws[i].deleted && id !in ws[i].blind
    ensures Referenced(ws[i].t.versions, id) <==> id in ws[i].late
  {
    hide Do, Enabled, Run, Referenced, WrittenBy, Seen, DraftsOk;
    RunKeeps(ws, steps, i);
    assert AttemptOk(ws[i], id);
  }

  function Alone(a: Args, phase: Phase, flying: map<nat, nat>, put: set<nat>, deleted: set<nat>): World {
    World(NO_DRAFTS, map[0 := Attempt(a, phase)], flying, map[], put, deleted, {}, {}, {})
  }

  lemma AttemptStores(a: Args)
    ensures Enabled(Alone(a, Fresh, map[], {}, {}), ReadDraft(0)) && Enabled(Alone(a, Known(0), map[], {}, {}), CheckRequest(0))
    ensures Enabled(Alone(a, Ready(0), map[], {}, {}), Store(0))
    ensures Do(Alone(a, Fresh, map[], {}, {}), ReadDraft(0)) == Alone(a, Known(0), map[], {}, {})
    ensures Do(Alone(a, Known(0), map[], {}, {}), CheckRequest(0)) == Alone(a, Ready(0), map[], {}, {})
    ensures Do(Alone(a, Ready(0), map[], {}, {}), Store(0)) == Alone(a, Stored, map[0 := 0], {0}, {})
  {
    assert ByRequest([], a.draft, a.request) == None;
  }

  lemma AttemptGivesUp(a: Args)
    requires a.given
    ensures Enabled(Alone(a, Stored, map[0 := 0], {0}, {}), Lose(0))
    ensures Enabled(Alone(a, Recovering, map[0 := 0], {0}, {}), Recover(0))
    ensures Enabled(Alone(a, Cleaning(None), map[0 := 0], {0}, {}), Delete(0))
    ensures Do(Alone(a, Stored, map[0 := 0], {0}, {}), Lose(0)) == Alone(a, Recovering, map[0 := 0], {0}, {})
    ensures Do(Alone(a, Recovering, map[0 := 0], {0}, {}), Recover(0)) == Alone(a, Cleaning(None), map[0 := 0], {0}, {})
    ensures Do(Alone(a, Cleaning(None), map[0 := 0], {0}, {}), Delete(0)) == Alone(a, Done(None), map[0 := 0], {0}, {0})
  {
    assert ByRequest([], a.draft, a.request) == None;
  }

  lemma InsertLands(a: Args)
    ensures Enabled(Alone(a, Done(None), map[0 := 0], {0}, {0}), Land(0))
    ensures var w := Do(Alone(a, Done(None), map[0 := 0], {0}, {0}), Land(0));
            0 in w.deleted && Referenced(w.t.versions, 0)
  {
    var w := Do(Alone(a, Done(None), map[0 := 0], {0}, {0}), Land(0));
    assert w.t.versions[0].artifact == 0;
  }

  /** Such a run: the caller gives up, looks, deletes its artifact, and then the insert is executed after all. */
  lemma LateInsertLosesArtifact(a: Args) returns (ws: seq<World>, steps: seq<Step>)
    requires a.given
    ensures Run(ws, steps) && |ws| == 9 && 0 in ws[8].deleted && Referenced(ws[8].t.versions, 0)
  {
    hide Do, Enabled, Referenced, Alone;
    steps := [Begin(0, a), ReadDraft(0), CheckRequest(0), Store(0), Lose(0), Recover(0), Delete(0), Land(0)];
    var start := World(NO_DRAFTS, map[], map[], map[], {}, {}, {}, {}, {});
    var last := Alone(a, Done(None), map[0 := 0], {0}, {0});
    Started(a);
    AttemptStores(a);
    AttemptGivesUp(a);
    InsertLands(a);
    ws := [start, Alone(a, Fresh, map[], {}, {}), Alone(a, Known(0), map[], {}, {}), Alone(a, Ready(0), map[], {}, {}),
           Alone(a, Stored, map[0 := 0], {0}, {}), Alone(a, Recovering, map[0 := 0], {0}, {}),
           Alone(a, Cleaning(None), map[0 := 0], {0}, {}), last, Do(last, Land(0))];
  }

  lemma Started(a: Args)
    ensures Enabled(World(NO_DRAFTS, map[], map[], map[], {}, {}, {}, {}, {}), Begin(0, a))
    ensures Do(World(NO_DRAFTS, map[], map[], map[], {}, {}, {}, {}, {}), Begin(0, a)) == Alone(a, Fresh, map[], {}, {})
  {
  }

  /** A referenced artifact whose attempt had an answering lookup, and whose insert did not land after it, is not deleted. */
  lemma ReferencedArtifactsSurvive(ws: seq<World>, steps: seq<Step>, i: nat, id: nat)
    requires Run(ws, steps) && i < |ws| && id !in ws[i].late && id !in ws[i].blind
    requires Referenced(ws[i].t.versions, id)
    ensures id !in ws[i].deleted
  {
    hide Run, Referenced;
    if id in ws[i].deleted { ArtifactLostIff(ws, steps, i, id); }
  }

  /**
   Exactly which finished attempts leave an orphan, an artifact that no row references and whose deletion nobody requests:
   those that were interrupted while storing it or before cleaning up, and whose insert was not executed with success.
   */
  lemma NoOrphans(ws: seq<World>, steps: seq<Step>, i: nat, id: nat)
    requires Run(ws, steps) && i < |ws| && id in ws[i].attempts && ws[i].attempts[id].phase.Done? && id in ws[i].put
    ensures id !in ws[i].deleted && !Referenced(ws[i].t.versions, id) <==>
              id in ws[i].stray && !(id in ws[i].landed && ws[i].landed[id].Some?)
    ensures ws[i].attempts[id].phase.output.None? && id !in ws[i].stray ==> id in ws[i].deleted
    ensures id in ws[i].stray ==> ws[i].attempts[id].phase.output.None? && id !in ws[i].deleted
  {
    hide Do, Enabled, Run, WrittenBy, Seen, DraftsOk, Answers;
    RunKeeps(ws, steps, i);
    assert AttemptOk(ws[i], id);
  }

  /** An attempt is interrupted exactly by one of these steps. */
  predicate Interrupts(w: World, s: Step, id: nat) {
    s == LosePut(id) || (s == Interrupt(id) && id in w.put)
  }

  /** An attempt's artifact is stray exactly if a step of the run has interrupted it. */
  lemma {:induction false} StrayIff(ws: seq<World>, steps: seq<Step>, i: nat, id: nat)
    requires Run(ws, steps) && i < |ws|
    ensures id in ws[i].stray <==> exists k :: 0 <= k < i && Interrupts(ws[k], steps[k], id)
  {
    if i > 0 {
      hide Do, Enabled, Interrupts;
      StrayIff(ws, steps, i - 1, id);
      StrayStep(ws[i - 1], steps[i - 1], id);
    }
  }

  lemma StrayStep(w: World, s: Step, id: nat)
    requires Enabled(w, s)
    ensures id in Do(w, s).stray <==> id in w.stray || Interrupts(w, s, id)
  {
    hide InsertVersion, ByRequest;
  }

  /** Such a run: the bytes are stored, the answer does not arrive, and nobody knows the artifact. */
  lemma LostPutLeavesOrphan(a: Args) returns (ws: seq<World>, steps: seq<Step>)
    ensures Run(ws, steps) && |ws| == 5 && 0 in ws[4].attempts && ws[4].attempts[0] == Attempt(a, Done(None))
    ensures 0 in ws[4].put && 0 !in ws[4].deleted && !Referenced(ws[4].t.versions, 0)
  {
    hide Do, Enabled;
    steps := [Begin(0, a), ReadDraft(0), CheckRequest(0), LosePut(0)];
    var start := World(NO_DRAFTS, map[], map[], map[], {}, {}, {}, {}, {});
    Started(a);
    AttemptStores(a);
    PutLost(a);
    ws := [start, Alone(a, Fresh, map[], {}, {}), Alone(a, Known(0), map[], {}, {}), Alone(a, Ready(0), map[], {}, {}),
           Alone(a, Done(None), map[], {0}, {}).(stray := {0})];
  }

  lemma PutLost(a: Args)
    ensures Enabled(Alone(a, Ready(0), map[], {}, {}), LosePut(0))
    ensures Do(Alone(a, Ready(0), map[], {}, {}), LosePut(0)) == Alone(a, Done(None), map[], {0}, {}).(stray := {0})
  {
  }

  // ---- what an undisturbed attempt achieves ----

  /** From any reachable state, an attempt with a new request that nothing disturbs stores the next version and returns it. */
  lemma UndisturbedAttempt(w: World, id: nat, a: Args) returns (ws: seq<World>)
    requires Inv(w) && id !in w.attempts && (a.draft in w.t.drafts ==> w.t.drafts[a.draft].account == a.account)
    requires forall i :: 0 <= i < |w.t.versions| ==> w.t.versions[i].draft != a.draft || w.t.versions[i].request != a.request
    ensures var current := if a.draft in w.t.drafts then w.t.drafts[a.draft].current else 0;
            var row := VersionRow(a.draft, current + 1, a.account, a.digest, a.request, id, a.details);
            && |ws| == 7 && ws[0] == w && Follows(ws, [Begin(id, a), ReadDraft(id), CheckRequest(id), Store(id), Land(id), Reply(id)])
            && id in ws[6].attempts && ws[6].attempts[id].phase == Done(Some(row)) && ws[6].t.versions == w.t.versions + [row]
            && id in ws[6].put && id !in ws[6].deleted
  {
    hide Inv, Do, Enabled, Follows, ByRequest;
    var current := if a.draft in w.t.drafts then w.t.drafts[a.draft].current else 0;
    var w1, w2, w3 := InPhase(w, id, a, Fresh), InPhase(w, id, a, Known(current)), InPhase(w, id, a, Ready(current));
    var w4 := InPhase(w, id, a, Stored).(put := w.put + {id}, flying := w.flying[id := current]);
    ByRequestFinds(w.t.versions, a.draft, a.request);
    FirstSteps(w, id, a, current);
    LastSteps(w, w4, id, a, current);
    ws := [w, w1, w2, w3, w4, Do(w4, Land(id)), Do(Do(w4, Land(id)), Reply(id))];
    SixSteps(ws, id, a);
  }

  function InPhase(w: World, id: nat, a: Args, phase: Phase): World {
    w.(attempts := w.attempts[id := Attempt(a, phase)])
  }

  lemma FirstSteps(w: World, id: nat, a: Args, current: nat)
    requires id !in w.attempts && current == if a.draft in w.t.drafts then w.t.drafts[a.draft].current else 0
    requires a.draft in w.t.drafts ==> w.t.drafts[a.draft].account == a.account
    requires ByRequest(w.t.versions, a.draft, a.request).None?
    ensures var w1, w2, w3 := InPhase(w, id, a, Fresh), InPhase(w, id, a, Known(current)), InPhase(w, id, a, Ready(current));
            && Enabled(w, Begin(id, a)) && Do(w, Begin(id, a)) == w1
            && Enabled(w1, ReadDraft(id)) && Do(w1, ReadDraft(id)) == w2
            && Enabled(w2, CheckRequest(id)) && Do(w2, CheckRequest(id)) == w3
            && Enabled(w3, Store(id))
            && Do(w3, Store(id)) == InPhase(w, id, a, Stored).(put := w.put + {id}, flying := w.flying[id := current])
  {
    hide ByRequest;
    Rephased(w, id, a, Fresh, Known(current));
    Rephased(w, id, a, Known(current), Ready(current));
    Rephased(w, id, a, Ready(current), Stored);
  }

  lemma Rephased(w: World, id: nat, a: Args, p: Phase, q: Phase)
    ensures Moved(InPhase(w, id, a, p), id, q) == InPhase(w, id, a, q)
  {
    assert w.attempts[id := Attempt(a, p)][id := Attempt(a, q)] == w.attempts[id := Attempt(a, q)];
  }

  lemma LastSteps(w: World, w4: World, id: nat, a: Args, current: nat)
    requires Inv(w) && id !in w.attempts && current == if a.draft in w.t.drafts then w.t.drafts[a.draft].current else 0
    requires ByRequest(w.t.versions, a.draft, a.request).None?
    requires w4 == InPhase(w, id, a, Stored).(put := w.put + {id}, flying := w.flying[id := current])
    ensures Enabled(w4, Land(id)) && Enabled(Do(w4, Land(id)), Reply(id))
    ensures var row, w6 := VersionRow(a.draft, current + 1, a.account, a.digest, a.request, id, a.details), Do(Do(w4, Land(id)), Reply(id));
            && id in w6.attempts && w6.attempts[id].phase == Done(Some(row)) && w6.t.versions == w.t.versions + [row]
            && id in w6.put && id !in w6.deleted
  {
    hide DraftsOk, AttemptOk, InsertVersion, ByRequest;
    NotPut(w, id);
    Accepted(w.t, RowFor(id, a), current);
  }

  ghost predicate Follows(ws: seq<World>, steps: seq<Step>) {
    |ws| == |steps| + 1 && forall i :: 0 <= i < |steps| ==> Enabled(ws[i], steps[i]) && ws[i + 1] == Do(ws[i], steps[i])
  }

  lemma SixSteps(ws: seq<World>, id: nat, a: Args)
    requires |ws| == 7 && Enabled(ws[0], Begin(id, a)) && ws[1] == Do(ws[0], Begin(id, a))
    requires Enabled(ws[1], ReadDraft(id)) && ws[2] == Do(ws[1], ReadDraft(id))
    requires Enabled(ws[2], CheckRequest(id)) && ws[3] == Do(ws[2], CheckRequest(id))
    requires Enabled(ws[3], Store(id)) && ws[4] == Do(ws[3], Store(id))
    requires Enabled(ws[4], Land(id)) && ws[5] == Do(ws[4], Land(id))
    requires Enabled(ws[5], Reply(id)) && ws[6] == Do(ws[5], Reply(id))
    ensures Follows(ws, [Begin(id, a), ReadDraft(id), CheckRequest(id), Store(id), Land(id), Reply(id)])
  {
    hide Do, Enabled;
  }

  lemma Accepted(t: Tables, row: VersionRow, expected: nat)
    requires DraftsOk(t) && expected == if row.draft in t.drafts then t.drafts[row.draft].current else 0
    requires ByRequest(t.versions, row.draft, row.request).None?
    ensures InsertVersion(t, row, expected).1 == Some(expected + 1)
    ensures InsertVersion(t, row, expected).0.versions == t.versions + [row.(version := expected + 1)]
  {
    hide DraftsOk, ByRequest, MaxVersion;
    MaxIsCurrent(t, row.draft);
  }
}
