/**
 The phases of a reconciliation run, in the order in which they are executed, and what a whole run achieves.
 */
module ReconcileRun {
  import opened Wrappers
  import opened KnowledgeTables
  import opened KnowledgeStore
  import opened ReconcileDiff
  import opened ReconcilePlan
  import opened Building

  datatype Report = Report(scanned: int, added: int, modified: int, moved: int, deleted: int, same: int,
                           built: int, events: int, errors: int)

  // ---- moves ----

  function MovedKey(m: Match): EventKey {
    EventKey(FileMoved, m.entry.path, m.source.row.generation + 1, m.source.id, Some(m.entry.hash), Some(m.entry.hash))
  }

  function MovedKeys(moves: seq<Match>): set<EventKey> {
    set i | 0 <= i < |moves| :: MovedKey(moves[i])
  }

  lemma MovedKeysStep(moves: seq<Match>, k: nat)
    requires k < |moves|
    ensures MovedKeys(moves[..k + 1]) == MovedKeys(moves[..k]) + {MovedKey(moves[k])}
  {
    assert moves[..k + 1] == moves[..k] + [moves[k]];
    forall key | key in MovedKeys(moves[..k])
      ensures key in MovedKeys(moves[..k + 1])
    {
      var i :| 0 <= i < k && MovedKey(moves[..k][i]) == key;
      assert moves[..k + 1][i] == moves[..k][i];
    }
    assert moves[..k + 1][k] == moves[k];
    forall key | key in MovedKeys(moves[..k + 1])
      ensures key in MovedKeys(moves[..k]) + {MovedKey(moves[k])}
    {
      var i :| 0 <= i < k + 1 && MovedKey(moves[..k + 1][i]) == key;
      assert i < k ==> moves[..k][i] == moves[..k + 1][i];
    }
  }

  /** One move and its event. */
  method MoveOne(db: Store, m: Match, ghost after: Sources, ghost build: Build) returns (r: MoveResult, events: nat)
    requires Consistent(db.View(), build)
    requires MoveSource(db.View(), m.source.id, m.entry.path, m.entry.media, m.entry.size, m.entry.mtime,
                        m.source.row.path, m.source.row.generation)
             == (db.View().(sources := after), MovedTo(m.source.row.generation + 1))
    modifies db
    ensures Consistent(db.View(), build) && r == MovedTo(m.source.row.generation + 1)
    ensures db.View() == old(db.View()).(sources := after, events := old(db.events) + {MovedKey(m)})
    ensures Count(db.events) == Count(old(db.events)) + events
  {
    hide Consistent, Count, KnowledgeTables.MoveSource;
    MoveKeeps(db.View(), build, m.source.id, m.entry.path, m.entry.media, m.entry.size, m.entry.mtime,
              m.source.row.path, m.source.row.generation);
    r := db.MoveSource(m.source.id, m.entry.path, m.entry.media, m.entry.size, m.entry.mtime,
                       m.source.row.path, m.source.row.generation);
    events := 0;
    if r.MovedTo? {
      EventKeeps(db.View(), build, MovedKey(m));
      var inserted := db.AppendEvent(EventKey(FileMoved, m.entry.path, r.generation, m.source.id,
                                              Some(m.entry.hash), Some(m.entry.hash)));
      events := if inserted then 1 else 0;
    }
  }

  method MovePhase(db: Store, scan: seq<Scanned>, moves: seq<Match>, ghost build: Build)
    returns (rows: map<SourceId, Source>, moved: int, events: nat)
    requires Consistent(db.View(), build) && GoodMoves(scan, db.sources, moves)
    modifies db
    ensures Consistent(db.View(), build)
    ensures db.View() == old(db.View()).(sources := AfterMoves(old(db.sources), moves), events := db.events)
    ensures db.events == old(db.events) + MovedKeys(moves) && Count(db.events) == Count(old(db.events)) + events
    ensures moved == |moves|
    ensures rows.Keys == Claimed(moves) && forall k :: 0 <= k < |moves| ==> rows[moves[k].source.id] == MovedRow(moves[k])
  {
    hide Consistent, Count, GoodMove, MovedKeys, AfterMoves, KnowledgeTables.MoveSource, Claimed;
    ghost var t0 := db.View();
    rows, moved, events := map[], |moves|, 0;
    MovesStart(t0, build, moves);
    ConsistentPaths(t0, build);
    for k := 0 to |moves|
      invariant Consistent(db.View(), build) && moved == |moves|
      invariant db.View() == t0.(sources := AfterMoves(t0.sources, moves[..k]), events := db.events)
      invariant db.events == t0.events + MovedKeys(moves[..k]) && Count(db.events) == Count(t0.events) + events
      invariant rows.Keys == Claimed(moves[..k])
      invariant forall j :: 0 <= j < k ==> moves[j].source.id in rows && rows[moves[j].source.id] == MovedRow(moves[j])
    {
      var m := moves[k];
      MoveInContext(t0, scan, moves, k, db.events);
      ClaimedNext(moves, k);
      MovedKeysStep(moves, k);
      var r, n := MoveOne(db, m, AfterMoves(t0.sources, moves[..k + 1]), build);
      if r.MovedTo? {
        rows := rows[m.source.id := MovedRow(m)];
      } else {
        moved := moved - 1;
      }
      events := events + n;
      assert forall j :: 0 <= j < k ==> moves[j].source.id != m.source.id;
    }
    assert moves[..|moves|] == moves;
  }

  lemma MovesStart(t: Tables, build: Build, moves: seq<Match>)
    ensures AfterMoves(t.sources, moves[..0]) == t.sources && MovedKeys(moves[..0]) == {} && Claimed(moves[..0]) == {}
  {
  }

  lemma ConsistentPaths(t: Tables, build: Build)
    requires Consistent(t, build)
    ensures StoredOk(t.sources) && PathsUnique(t)
  {
  }

  lemma MoveInContext(t: Tables, scan: seq<Scanned>, moves: seq<Match>, k: nat, events: set<EventKey>)
    requires GoodMoves(scan, t.sources, moves) && StoredOk(t.sources) && k < |moves|
    ensures var m := moves[k];
            MoveSource(t.(sources := AfterMoves(t.sources, moves[..k]), events := events), m.source.id, m.entry.path,
                       m.entry.media, m.entry.size, m.entry.mtime, m.source.row.path, m.source.row.generation)
            == (t.(sources := AfterMoves(t.sources, moves[..k + 1]), events := events), MovedTo(m.source.row.generation + 1))
  {
    hide AfterMoves, GoodMove;
    MovesAllSucceed(t.(events := events), scan, moves, k);
  }

  lemma ClaimedNext(moves: seq<Match>, k: nat)
    requires k < |moves|
    ensures Claimed(moves[..k + 1]) == Claimed(moves[..k]) + {moves[k].source.id}
    ensures Targets(moves[..k + 1]) == Targets(moves[..k]) + {moves[k].entry.path}
  {
    assert moves[..k + 1] == moves[..k] + [moves[k]];
    ClaimedStep(moves[..k], moves[k]);
  }

  // ---- progress over the scanned files ----

  /**
   The state between two builds: a processed file is served unless it failed or was blocked by a leftover
   candidate; the sources still to be deleted are as stored, all others are on scanned paths.
   */
  ghost predicate Progress(sources: Sources, scan: seq<Scanned>, stored: Sources, env: Env, done: set<Path>,
                           failed: set<Path>, blocked: set<Path>, remaining: set<SourceId>) {
    && (forall e :: e in scan && e.path in done && e.path !in failed && e.path !in blocked ==> SettledAt(sources, env, e))
    && (forall e :: e in scan && e.path in blocked ==> !SettledAt(sources, env, e))
    && (forall s :: s in remaining ==>
          s in sources && s in stored && sources[s] == stored[s] && stored[s].path !in ScanPaths(scan))
    && (forall s :: s in sources && s !in remaining ==> sources[s].path in ScanPaths(scan))
    && failed <= done && blocked <= done
  }

  lemma SettledElsewhere(before: Sources, after: Sources, path: Path, env: Env, e: Scanned)
    requires SameElsewhere(before, after, path) && e.path != path
    ensures SettledAt(after, env, e) <==> SettledAt(before, env, e)
  {
    if SettledAt(before, env, e) {
      var s :| s in before && before[s].path == e.path && before[s].hash == e.hash && before[s].active == Some(VersionFor(env, e));
      assert s in after && after[s] == before[s];
    }
    if SettledAt(after, env, e) {
      var s :| s in after && after[s].path == e.path && after[s].hash == e.hash && after[s].active == Some(VersionFor(env, e));
      assert s in before && before[s] == after[s];
    }
  }

  /** Building the file at one more path moves on; what happened there decides in which set it ends up. */
  lemma ProgressStep(before: Sources, after: Sources, scan: seq<Scanned>, stored: Sources, env: Env, done: set<Path>,
                     failed: set<Path>, blocked: set<Path>, remaining: set<SourceId>, e: Scanned, outcome: Outcome)
    requires Progress(before, scan, stored, env, done, failed, blocked, remaining)
    requires ScanOk(scan) && e in scan && e.path !in done && SameElsewhere(before, after, e.path)
    requires outcome.Built? || outcome.AlreadyBuilt? ==> SettledAt(after, env, e)
    requires outcome.Blocked? ==> !SettledAt(after, env, e)
    ensures Progress(after, scan, stored, env, done + {e.path},
                     if outcome.Failed? then failed + {e.path} else failed,
                     if outcome.Blocked? then blocked + {e.path} else blocked, remaining)
  {
    hide SettledAt;
    forall x | x in scan && x.path != e.path
      ensures SettledAt(after, env, x) <==> SettledAt(before, env, x)
    {
      SettledElsewhere(before, after, e.path, env, x);
    }
    assert e.path in ScanPaths(scan);
    assert forall x :: x in scan && x.path == e.path ==> x == e;
  }

  /** A file not processed yet, or whose build failed, is served exactly if it was served once the moves were done. */
  ghost predicate AsMoved(moved: Sources, sources: Sources, scan: seq<Scanned>, env: Env, done: set<Path>, failed: set<Path>) {
    forall e :: e in scan && (e.path !in done || e.path in failed) ==> (SettledAt(sources, env, e) <==> SettledAt(moved, env, e))
  }

  lemma AsMovedStep(moved: Sources, before: Sources, after: Sources, scan: seq<Scanned>, env: Env, done: set<Path>, failed: set<Path>,
                    e: Scanned, fails: bool)
    requires AsMoved(moved, before, scan, env, done, failed) && ScanOk(scan) && e in scan && e.path !in done && failed <= done
    requires SameElsewhere(before, after, e.path) && (fails ==> (SettledAt(after, env, e) <==> SettledAt(before, env, e)))
    ensures AsMoved(moved, after, scan, env, done + {e.path}, if fails then failed + {e.path} else failed)
  {
    hide SettledAt, SameElsewhere;
    forall x | x in scan && x.path != e.path
      ensures SettledAt(after, env, x) <==> SettledAt(before, env, x)
    {
      SettledElsewhere(before, after, e.path, env, x);
    }
    assert forall x :: x in scan && x.path == e.path ==> x == e;
  }

  lemma FailedWithin(sources: Sources, scan: seq<Scanned>, stored: Sources, env: Env, y: Tally, remaining: set<SourceId>)
    requires Progress(sources, scan, stored, env, y.done, y.failed, y.blocked, remaining)
    ensures y.failed <= y.done
  {
  }

  /** The rows the builds still to come expect to find. */
  ghost predicate Pending(sources: Sources, mods: seq<Match>, rows: map<SourceId, Source>, k: nat) {
    forall j :: k <= j < |mods| ==> Expects(sources, mods[j], rows)
  }

  ghost predicate Expects(sources: Sources, m: Match, rows: map<SourceId, Source>) {
    var row := Expected(m, rows);
    m.source.id in sources && sources[m.source.id] == row && row.path == m.entry.path
  }

  /** `moved_snapshots.get(source.source_id, source)` */
  function Expected(m: Match, rows: map<SourceId, Source>): Source {
    if m.source.id in rows then rows[m.source.id] else m.source.row
  }

  /** The source of a match as the builds will find it. */
  function Found(m: Match, rows: map<SourceId, Source>): Snapshot {
    Snapshot(m.source.id, Expected(m, rows))
  }

  ghost predicate Free(sources: Sources, added: seq<Scanned>, k: nat) {
    forall j, s :: k <= j < |added| && s in sources ==> sources[s].path != added[j].path
  }

  ghost predicate DistinctEntries(mods: seq<Match>) {
    forall i, j :: 0 <= i < j < |mods| ==> mods[i].entry.path != mods[j].entry.path
  }

  lemma PendingElsewhere(before: Sources, after: Sources, path: Path, mods: seq<Match>, rows: map<SourceId, Source>, k: nat)
    requires SameElsewhere(before, after, path) && Pending(before, mods, rows, k)
    requires forall j :: k <= j < |mods| ==> mods[j].entry.path != path
    ensures Pending(after, mods, rows, k)
  {
  }

  // ---- the events that change detection announces ----

  /** `_added_event_identity`: the id a new file can be announced under before it is claimed. */
  function StableId(t: Tables, e: Scanned): Option<SourceId> {
    if PathId(e.path) !in t.sources then Some(PathId(e.path))
    else if CollisionId(e.path, e.hash) !in t.sources then Some(CollisionId(e.path, e.hash))
    else None
  }

  function AnnouncedKey(t: Tables, e: Scanned, id: SourceId): EventKey {
    EventKey(FileAdded, e.path, BirthGeneration(t, id) + 1, id, Some(e.hash), None)
  }

  function DeletedKey(id: SourceId, row: Source): EventKey {
    EventKey(FileDeleted, row.path, row.generation + 1, id, None, Some(row.hash))
  }

  ghost predicate DetectsAdded(t: Tables, stored: Sources, scan: seq<Scanned>, key: EventKey) {
    exists e :: e in scan && NoneAt(stored, Moves(scan, stored, |scan|), e.path) && StableId(t, e).Some? &&
                key == AnnouncedKey(t, e, StableId(t, e).value)
  }

  ghost predicate DetectsModified(stored: Sources, scan: seq<Scanned>, key: EventKey) {
    exists e, s :: e in scan && s in stored && stored[s].path == e.path && stored[s].hash != e.hash &&
                   key == ModifiedKey(e, s, stored[s])
  }

  ghost predicate DetectsDeleted(stored: Sources, scan: seq<Scanned>, key: EventKey) {
    exists s :: s in Vanished(scan, stored) - Claimed(Moves(scan, stored, |scan|)) && key == DeletedKey(s, stored[s])
  }

  /** The keys `detect_changes` writes when it compares a scan with the sources it has read. */
  ghost predicate Detects(t: Tables, stored: Sources, scan: seq<Scanned>, key: EventKey) {
    || key in MovedKeys(Moves(scan, stored, |scan|))
    || DetectsAdded(t, stored, scan, key) || DetectsModified(stored, scan, key) || DetectsDeleted(stored, scan, key)
  }

  /** Events reconciliation may write besides: a rebuild of unchanged bytes, or a file under a random id. */
  predicate Unannounced(key: EventKey) {
    (key.kind == FileModified && key.current == key.previous) || (key.kind == FileAdded && key.source.FreshId?)
  }

  ghost predicate Allowed(t: Tables, scan: seq<Scanned>, key: EventKey) {
    Detects(t, t.sources, scan, key) || Unannounced(key)
  }

  /** Nothing but allowed events has been added since `before`. */
  ghost predicate EventsOk(t: Tables, scan: seq<Scanned>, before: set<EventKey>, events: set<EventKey>) {
    before <= events && forall key :: key in events && key !in before ==> Allowed(t, scan, key)
  }

  // ---- added files ----

  /** Random ids are new, and different for different paths. */
  ghost predicate UuidsFresh(env: Env, scan: seq<Scanned>, sources: Sources) {
    && (forall e :: e in scan ==> FreshId(env.uuid(e.path)) !in sources)
    && (forall a, b :: a in scan && b in scan && env.uuid(a.path) == env.uuid(b.path) ==> a.path == b.path)
  }

  /** Sources that were not there at first carry the ids of already processed paths. */
  ghost predicate NewIds(first: Sources, sources: Sources, env: Env, scan: seq<Scanned>, paths: set<Path>) {
    && first.Keys <= sources.Keys
    && forall s :: s in sources && s !in first ==> IdFrom(env, scan, paths, s)
  }

  ghost predicate IdFrom(env: Env, scan: seq<Scanned>, paths: set<Path>, s: SourceId) {
    exists e :: e in scan && e.path in paths && IdOf(env, e, s)
  }

  predicate IdOf(env: Env, e: Scanned, s: SourceId) {
    s == PathId(e.path) || s == CollisionId(e.path, e.hash) || s == FreshId(env.uuid(e.path))
  }

  lemma SameChoice(t0: Tables, t: Tables, env: Env, scan: seq<Scanned>, paths: set<Path>, e: Scanned)
    requires NewIds(t0.sources, t.sources, env, scan, paths) && UuidsFresh(env, scan, t0.sources)
    requires e in scan && e.path !in paths && t.tombstones == t0.tombstones
    ensures ChosenId(t, env, e) == ChosenId(t0, env, e) && AddedKey(t, env, e) == AddedKey(t0, env, e)
    ensures FreshId(env.uuid(e.path)) !in t.sources && ChosenId(t0, env, e) !in t.sources
  {
    forall s | s in t.sources && s !in t0.sources
      ensures !IdOf(env, e, s)
    {
      var x :| x in scan && x.path in paths && IdOf(env, x, s);
    }
    assert IdOf(env, e, PathId(e.path)) && IdOf(env, e, CollisionId(e.path, e.hash)) && IdOf(env, e, FreshId(env.uuid(e.path)));
  }

  lemma NewIdsStep(first: Sources, before: Sources, after: Sources, env: Env, scan: seq<Scanned>, paths: set<Path>, e: Scanned)
    requires NewIds(first, before, env, scan, paths) && e in scan && before.Keys <= after.Keys
    requires forall s :: s in after && s !in before ==> IdOf(env, e, s)
    ensures NewIds(first, after, env, scan, paths + {e.path})
  {
    forall s | s in after && s !in first
      ensures IdFrom(env, scan, paths + {e.path}, s)
    {
      if s in before {
        var x :| x in scan && x.path in paths && IdOf(env, x, s);
        assert x.path in paths + {e.path};
      } else {
        assert e.path in paths + {e.path};
      }
    }
  }

  lemma FreeElsewhere(before: Sources, after: Sources, added: seq<Scanned>, k: nat)
    requires k < |added| && ScanOk(added) && Free(before, added, k) && SameElsewhere(before, after, added[k].path)
    ensures Free(after, added, k + 1)
  {
  }

  // ---- versions occupied by unfinished candidates ----

  /** The source a scanned file will be built into: the one found at its path once the moves are done, or a new one. */
  ghost predicate Target(t: Tables, scan: seq<Scanned>, env: Env, e: Scanned, id: SourceId) {
    var moves := Moves(scan, t.sources, |scan|);
    if NoneAt(t.sources, moves, e.path) then id == ChosenId(t, env, e)
    else exists w :: WorkingAt(t.sources, moves, e.path, w) && w.id == id
  }

  /** The scanned paths whose next version is already held by an unfinished candidate. */
  ghost predicate Occupied(t: Tables, scan: seq<Scanned>, env: Env, e: Scanned) {
    exists id :: Target(t, scan, env, e, id) && Leftover(t, env, e, id)
  }

  ghost function OccupiedPaths(t: Tables, scan: seq<Scanned>, env: Env): set<Path> {
    set e | e in scan && Occupied(t, scan, env, e) :: e.path
  }

  /**
   The scanned paths that end in an error. A file that is already served is only read again in a full run; any other must be
   readable, and buildable unless an unfinished candidate holds its version.
   */
  ghost predicate Fails(t: Tables, scan: seq<Scanned>, env: Env, full: bool, e: Scanned) {
    if SettledAt(AfterMoves(t.sources, Moves(scan, t.sources, |scan|)), env, e) then full && !Readable(env, e)
    else !Readable(env, e) || (!Occupied(t, scan, env, e) && !Buildable(env, e))
  }

  ghost function FailingPaths(t: Tables, scan: seq<Scanned>, env: Env, full: bool): set<Path> {
    set e | e in scan && Fails(t, scan, env, full, e) :: e.path
  }

  /** Version rows of sources not yet processed are those the run started from. */
  ghost predicate Undisturbed(t0: Tables, t: Tables, done: set<Path>) {
    forall k: VersionKey :: !(k.source in t.sources && t.sources[k.source].path in done) ==>
      SameRow(t0.versions, t.versions, k)
  }

  lemma UndisturbedStep(t0: Tables, t: Tables, t': Tables, done: set<Path>, path: Path)
    requires Undisturbed(t0, t, done) && path !in done
    requires SameElsewhere(t.sources, t'.sources, path) && VersionsElsewhere(t.versions, t', path)
    ensures Undisturbed(t0, t', done + {path})
  {
    forall k: VersionKey | !(k.source in t'.sources && t'.sources[k.source].path in done + {path})
      ensures SameRow(t0.versions, t'.versions, k)
    {
      assert SameRow(t.versions, t'.versions, k);
      assert SameRow(t0.versions, t.versions, k);
    }
  }

  lemma UndisturbedLeftover(t0: Tables, t: Tables, done: set<Path>, env: Env, e: Scanned, id: SourceId)
    requires Undisturbed(t0, t, done) && !(id in t.sources && t.sources[id].path in done)
    ensures Leftover(t, env, e, id) == Leftover(t0, env, e, id)
  {
    assert SameRow(t0.versions, t.versions, VersionKey(id, VersionFor(env, e)));
  }

  // ---- one build inside a run ----

  /** What stays fixed during the builds of a run: the tables the plan was made from, and where it started. */
  datatype Ctx = Ctx(t0: Tables, scan: seq<Scanned>, env: Env, remaining: set<SourceId>,
                     before: set<EventKey>, occupied: set<Path>, failing: set<Path>, moved: Sources, build: Build)

  /** The scanned paths processed so far, and what became of them. */
  datatype Tally = Tally(done: set<Path>, failed: set<Path>, blocked: set<Path>)

  ghost predicate Clean(y: Tally) {
    y.failed == {} && y.blocked == {}
  }

  ghost predicate CtxOk(c: Ctx) {
    ScanOk(c.scan) && EnvOk(c.env, c.build) && UuidsFresh(c.env, c.scan, c.t0.sources)
  }

  ghost predicate RunInv(c: Ctx, t: Tables, y: Tally, errors: int) {
    && Consistent(t, c.build) && t.tombstones == c.t0.tombstones
    && Progress(t.sources, c.scan, c.t0.sources, c.env, y.done, y.failed, y.blocked, c.remaining)
    && NewIds(c.t0.sources, t.sources, c.env, c.scan, y.done)
    && EventsOk(c.t0, c.scan, c.before, t.events)
    && Undisturbed(c.t0, t, y.done) && TallyOk(c, y, errors)
    && AsMoved(c.moved, t.sources, c.scan, c.env, y.done, y.failed)
  }

  /** Which of the processed files have failed or were blocked was settled when the run began. */
  ghost predicate TallyOk(c: Ctx, y: Tally, errors: int) {
    y.failed == y.done * c.failing && y.blocked == y.done * c.occupied - y.failed && errors == |y.failed|
  }

  /** What a run knows in advance of a file it is going to build. */
  ghost predicate Ready(c: Ctx, e: Scanned, source: Option<Snapshot>) {
    && e in c.scan && Allowed(c.t0, c.scan, KeyFor(c, e, source))
    && (e.path in c.occupied <==> Leftover(c.t0, c.env, e, TargetFor(c, e, source)))
    && (e.path in c.failing <==> FailsWith(c.env, e, source, e.path in c.occupied))
  }

  ghost function KeyFor(c: Ctx, e: Scanned, source: Option<Snapshot>): EventKey {
    if source.Some? then ModifiedKey(e, source.value.id, source.value.row) else AddedKey(c.t0, c.env, e)
  }

  ghost function TargetFor(c: Ctx, e: Scanned, source: Option<Snapshot>): SourceId {
    if source.Some? then source.value.id else ChosenId(c.t0, c.env, e)
  }

  ghost function Tallied(y: Tally, e: Scanned, outcome: Outcome): Tally {
    Tally(y.done + {e.path}, if outcome.Failed? then y.failed + {e.path} else y.failed,
          if outcome.Blocked? then y.blocked + {e.path} else y.blocked)
  }

  method BuildStep(db: Store, e: Scanned, source: Option<Snapshot>, env: Env, ghost c: Ctx, ghost y: Tally, errors: int)
    returns (outcome: Outcome, errors': int, events: nat, ghost y': Tally)
    requires CtxOk(c) && c.env == env && RunInv(c, db.View(), y, errors) && Ready(c, e, source) && e.path !in y.done
    requires source.Some? ==> source.value.id in db.sources && db.sources[source.value.id] == source.value.row
                              && source.value.row.path == e.path
    requires source.None? ==> !PathTaken(db.View(), e.path)
    modifies db
    ensures RunInv(c, db.View(), y', errors') && y' == Tallied(y, e, outcome)
    ensures SameElsewhere(old(db.sources), db.sources, e.path) && old(db.events) <= db.events
    ensures Clean(y') ==> KeyFor(c, e, source) in db.events || (source.Some? && SettledAt(old(db.sources), env, e))
    ensures Clean(y') ==> (outcome.Built? <==> source.None? || !BuiltAlready(env, e, source.value.row))
    ensures Count(db.events) == Count(old(db.events)) + events
  {
    hide Consistent, Count, EnvOk, Progress, Allowed, UuidsFresh, NewIds, SettledAt, SameElsewhere, ScanOk,
         KnowledgeTables.PathTaken, AddedKey, Buildable, Leftover, Undisturbed, VersionsElsewhere, ChosenId, FailsWith, TallyOk, AsMoved;
    ghost var t := db.View();
    if source.None? { SameChoice(c.t0, t, env, c.scan, y.done, e); }
    UndisturbedLeftover(c.t0, t, y.done, env, e, TargetFor(c, e, source));
    outcome, events := BuildFile(db, e, source, env, c.build);
    y' := Tallied(y, e, outcome);
    errors' := errors + if outcome.Failed? then 1 else 0;
    ProgressStep(t.sources, db.sources, c.scan, c.t0.sources, env, y.done, y.failed, y.blocked, c.remaining, e, outcome);
    FailedWithin(t.sources, c.scan, c.t0.sources, env, y, c.remaining);
    AsMovedStep(c.moved, t.sources, db.sources, c.scan, env, y.done, y.failed, e, outcome.Failed?);
    NewIdsStep(c.t0.sources, t.sources, db.sources, env, c.scan, y.done, e);
    UndisturbedStep(c.t0, t, db.View(), y.done, e.path);
    TallyStep(c, y, e, outcome, errors);
  }

  lemma TallyStep(c: Ctx, y: Tally, e: Scanned, outcome: Outcome, errors: int)
    requires TallyOk(c, y, errors) && e.path !in y.done
    requires outcome.Blocked? <==> !outcome.Failed? && e.path in c.occupied
    requires outcome.Failed? <==> e.path in c.failing
    ensures TallyOk(c, Tallied(y, e, outcome), errors + if outcome.Failed? then 1 else 0)
  {
    FailedStep(y.done, c.failing, y.failed, e.path);
    BlockedStep(y.done, c.occupied, y.failed, e.path);
  }

  lemma FailedStep(done: set<Path>, failing: set<Path>, failed: set<Path>, p: Path)
    requires failed == done * failing && p !in done
    ensures p in failing ==> failed + {p} == (done + {p}) * failing && |failed + {p}| == |failed| + 1
    ensures p !in failing ==> failed == (done + {p}) * failing
  {
  }

  lemma BlockedStep(done: set<Path>, occupied: set<Path>, failed: set<Path>, p: Path)
    requires p !in done
    ensures p in occupied && p !in failed ==> (done + {p}) * occupied - failed == (done * occupied - failed) + {p}
    ensures p !in occupied ==> (done + {p}) * occupied - failed == done * occupied - failed
    ensures (done + {p}) * occupied - (failed + {p}) == done * occupied - failed
  {
  }

  // ---- the phases ----

  ghost predicate SameOutside(before: Sources, after: Sources, paths: set<Path>) {
    && (forall s :: s in before && before[s].path !in paths ==> s in after && after[s] == before[s])
    && (forall s :: s in after && after[s].path !in paths ==> s in before && before[s] == after[s])
  }

  lemma OutsideStep(a: Sources, b: Sources, c: Sources, paths: set<Path>, path: Path)
    requires SameOutside(a, b, paths) && SameElsewhere(b, c, path)
    ensures SameOutside(a, c, paths + {path})
  {
  }

  lemma OutsideSelf(a: Sources)
    ensures SameOutside(a, a, {})
  {
  }

  lemma ScanPathsStep(xs: seq<Scanned>, k: nat)
    requires k < |xs|
    ensures ScanPaths(xs[..k + 1]) == ScanPaths(xs[..k]) + {xs[k].path}
    ensures ScanOk(xs) ==> xs[k].path !in ScanPaths(xs[..k])
  {
    var a, b := xs[..k], xs[..k + 1];
    forall p | p in ScanPaths(b) ensures p in ScanPaths(a) + {xs[k].path} {
      var i :| 0 <= i < |b| && b[i].path == p;
      assert i < k ==> a[i] == b[i];
    }
    forall p | p in ScanPaths(a) ensures p in ScanPaths(b) {
      var i :| 0 <= i < |a| && a[i].path == p;
      assert b[i] == a[i];
    }
    assert b[k] == xs[k];
  }

  lemma FreePath(t: Tables, added: seq<Scanned>, k: nat)
    requires k < |added| && Free(t.sources, added, k)
    ensures !PathTaken(t, added[k].path)
  {
  }

  method AddPhase(db: Store, added: seq<Scanned>, env: Env, ghost c: Ctx, ghost y0: Tally)
    returns (errors: int, built: int, events: nat, ghost y: Tally)
    requires CtxOk(c) && c.env == env && RunInv(c, db.View(), y0, 0) && Clean(y0)
    requires ScanOk(added) && Free(db.sources, added, 0)
    requires forall k :: 0 <= k < |added| ==> added[k].path !in y0.done && Ready(c, added[k], None)
    modifies db
    ensures RunInv(c, db.View(), y, errors) && y.done == y0.done + ScanPaths(added)
    ensures SameOutside(old(db.sources), db.sources, ScanPaths(added)) && old(db.events) <= db.events
    ensures Clean(y) ==> built == |added| && forall k :: 0 <= k < |added| ==> AddedKey(c.t0, env, added[k]) in db.events
    ensures Count(db.events) == Count(old(db.events)) + events
    ensures added == [] ==> db.View() == old(db.View()) && built == 0 && events == 0 && errors == 0
  {
    hide CtxOk, RunInv, Ready, AddedKey, Free, SameOutside, SameElsewhere, Count, ScanOk, SettledAt, KnowledgeTables.PathTaken;
    errors, built, events, y := 0, 0, 0, y0;
    OutsideSelf(db.sources);
    assert added[..0] == [] && ScanPaths([]) == {};
    for k := 0 to |added|
      invariant RunInv(c, db.View(), y, errors) && y.done == y0.done + ScanPaths(added[..k])
      invariant Free(db.sources, added, k)
      invariant SameOutside(old(db.sources), db.sources, ScanPaths(added[..k])) && old(db.events) <= db.events
      invariant Clean(y) ==> built == k && forall j :: 0 <= j < k ==> AddedKey(c.t0, env, added[j]) in db.events
      invariant Count(db.events) == Count(old(db.events)) + events
      invariant k == 0 ==> db.View() == old(db.View()) && built == 0 && events == 0 && errors == 0
    {
      var e := added[k];
      ghost var before := db.sources;
      FreePath(db.View(), added, k);
      ScanPathsStep(added, k);
      var outcome, more, n, y' := BuildStep(db, e, None, env, c, y, errors);
      OutsideStep(old(db.sources), before, db.sources, ScanPaths(added[..k]), e.path);
      FreeElsewhere(before, db.sources, added, k);
      errors, events, y := more, events + n, y';
      built := built + if outcome.Built? then 1 else 0;
    }
    assert added[..|added|] == added;
  }

  /** How many of the matched files are not served already. */
  function Unserved(mods: seq<Match>, rows: map<SourceId, Source>, env: Env): nat {
    if mods == [] then 0
    else
      var m := mods[|mods| - 1];
      Unserved(mods[..|mods| - 1], rows, env) + if BuiltAlready(env, m.entry, Expected(m, rows)) then 0 else 1
  }

  lemma UnservedStep(mods: seq<Match>, rows: map<SourceId, Source>, env: Env, k: nat)
    requires k < |mods|
    ensures Unserved(mods[..k + 1], rows, env) ==
              Unserved(mods[..k], rows, env) + if BuiltAlready(env, mods[k].entry, Expected(mods[k], rows)) then 0 else 1
  {
    assert mods[..k + 1][..k] == mods[..k];
  }

  function Entries(mods: seq<Match>): seq<Scanned> {
    seq(|mods|, i requires 0 <= i < |mods| => mods[i].entry)
  }

  lemma DifferentBytes(t: Tables, build: Build, id: SourceId, env: Env, e: Scanned)
    requires Consistent(t, build) && id in t.sources && t.sources[id].path == e.path && t.sources[id].hash != e.hash
    ensures !SettledAt(t.sources, env, e)
  {
  }

  lemma RunConsistent(c: Ctx, t: Tables, y: Tally, errors: int)
    requires RunInv(c, t, y, errors)
    ensures Consistent(t, c.build)
  {
  }

  /** Each of the first `k` files whose bytes changed has its event. */
  ghost predicate ChangesRecorded(mods: seq<Match>, rows: map<SourceId, Source>, k: nat, events: set<EventKey>)
    requires k <= |mods|
  {
    forall j :: 0 <= j < k ==> ChangeRecorded(mods[j], rows, events)
  }

  ghost predicate ChangeRecorded(m: Match, rows: map<SourceId, Source>, events: set<EventKey>) {
    Expected(m, rows).hash != m.entry.hash ==> ModifiedKey(m.entry, m.source.id, Expected(m, rows)) in events
  }

  lemma NoChanges(mods: seq<Match>, rows: map<SourceId, Source>, events: set<EventKey>)
    ensures ChangesRecorded(mods, rows, 0, events)
  {
  }

  lemma ChangesStep(mods: seq<Match>, rows: map<SourceId, Source>, k: nat, before: set<EventKey>, after: set<EventKey>)
    requires k < |mods|
    ensures ChangesRecorded(mods, rows, k, before) && before <= after && ChangeRecorded(mods[k], rows, after) ==>
              ChangesRecorded(mods, rows, k + 1, after)
  {
    hide Expected, ModifiedKey;
  }

  method ModifyPhase(db: Store, mods: seq<Match>, rows: map<SourceId, Source>, env: Env, ghost c: Ctx, ghost y0: Tally, errors0: int)
    returns (errors: int, built: int, events: nat, ghost y: Tally)
    requires CtxOk(c) && c.env == env && RunInv(c, db.View(), y0, errors0)
    requires ScanOk(Entries(mods)) && Pending(db.sources, mods, rows, 0)
    requires forall k :: 0 <= k < |mods| ==> mods[k].entry.path !in y0.done && Ready(c, mods[k].entry, Some(Found(mods[k], rows)))
    modifies db
    ensures RunInv(c, db.View(), y, errors) && y.done == y0.done + ScanPaths(Entries(mods))
    ensures Clean(y) ==> Clean(y0) && built == Unserved(mods, rows, env)
    ensures old(db.events) <= db.events && Count(db.events) == Count(old(db.events)) + events
    ensures Clean(y) ==> ChangesRecorded(mods, rows, |mods|, db.events)
    ensures mods == [] ==> db.View() == old(db.View()) && built == 0 && events == 0 && errors == errors0
  {
    hide CtxOk, RunInv, Ready, SameElsewhere, Count, SettledAt, Expected, ModifiedKey, Pending, BuiltAlready, Unserved, ChangesRecorded;
    errors, built, events, y := errors0, 0, 0, y0;
    var es := Entries(mods);
    NoChanges(mods, rows, db.events);
    assert es[..0] == [] && ScanPaths([]) == {} && mods[..0] == [];
    NoneUnserved(rows, env);
    for k := 0 to |mods|
      invariant RunInv(c, db.View(), y, errors) && y.done == y0.done + ScanPaths(es[..k])
      invariant (Clean(y) ==> Clean(y0) && built == Unserved(mods[..k], rows, env)) && Pending(db.sources, mods, rows, k)
      invariant old(db.events) <= db.events && Count(db.events) == Count(old(db.events)) + events
      invariant Clean(y) ==> ChangesRecorded(mods, rows, k, db.events)
      invariant k == 0 ==> db.View() == old(db.View()) && built == 0 && events == 0 && errors == errors0
    {
      var m := mods[k];
      ghost var before := db.View();
      ScanPathsStep(es, k);
      UnservedStep(mods, rows, env, k);
      PendingNow(db.sources, mods, rows, k);
      if Expected(m, rows).hash != m.entry.hash {
        RunConsistent(c, db.View(), y, errors);
        DifferentBytes(db.View(), c.build, m.source.id, env, m.entry);
      }
      var outcome, more, n, y' := BuildStep(db, m.entry, Some(Found(m, rows)), env, c, y, errors);
      PendingNext(before.sources, db.sources, mods, rows, k);
      ChangesStep(mods, rows, k, before.events, db.events);
      errors, events, y := more, events + n, y';
      built := built + if outcome.Built? then 1 else 0;
    }
    assert es[..|mods|] == es && mods[..|mods|] == mods;
  }

  lemma NoneUnserved(rows: map<SourceId, Source>, env: Env)
    ensures Unserved([], rows, env) == 0
  {
  }

  lemma PendingNow(sources: Sources, mods: seq<Match>, rows: map<SourceId, Source>, k: nat)
    requires Pending(sources, mods, rows, k) && k < |mods|
    ensures var m := mods[k];
            m.source.id in sources && sources[m.source.id] == Expected(m, rows) && Expected(m, rows).path == m.entry.path
  {
    assert Expects(sources, mods[k], rows);
  }

  lemma PendingNext(before: Sources, after: Sources, mods: seq<Match>, rows: map<SourceId, Source>, k: nat)
    requires k < |mods| && ScanOk(Entries(mods)) && Pending(before, mods, rows, k)
    requires SameElsewhere(before, after, mods[k].entry.path)
    ensures Pending(after, mods, rows, k + 1)
  {
    hide SameElsewhere, Expects;
    var es := Entries(mods);
    forall j | k + 1 <= j < |mods|
      ensures mods[j].entry.path != mods[k].entry.path
    {
      assert es[k].path != es[j].path;
    }
    PendingElsewhere(before, after, mods[k].entry.path, mods, rows, k + 1);
  }

  /** What a finished run leaves: everything scanned is served, and nothing else is stored. */
  ghost predicate Settled(sources: Sources, scan: seq<Scanned>, env: Env) {
    && (forall e :: e in scan ==> SettledAt(sources, env, e))
    && (forall s :: s in sources ==> sources[s].path in ScanPaths(scan))
  }

  lemma DeleteProgress(t: Tables, scan: seq<Scanned>, stored: Sources, env: Env, y: Tally, remaining: set<SourceId>, id: SourceId)
    requires Progress(t.sources, scan, stored, env, y.done, y.failed, y.blocked, remaining) && id in remaining
    ensures Current(t, id, stored[id].path, stored[id].generation)
    ensures var t' := DeleteSource(t, id, stored[id].hash, stored[id].path, stored[id].generation).0;
            && Progress(t'.sources, scan, stored, env, y.done, y.failed, y.blocked, remaining - {id})
            && t'.events == t.events && t'.sources == t.sources - {id}
            && DeleteSource(t, id, stored[id].hash, stored[id].path, stored[id].generation).1 == Some(stored[id].generation + 1)
  {
    hide SettledAt;
    var t' := DeleteSource(t, id, stored[id].hash, stored[id].path, stored[id].generation).0;
    forall e | e in scan
      ensures SettledAt(t'.sources, env, e) <==> SettledAt(t.sources, env, e)
    {
      assert e.path in ScanPaths(scan);
      DeletedElsewhere(t.sources, t'.sources, id, env, e);
    }
  }

  lemma DeletedElsewhere(before: Sources, after: Sources, id: SourceId, env: Env, e: Scanned)
    requires id in before && before[id].path != e.path && after == before - {id}
    ensures SettledAt(after, env, e) <==> SettledAt(before, env, e)
  {
    if SettledAt(before, env, e) {
      var s :| s in before && before[s].path == e.path && before[s].hash == e.hash && before[s].active == Some(VersionFor(env, e));
      assert s in after;
    }
    if SettledAt(after, env, e) {
      var s :| s in after && after[s].path == e.path && after[s].hash == e.hash && after[s].active == Some(VersionFor(env, e));
      assert s in before;
    }
  }

  /** All of `deleted` but the `rest` are gone, and nothing else has changed. */
  ghost predicate Without(first: Sources, now: Sources, deleted: set<SourceId>, rest: set<SourceId>) {
    now == first - (deleted - rest)
  }

  lemma WithoutNone(first: Sources, deleted: set<SourceId>)
    ensures Without(first, first, deleted, deleted)
  {
  }

  lemma WithoutStep(first: Sources, now: Sources, deleted: set<SourceId>, rest: set<SourceId>, s: SourceId)
    requires Without(first, now, deleted, rest) && s in rest && rest <= deleted
    ensures Without(first, now - {s}, deleted, rest - {s})
  {
  }

  lemma WithoutAll(first: Sources, now: Sources, deleted: set<SourceId>)
    requires Without(first, now, deleted, {})
    ensures now == first - deleted
  {
    assert deleted - {} == deleted;
  }

  method DeletePhase(db: Store, deleted: set<SourceId>, stored: Sources, ghost c: Ctx, ghost y: Tally)
    returns (count: int, events: nat)
    requires c.remaining == deleted && c.t0.sources == stored && Consistent(db.View(), c.build)
    requires Progress(db.sources, c.scan, stored, c.env, y.done, y.failed, y.blocked, deleted)
    requires deleted <= stored.Keys
    requires EventsOk(c.t0, c.scan, c.before, db.events)
    requires forall s :: s in deleted ==> Allowed(c.t0, c.scan, DeletedKey(s, stored[s]))
    modifies db
    ensures Consistent(db.View(), c.build) && count == |deleted|
    ensures Progress(db.sources, c.scan, stored, c.env, y.done, y.failed, y.blocked, {})
    ensures EventsOk(c.t0, c.scan, c.before, db.events) && old(db.events) <= db.events
    ensures db.sources == old(db.sources) - deleted
    ensures forall s :: s in deleted ==> DeletedKey(s, stored[s]) in db.events
    ensures Count(db.events) == Count(old(db.events)) + events
    ensures deleted == {} ==> db.View() == old(db.View()) && events == 0
  {
    hide Consistent, Progress, Allowed, Count, KnowledgeTables.DeleteSource, KnowledgeTables.Current, Without;
    WithoutNone(db.sources, deleted);
    var rest := deleted;
    count, events := |deleted|, 0;
    while rest != {}
      invariant rest <= deleted && count == |deleted| && Consistent(db.View(), c.build)
      invariant Progress(db.sources, c.scan, stored, c.env, y.done, y.failed, y.blocked, rest)
      invariant EventsOk(c.t0, c.scan, c.before, db.events) && old(db.events) <= db.events
      invariant Without(old(db.sources), db.sources, deleted, rest)
      invariant forall s :: s in deleted && s !in rest ==> DeletedKey(s, stored[s]) in db.events
      invariant Count(db.events) == Count(old(db.events)) + events
      invariant deleted == {} ==> db.View() == old(db.View()) && events == 0
      decreases |rest|
    {
      var s :| s in rest;
      var row := stored[s];
      DeleteProgress(db.View(), c.scan, stored, c.env, y, rest, s);
      WithoutStep(old(db.sources), db.sources, deleted, rest, s);
      DeleteKeeps(db.View(), c.build, s, row.hash, row.path, row.generation);
      var generation := db.DeleteSource(s, row.hash, row.path, row.generation);
      if generation.Some? {
        EventKeeps(db.View(), c.build, DeletedKey(s, row));
        var inserted := db.AppendEvent(EventKey(FileDeleted, row.path, generation.value, s, None, Some(row.hash)));
        events := events + if inserted then 1 else 0;
      } else {
        count := count - 1;
      }
      rest := rest - {s};
    }
    WithoutAll(old(db.sources), db.sources, deleted);
  }
}
