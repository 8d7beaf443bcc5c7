/**
 A whole reconciliation run, and change detection without one.
 */
module Reconciliation {
  import opened Wrappers
  import opened KnowledgeTables
  import opened KnowledgeStore
  import opened ReconcileDiff
  import opened ReconcilePlan
  import opened Building
  import opened ReconcileRun

  /** Whether a source whose bytes did not change must be built again. */
  method NeedsRebuild(db: Store, source: Snapshot, e: Scanned, full: bool, env: Env, ghost build: Build) returns (r: bool)
    requires Consistent(db.View(), build)
    requires source.id in db.sources && db.sources[source.id].active == source.row.active
    ensures r <==> full || source.row.active.None? || source.row.active.value.identity != IdentityFor(env, e.media)
  {
    hide HasExactly;
    if full || source.row.active.None? { return true; }
    var key := VersionKey(source.id, source.row.active.value);
    assert CompleteAt(db.View(), build, source.id);
    if key !in db.versions {
      r := true;
      return;
    }
    var identity := db.versions[key].identity;
    r := || identity.extractor != ExtractorName(e.media) || identity.extractorVersion != EXTRACTOR_VERSION
         || identity.provider != env.embedding.provider || identity.model != env.embedding.model
         || identity.dim != env.embedding.dim || identity.embeddingVersion != env.embedding.version;
  }

  ghost predicate UpToDate(m: Match, env: Env) {
    m.source.row.active == Some(VersionFor(env, m.entry))
  }

  ghost predicate Matches(stored: Sources, same: seq<Match>) {
    forall m :: m in same ==> m.source.id in stored && stored[m.source.id].active == m.source.row.active
                              && stored[m.source.id].hash == m.source.row.hash == m.entry.hash
  }

  /** The unchanged candidates are divided into those to be rebuilt and those already served. */
  method SelectRebuilds(db: Store, same: seq<Match>, full: bool, env: Env, ghost build: Build)
    returns (rebuild: seq<Match>, count: nat, ghost kept: seq<Match>)
    requires Consistent(db.View(), build) && Matches(db.sources, same)
    ensures forall m :: m in same <==> m in rebuild || m in kept
    ensures forall m :: m in kept ==> UpToDate(m, env)
    ensures if full then kept == [] else forall m :: m in rebuild ==> !UpToDate(m, env)
    ensures count == |kept| && |same| == |rebuild| + |kept|
    ensures DistinctEntries(same) ==> DistinctEntries(rebuild)
  {
    hide Consistent;
    rebuild, kept, count := [], [], 0;
    for i := 0 to |same|
      invariant forall m :: m in same[..i] <==> m in rebuild || m in kept
      invariant forall m :: m in kept ==> UpToDate(m, env)
      invariant if full then kept == [] else forall m :: m in rebuild ==> !UpToDate(m, env)
      invariant count == |kept| && i == |rebuild| + |kept|
      invariant DistinctEntries(same) ==> DistinctEntries(rebuild)
    {
      var m := same[i];
      assert m in same && same[..i + 1] == same[..i] + [m];
      if m.source.row.active.Some? { ActiveHash(db.View(), build, m.source.id); }
      var again := NeedsRebuild(db, m.source, m.entry, full, env, build);
      if again {
        assert DistinctEntries(same) ==> forall x :: x in same[..i] ==> x.entry.path != m.entry.path;
        rebuild := rebuild + [m];
      } else {
        kept, count := kept + [m], count + 1;
      }
    }
    assert same[..|same|] == same;
  }

  lemma ActiveHash(t: Tables, build: Build, s: SourceId)
    requires Consistent(t, build) && s in t.sources && t.sources[s].active.Some?
    ensures t.sources[s].active.value.hash == t.sources[s].hash
  {
    hide HasExactly;
    assert CompleteAt(t, build, s);
  }

  // ---- from the plan to the builds ----

  lemma SameMatches(scan: seq<Scanned>, stored: Sources, plan: Plan)
    requires ScanOk(scan) && IsPlan(scan, stored, plan)
    ensures Matches(stored, plan.same) && DistinctEntries(plan.same) && DistinctEntries(plan.modified)
    ensures forall m :: m in plan.modified || m in plan.same ==> m.entry in scan && GoodMatch(stored, plan.moved, m)
    ensures forall m :: m in plan.modified ==> m.source.row.hash != m.entry.hash
  {
    hide Moves, NoneAt;
    assert scan[..|scan|] == scan;
    MovesGood(scan, stored, |scan|);
    forall m | m in plan.same
      ensures m.source.id in stored && stored[m.source.id].active == m.source.row.active
      ensures stored[m.source.id].hash == m.source.row.hash == m.entry.hash
    {
      MatchedStored(scan, stored, plan.moved, m);
    }
  }

  lemma MatchedStored(scan: seq<Scanned>, stored: Sources, moves: seq<Match>, m: Match)
    requires GoodMoves(scan, stored, moves) && GoodMatch(stored, moves, m)
    ensures m.source.id in stored && stored[m.source.id].active == m.source.row.active
    ensures stored[m.source.id].hash == m.source.row.hash
  {
    if k :| 0 <= k < |moves| && moves[k].entry.path == m.entry.path && m.source == Relocated(moves[k]) {
      assert GoodMove(scan, stored, moves[k]);
    }
  }

  /** The row a build of a matched file expects is the one the moves have left. */
  lemma ExpectsAfterMoves(scan: seq<Scanned>, stored: Sources, moves: seq<Match>, rows: map<SourceId, Source>, m: Match)
    requires GoodMoves(scan, stored, moves) && GoodMatch(stored, moves, m)
    requires rows.Keys == Claimed(moves) && forall k :: 0 <= k < |moves| ==> rows[moves[k].source.id] == MovedRow(moves[k])
    ensures Expects(AfterMoves(stored, moves), m, rows)
    ensures Expected(m, rows).hash == m.source.row.hash && Expected(m, rows).active == m.source.row.active
    ensures m.source.id !in Claimed(moves) ==> Expected(m, rows) == stored[m.source.id] == m.source.row
  {
    hide AfterMoves;
    AfterMovesRows(scan, stored, moves);
    MatchedRow(scan, stored, moves, m);
    RowOrigin(scan, stored, moves, m.source.id);
    assert forall k :: 0 <= k < |moves| ==> moves[k].source.id in Claimed(moves);
    if m.source.id in Claimed(moves) {
      var k :| 0 <= k < |moves| && moves[k].source.id == m.source.id;
      assert rows[moves[k].source.id] == MovedRow(moves[k]);
    }
  }

  lemma KeptSettled(scan: seq<Scanned>, stored: Sources, plan: Plan, env: Env, m: Match)
    requires ScanOk(scan) && IsPlan(scan, stored, plan) && m in plan.same && UpToDate(m, env)
    ensures SettledAt(AfterMoves(stored, plan.moved), env, m.entry)
  {
    hide AfterMoves, Moves, NoneAt;
    MovesGood(scan, stored, |scan|);
    SameMatches(scan, stored, plan);
    MatchedRow(scan, stored, plan.moved, m);
    SettledBy(AfterMoves(stored, plan.moved), env, m.entry, m.source.id);
  }

  /** After the moves the run invariant holds with the files that need no build as already processed. */
  lemma RunStarts(c: Ctx, t: Tables, plan: Plan, kept: seq<Match>, full: bool)
    requires CtxOk(c) && Consistent(c.t0, c.build) && c.occupied == OccupiedPaths(c.t0, c.scan, c.env)
    requires c.failing == FailingPaths(c.t0, c.scan, c.env, full) && (full ==> kept == [])
    requires StoredOk(c.t0.sources) && IsPlan(c.scan, c.t0.sources, plan)
    requires Consistent(t, c.build) && c.remaining == plan.deleted && c.before == c.t0.events
    requires t == c.t0.(sources := AfterMoves(c.t0.sources, plan.moved), events := c.t0.events + MovedKeys(plan.moved))
    requires c.moved == t.sources && forall m :: m in kept ==> m in plan.same && UpToDate(m, c.env)
    ensures RunInv(c, t, Tally(ScanPaths(Entries(kept)), {}, {}), 0)
    ensures Free(t.sources, plan.added, 0)
  {
    hide AfterMoves, Moves, SettledAt, Consistent, Sorted, Vanished, EnvOk, UuidsFresh, MovedKeys, OccupiedPaths, FailingPaths, Progress;
    var scan, stored := c.scan, c.t0.sources;
    PlanReachesScan(scan, stored, plan);
    ProgressStarts(scan, stored, c.env, plan, kept);
    KeptUnoccupied(c, plan, kept);
    KeptNotFailing(c, plan, kept, full);
    assert TallyOk(c, Tally(ScanPaths(Entries(kept)), {}, {}), 0);
    assert EventsOk(c.t0, scan, c.before, t.events);
    MovesGood(scan, stored, |scan|);
    AfterMovesRows(scan, stored, plan.moved);
    NewIdsNone(stored, t.sources, c.env, scan, ScanPaths(Entries(kept)));
  }

  lemma ProgressStarts(scan: seq<Scanned>, stored: Sources, env: Env, plan: Plan, kept: seq<Match>)
    requires ScanOk(scan) && StoredOk(stored) && IsPlan(scan, stored, plan)
    requires forall m :: m in kept ==> m in plan.same && UpToDate(m, env)
    ensures Progress(AfterMoves(stored, plan.moved), scan, stored, env, ScanPaths(Entries(kept)), {}, {}, plan.deleted)
  {
    hide AfterMoves, Moves, SettledAt, Sorted, Vanished, UpToDate;
    PlanReachesScan(scan, stored, plan);
    DeletedStored(scan, stored, plan);
    var es := Entries(kept);
    forall e | e in scan && e.path in ScanPaths(es)
      ensures SettledAt(AfterMoves(stored, plan.moved), env, e)
    {
      var i :| 0 <= i < |es| && es[i].path == e.path;
      var m := kept[i];
      assert m in kept;
      SameEntry(scan, stored, plan, m, e);
      KeptSettled(scan, stored, plan, env, m);
    }
  }

  lemma KeptUnoccupied(c: Ctx, plan: Plan, kept: seq<Match>)
    requires ScanOk(c.scan) && StoredOk(c.t0.sources) && IsPlan(c.scan, c.t0.sources, plan) && Consistent(c.t0, c.build)
    requires c.occupied == OccupiedPaths(c.t0, c.scan, c.env)
    requires forall m :: m in kept ==> m in plan.same && UpToDate(m, c.env)
    ensures ScanPaths(Entries(kept)) * c.occupied == {}
  {
    hide Consistent, IsPlan, StoredOk, OccupiedPaths, Leftover;
    var es := Entries(kept);
    forall i | 0 <= i < |es|
      ensures es[i].path !in c.occupied
    {
      var m := kept[i];
      assert m in kept;
      OccupiedMatch(c, plan, m);
      SameMatches(c.scan, c.t0.sources, plan);
      VersionOccupied(c.t0, c.build, c.env, m.entry, m.source.id);
    }
  }

  lemma KeptNotFailing(c: Ctx, plan: Plan, kept: seq<Match>, full: bool)
    requires ScanOk(c.scan) && IsPlan(c.scan, c.t0.sources, plan)
    requires c.failing == FailingPaths(c.t0, c.scan, c.env, full) && (full ==> kept == [])
    requires forall m :: m in kept ==> m in plan.same && UpToDate(m, c.env)
    ensures ScanPaths(Entries(kept)) * c.failing == {}
  {
    hide IsPlan, FailingPaths, AfterMoves, SettledAt, Occupied, Buildable, UpToDate;
    var es := Entries(kept);
    forall i | 0 <= i < |es|
      ensures es[i].path !in c.failing
    {
      var m := kept[i];
      assert m in kept;
      KeptSettled(c.scan, c.t0.sources, plan, c.env, m);
      SameMatches(c.scan, c.t0.sources, plan);
      FailingPath(c.t0, c.scan, c.env, full, m.entry);
      MovedOf(c.scan, c.t0.sources, plan);
    }
  }

  lemma FailingPath(t: Tables, scan: seq<Scanned>, env: Env, full: bool, e: Scanned)
    requires ScanOk(scan) && e in scan
    ensures e.path in FailingPaths(t, scan, env, full) <==> Fails(t, scan, env, full, e)
  {
    hide Fails;
  }

  lemma MovedOf(scan: seq<Scanned>, stored: Sources, plan: Plan)
    requires IsPlan(scan, stored, plan)
    ensures plan.moved == Moves(scan, stored, |scan|)
  {
    hide Moves, Sorted;
  }

  /** A matched file is served after the moves exactly if its source, as the builds will find it, is up to date. */
  lemma ServedMatch(c: Ctx, plan: Plan, rows: map<SourceId, Source>, m: Match)
    requires ScanOk(c.scan) && StoredOk(c.t0.sources) && IsPlan(c.scan, c.t0.sources, plan)
    requires m in plan.modified || m in plan.same
    requires rows.Keys == Claimed(plan.moved)
    requires forall k :: 0 <= k < |plan.moved| ==> rows[plan.moved[k].source.id] == MovedRow(plan.moved[k])
    ensures SettledAt(AfterMoves(c.t0.sources, plan.moved), c.env, m.entry) <==>
              BuiltAlready(c.env, m.entry, Expected(m, rows))
  {
    hide AfterMoves, IsPlan, Expected, Claimed, Allowed, ModifiedKey, GoodMove, Moves;
    var after := AfterMoves(c.t0.sources, plan.moved);
    ModAllowed(c, plan, rows, m);
    MovedOf(c.scan, c.t0.sources, plan);
    MovesGood(c.scan, c.t0.sources, |c.scan|);
    MovesKeepPathsApart(c.scan, c.t0.sources, plan.moved);
    if BuiltAlready(c.env, m.entry, Expected(m, rows)) {
      SettledBy(after, c.env, m.entry, m.source.id);
    }
    if SettledAt(after, c.env, m.entry) {
      var s :| s in after && after[s].path == m.entry.path && after[s].hash == m.entry.hash &&
               after[s].active == Some(VersionFor(c.env, m.entry));
      OnePath(after, s, m.source.id);
    }
  }

  lemma AddedUnserved(c: Ctx, plan: Plan, e: Scanned)
    requires ScanOk(c.scan) && StoredOk(c.t0.sources) && IsPlan(c.scan, c.t0.sources, plan) && e in plan.added
    ensures !SettledAt(AfterMoves(c.t0.sources, plan.moved), c.env, e)
  {
    hide AfterMoves, Moves, Sorted, StoredOk;
    PlanReachesScan(c.scan, c.t0.sources, plan);
  }

  /** A matched file's version is occupied exactly when a candidate of its own source holds it. */
  lemma OccupiedMatch(c: Ctx, plan: Plan, m: Match)
    requires ScanOk(c.scan) && StoredOk(c.t0.sources) && IsPlan(c.scan, c.t0.sources, plan)
    requires m in plan.modified || m in plan.same
    ensures m.entry.path in OccupiedPaths(c.t0, c.scan, c.env) <==> Leftover(c.t0, c.env, m.entry, m.source.id)
  {
    hide Moves, StoredOk, Leftover, GoodMove, NoneAt, Sorted;
    var stored := c.t0.sources;
    SameMatches(c.scan, stored, plan);
    MovesGood(c.scan, stored, |c.scan|);
    NotNone(c.scan, stored, plan.moved, m);
    forall id | Target(c.t0, c.scan, c.env, m.entry, id)
      ensures id == m.source.id
    {
      var w :| WorkingAt(stored, plan.moved, m.entry.path, w) && w.id == id;
      WorkingUnique(c.scan, stored, plan.moved, m.entry.path, w, m.source);
    }
    assert WorkingAt(stored, plan.moved, m.entry.path, m.source);
    assert Target(c.t0, c.scan, c.env, m.entry, m.source.id);
    OccupiedPath(c.t0, c.scan, c.env, m.entry);
  }

  lemma OccupiedAdded(c: Ctx, plan: Plan, e: Scanned)
    requires ScanOk(c.scan) && IsPlan(c.scan, c.t0.sources, plan) && e in plan.added
    ensures e.path in OccupiedPaths(c.t0, c.scan, c.env) <==> Leftover(c.t0, c.env, e, ChosenId(c.t0, c.env, e))
  {
    hide Moves, Leftover, NoneAt, GoodMatch;
    assert c.scan[..|c.scan|] == c.scan;
    assert NoneAt(c.t0.sources, plan.moved, e.path);
    assert Target(c.t0, c.scan, c.env, e, ChosenId(c.t0, c.env, e));
    OccupiedPath(c.t0, c.scan, c.env, e);
  }

  lemma AddReady(c: Ctx, plan: Plan, e: Scanned, full: bool)
    requires CtxOk(c) && StoredOk(c.t0.sources) && IsPlan(c.scan, c.t0.sources, plan) && e in plan.added
    requires c.occupied == OccupiedPaths(c.t0, c.scan, c.env) && c.failing == FailingPaths(c.t0, c.scan, c.env, full)
    ensures Ready(c, e, None)
  {
    hide IsPlan, StoredOk, EnvOk, UuidsFresh, Allowed, AddedKey, OccupiedPaths, FailingPaths, Leftover, ChosenId,
         SettledAt, AfterMoves, Occupied, Buildable, Readable, Moves;
    AddedAllowed(c, plan, e);
    OccupiedAdded(c, plan, e);
    AddedUnserved(c, plan, e);
    MovedOf(c.scan, c.t0.sources, plan);
    FailingPath(c.t0, c.scan, c.env, full, e);
    OccupiedPath(c.t0, c.scan, c.env, e);
  }

  lemma ModReady(c: Ctx, plan: Plan, rows: map<SourceId, Source>, m: Match, full: bool)
    requires CtxOk(c) && StoredOk(c.t0.sources) && IsPlan(c.scan, c.t0.sources, plan)
    requires m in plan.modified || (m in plan.same && (full || !UpToDate(m, c.env)))
    requires c.occupied == OccupiedPaths(c.t0, c.scan, c.env) && c.failing == FailingPaths(c.t0, c.scan, c.env, full)
    requires rows.Keys == Claimed(plan.moved)
    requires forall k :: 0 <= k < |plan.moved| ==> rows[plan.moved[k].source.id] == MovedRow(plan.moved[k])
    ensures Ready(c, m.entry, Some(Found(m, rows))) && Expects(AfterMoves(c.t0.sources, plan.moved), m, rows)
  {
    hide IsPlan, StoredOk, EnvOk, UuidsFresh, Allowed, ModifiedKey, OccupiedPaths, FailingPaths, Leftover, Expected, Expects,
         SettledAt, AfterMoves, Occupied, Buildable, Readable, Moves, Claimed;
    ModAllowed(c, plan, rows, m);
    OccupiedMatch(c, plan, m);
    ServedMatch(c, plan, rows, m);
    MovedOf(c.scan, c.t0.sources, plan);
    FailingPath(c.t0, c.scan, c.env, full, m.entry);
    OccupiedPath(c.t0, c.scan, c.env, m.entry);
  }

  lemma OccupiedPath(t: Tables, scan: seq<Scanned>, env: Env, e: Scanned)
    requires ScanOk(scan) && e in scan
    ensures e.path in OccupiedPaths(t, scan, env) <==> Occupied(t, scan, env, e)
  {
    hide Occupied;
  }

  lemma NewIdsNone(first: Sources, sources: Sources, env: Env, scan: seq<Scanned>, paths: set<Path>)
    requires first.Keys == sources.Keys
    ensures NewIds(first, sources, env, scan, paths)
  {
    hide IdFrom;
  }

  lemma DeletedStored(scan: seq<Scanned>, stored: Sources, plan: Plan)
    requires IsPlan(scan, stored, plan)
    ensures plan.deleted <= stored.Keys
  {
    hide Moves, Sorted;
  }

  lemma SameEntry(scan: seq<Scanned>, stored: Sources, plan: Plan, m: Match, e: Scanned)
    requires ScanOk(scan) && IsPlan(scan, stored, plan) && m in plan.same && e in scan && e.path == m.entry.path
    ensures m.entry == e
  {
    hide Moves, NoneAt, GoodMatch;
    assert scan[..|scan|] == scan;
  }

  lemma AddedAllowed(c: Ctx, plan: Plan, e: Scanned)
    requires IsPlan(c.scan, c.t0.sources, plan) && e in plan.added
    ensures Allowed(c.t0, c.scan, AddedKey(c.t0, c.env, e)) && e in c.scan
    ensures StableId(c.t0, e).Some? ==> AnnouncedKey(c.t0, e, StableId(c.t0, e).value) == AddedKey(c.t0, c.env, e)
  {
    hide Moves, GoodMatch;
    assert c.scan[..|c.scan|] == c.scan;
    assert NoneAt(c.t0.sources, plan.moved, e.path);
    if StableId(c.t0, e).Some? {
      assert DetectsAdded(c.t0, c.t0.sources, c.scan, AddedKey(c.t0, c.env, e));
    }
  }

  lemma ModAllowed(c: Ctx, plan: Plan, rows: map<SourceId, Source>, m: Match)
    requires ScanOk(c.scan) && IsPlan(c.scan, c.t0.sources, plan) && (m in plan.modified || m in plan.same)
    requires rows.Keys == Claimed(plan.moved)
    requires forall k :: 0 <= k < |plan.moved| ==> rows[plan.moved[k].source.id] == MovedRow(plan.moved[k])
    ensures Allowed(c.t0, c.scan, ModifiedKey(m.entry, m.source.id, Expected(m, rows)))
    ensures Expects(AfterMoves(c.t0.sources, plan.moved), m, rows) && m.entry in c.scan
    ensures m in plan.modified ==> Expected(m, rows).hash != m.entry.hash
    ensures Expected(m, rows).active == m.source.row.active
    ensures m in plan.modified ==> m.source.id in c.t0.sources && Expected(m, rows) == c.t0.sources[m.source.id]
                                   && c.t0.sources[m.source.id].path == m.entry.path
  {
    hide AfterMoves, Moves, NoneAt;
    var stored := c.t0.sources;
    MovesGood(c.scan, stored, |c.scan|);
    SameMatches(c.scan, stored, plan);
    ExpectsAfterMoves(c.scan, stored, plan.moved, rows, m);
    if m in plan.modified {
      NotMoved(c.scan, stored, plan.moved, m);
      assert DetectsModified(stored, c.scan, ModifiedKey(m.entry, m.source.id, stored[m.source.id]));
    }
  }

  /** A file whose bytes differ from its source was not matched by a move. */
  lemma NotMoved(scan: seq<Scanned>, stored: Sources, moves: seq<Match>, m: Match)
    requires GoodMoves(scan, stored, moves) && GoodMatch(stored, moves, m) && m.source.row.hash != m.entry.hash
    requires m.entry in scan && ScanOk(scan)
    ensures m.source.id !in Claimed(moves) && stored[m.source.id].path == m.entry.path
  {
    forall k | 0 <= k < |moves| && moves[k].entry.path == m.entry.path
      ensures m.source != Relocated(moves[k])
    {
      assert GoodMove(scan, stored, moves[k]);
    }
  }

  // ---- which files end up where ----

  lemma PathsOfScan(xs: seq<Scanned>, e: Scanned)
    requires e in xs
    ensures e.path in ScanPaths(xs)
  {
  }

  lemma EntryOf(mods: seq<Match>, m: Match)
    requires m in mods
    ensures m.entry in Entries(mods)
  {
    var i :| 0 <= i < |mods| && mods[i] == m;
    assert Entries(mods)[i] == m.entry;
  }

  lemma AllProcessed(scan: seq<Scanned>, stored: Sources, plan: Plan, rebuild: seq<Match>, kept: seq<Match>)
    requires IsPlan(scan, stored, plan) && (forall m :: m in plan.same <==> m in rebuild || m in kept)
    ensures ScanPaths(scan) <= ScanPaths(Entries(kept)) + ScanPaths(plan.added) + ScanPaths(Entries(plan.modified + rebuild))
  {
    hide Moves, NoneAt, GoodMatch;
    assert scan[..|scan|] == scan;
    forall p | p in ScanPaths(scan)
      ensures p in ScanPaths(Entries(kept)) + ScanPaths(plan.added) + ScanPaths(Entries(plan.modified + rebuild))
    {
      var i :| 0 <= i < |scan| && scan[i].path == p;
      var e := scan[i];
      assert e in scan;
      if e in plan.added {
        PathsOfScan(plan.added, e);
      } else {
        var m :| (m in plan.modified || m in plan.same) && m.entry == e;
        if m in kept {
          EntryOf(kept, m);
          PathsOfScan(Entries(kept), e);
        } else {
          EntryOf(plan.modified + rebuild, m);
          PathsOfScan(Entries(plan.modified + rebuild), e);
        }
      }
    }
  }

  lemma WorkingUnique(scan: seq<Scanned>, stored: Sources, moves: seq<Match>, path: Path, a: Snapshot, b: Snapshot)
    requires GoodMoves(scan, stored, moves) && StoredOk(stored)
    requires WorkingAt(stored, moves, path, a) && WorkingAt(stored, moves, path, b)
    ensures a == b
  {
    hide StoredOk;
    assert forall k :: 0 <= k < |moves| ==> GoodMove(scan, stored, moves[k]);
    if a.id in stored && stored[a.id].path == path { assert path in StoredPaths(stored); }
    if b.id in stored && stored[b.id].path == path { assert path in StoredPaths(stored); }
    if a.id in stored && b.id in stored && stored[a.id].path == path && stored[b.id].path == path {
      OnePath(stored, a.id, b.id);
    }
  }

  lemma OnePath(stored: Sources, a: SourceId, b: SourceId)
    requires StoredOk(stored) && a in stored && b in stored && stored[a].path == stored[b].path
    ensures a == b
  {
  }

  /** The lists of the plan, and the two parts of the unchanged files, concern different paths. */
  lemma ListsApart(scan: seq<Scanned>, stored: Sources, plan: Plan, rebuild: seq<Match>, kept: seq<Match>, full: bool, env: Env)
    requires ScanOk(scan) && StoredOk(stored) && IsPlan(scan, stored, plan)
    requires forall m :: m in plan.same <==> m in rebuild || m in kept
    requires forall m :: m in kept ==> UpToDate(m, env)
    requires if full then kept == [] else forall m :: m in rebuild ==> !UpToDate(m, env)
    requires DistinctEntries(rebuild)
    ensures ScanOk(plan.added) && ScanOk(Entries(plan.modified + rebuild))
    ensures forall e, m :: e in plan.added && (m in plan.modified || m in plan.same) ==> e.path != m.entry.path
    ensures forall a, b :: a in plan.modified + rebuild && b in kept ==> a.entry.path != b.entry.path
  {
    hide Moves, GoodMatch, StoredOk;
    assert scan[..|scan|] == scan;
    MovesGood(scan, stored, |scan|);
    SameMatches(scan, stored, plan);
    forall e, m | e in plan.added && (m in plan.modified || m in plan.same)
      ensures e.path != m.entry.path
    {
      AddedIff(scan, stored, plan, e);
      NotNone(scan, stored, plan.moved, m);
    }
    forall a, b | a in plan.modified && b in plan.same
      ensures a.entry.path != b.entry.path
    {
      if a.entry.path == b.entry.path { OneMatch(scan, stored, plan.moved, a, b); }
    }
    forall a, b | a in rebuild && b in kept
      ensures a.entry.path != b.entry.path
    {
      if a.entry.path == b.entry.path { OneMatch(scan, stored, plan.moved, a, b); }
    }
    EntriesApart(plan.modified, rebuild);
  }

  lemma EntriesApart(a: seq<Match>, b: seq<Match>)
    requires DistinctEntries(a) && DistinctEntries(b)
    requires forall x, y :: x in a && y in b ==> x.entry.path != y.entry.path
    ensures ScanOk(Entries(a + b))
  {
    var es, all := Entries(a + b), a + b;
    forall i, j | 0 <= i < j < |es|
      ensures es[i].path != es[j].path
    {
      assert i < |a| <= j ==> all[i] in a && all[j] in b;
    }
  }

  lemma NotNone(scan: seq<Scanned>, stored: Sources, moves: seq<Match>, m: Match)
    requires GoodMatch(stored, moves, m)
    ensures !NoneAt(stored, moves, m.entry.path)
  {
  }

  lemma OneMatch(scan: seq<Scanned>, stored: Sources, moves: seq<Match>, a: Match, b: Match)
    requires ScanOk(scan) && StoredOk(stored) && GoodMoves(scan, stored, moves)
    requires GoodMatch(stored, moves, a) && GoodMatch(stored, moves, b)
    requires a.entry in scan && b.entry in scan && a.entry.path == b.entry.path
    ensures a == b
  {
    hide StoredOk, GoodMove;
    WorkingUnique(scan, stored, moves, a.entry.path, a.source, b.source);
  }

  /** Everything change detection announces has been recorded once the phases are through without a gap. */
  lemma AnnouncedCovered(c: Ctx, plan: Plan, rows: map<SourceId, Source>, events: set<EventKey>, key: EventKey)
    requires ScanOk(c.scan) && StoredOk(c.t0.sources) && IsPlan(c.scan, c.t0.sources, plan)
    requires rows.Keys == Claimed(plan.moved)
    requires forall k :: 0 <= k < |plan.moved| ==> rows[plan.moved[k].source.id] == MovedRow(plan.moved[k])
    requires MovedKeys(plan.moved) <= events
    requires forall e :: e in plan.added ==> AddedKey(c.t0, c.env, e) in events
    requires forall m :: m in plan.modified ==> ModifiedKey(m.entry, m.source.id, Expected(m, rows)) in events
    requires plan.deleted <= c.t0.sources.Keys
    requires forall s :: s in plan.deleted ==> DeletedKey(s, c.t0.sources[s]) in events
    requires Detects(c.t0, c.t0.sources, c.scan, key)
    ensures key in events
  {
    hide Moves, StoredOk, MovedKeys, Sorted, AddedKey, ModifiedKey, AnnouncedKey, Allowed;
    var stored := c.t0.sources;
    if key in MovedKeys(plan.moved) {
    } else if DetectsAdded(c.t0, stored, c.scan, key) {
      var e :| e in c.scan && NoneAt(stored, plan.moved, e.path) && StableId(c.t0, e).Some? &&
               key == AnnouncedKey(c.t0, e, StableId(c.t0, e).value);
      AddedIff(c.scan, stored, plan, e);
      AddedAllowed(c, plan, e);
    } else if DetectsModified(stored, c.scan, key) {
      var e, s :| e in c.scan && s in stored && stored[s].path == e.path && stored[s].hash != e.hash &&
                  key == ModifiedKey(e, s, stored[s]);
      var m := ModifiedEntry(c.scan, stored, plan, e, s);
      ModAllowed(c, plan, rows, m);
    }
  }

  lemma ModifiedEntry(scan: seq<Scanned>, stored: Sources, plan: Plan, e: Scanned, s: SourceId) returns (m: Match)
    requires ScanOk(scan) && StoredOk(stored) && IsPlan(scan, stored, plan)
    requires e in scan && s in stored && stored[s].path == e.path && stored[s].hash != e.hash
    ensures m in plan.modified && m.entry == e && m.source.id == s
  {
    hide Moves, StoredOk, GoodMove;
    assert scan[..|scan|] == scan;
    MovesGood(scan, stored, |scan|);
    assert e.path in StoredPaths(stored);
    AddedIff(scan, stored, plan, e);
    m :| (m in plan.modified || m in plan.same) && m.entry == e;
    var w := Snapshot(s, stored[s]);
    StoredIsWorking(scan, stored, plan.moved, e, s);
    assert GoodMatch(stored, plan.moved, m);
    WorkingUnique(scan, stored, plan.moved, e.path, m.source, w);
  }

  lemma StoredIsWorking(scan: seq<Scanned>, stored: Sources, moves: seq<Match>, e: Scanned, s: SourceId)
    requires GoodMoves(scan, stored, moves) && e in scan && s in stored && stored[s].path == e.path
    ensures WorkingAt(stored, moves, e.path, Snapshot(s, stored[s]))
  {
    assert e.path in ScanPaths(scan);
    forall k | 0 <= k < |moves|
      ensures moves[k].source.id != s
    {
      assert GoodMove(scan, stored, moves[k]);
    }
  }

  // ---- the run ----

  /** How the unchanged files are divided between rebuilding and keeping. */
  ghost predicate Divided(same: seq<Match>, rebuild: seq<Match>, kept: seq<Match>, full: bool, env: Env) {
    && (forall m :: m in same <==> m in rebuild || m in kept)
    && (forall m :: m in kept ==> UpToDate(m, env))
    && (if full then kept == [] else forall m :: m in rebuild ==> !UpToDate(m, env))
    && DistinctEntries(rebuild)
  }

  lemma AddsReady(c: Ctx, plan: Plan, rebuild: seq<Match>, kept: seq<Match>, full: bool)
    requires CtxOk(c) && StoredOk(c.t0.sources) && IsPlan(c.scan, c.t0.sources, plan)
    requires Divided(plan.same, rebuild, kept, full, c.env)
    requires c.occupied == OccupiedPaths(c.t0, c.scan, c.env) && c.failing == FailingPaths(c.t0, c.scan, c.env, full)
    ensures ScanOk(plan.added)
    ensures forall k :: 0 <= k < |plan.added| ==>
      plan.added[k].path !in ScanPaths(Entries(kept)) && Ready(c, plan.added[k], None)
  {
    hide IsPlan, StoredOk, EnvOk, UuidsFresh, UpToDate, OccupiedPaths, FailingPaths, Ready;
    ListsApart(c.scan, c.t0.sources, plan, rebuild, kept, full, c.env);
    forall k | 0 <= k < |plan.added|
      ensures plan.added[k].path !in ScanPaths(Entries(kept)) && Ready(c, plan.added[k], None)
    {
      AddReady(c, plan, plan.added[k], full);
      var es := Entries(kept);
      forall i | 0 <= i < |es|
        ensures es[i].path != plan.added[k].path
      {
        assert kept[i] in kept;
      }
    }
  }

  lemma ModsReady(c: Ctx, plan: Plan, rows: map<SourceId, Source>, rebuild: seq<Match>, kept: seq<Match>, full: bool, sources: Sources)
    requires CtxOk(c) && StoredOk(c.t0.sources) && IsPlan(c.scan, c.t0.sources, plan)
    requires Divided(plan.same, rebuild, kept, full, c.env)
    requires c.occupied == OccupiedPaths(c.t0, c.scan, c.env) && c.failing == FailingPaths(c.t0, c.scan, c.env, full)
    requires rows.Keys == Claimed(plan.moved)
    requires forall k :: 0 <= k < |plan.moved| ==> rows[plan.moved[k].source.id] == MovedRow(plan.moved[k])
    requires SameOutside(AfterMoves(c.t0.sources, plan.moved), sources, ScanPaths(plan.added))
    ensures var mods := plan.modified + rebuild;
            && ScanOk(Entries(mods)) && Pending(sources, mods, rows, 0)
            && forall k :: 0 <= k < |mods| ==>
                 && mods[k].entry.path !in ScanPaths(Entries(kept)) + ScanPaths(plan.added)
                 && Ready(c, mods[k].entry, Some(Found(mods[k], rows)))
  {
    hide IsPlan, StoredOk, EnvOk, UuidsFresh, UpToDate, Expected, AfterMoves, SameOutside, Expects, Claimed, OccupiedPaths,
         FailingPaths, Ready, Found;
    ListsApart(c.scan, c.t0.sources, plan, rebuild, kept, full, c.env);
    var mods, es := plan.modified + rebuild, Entries(kept);
    forall k | 0 <= k < |mods|
      ensures mods[k].entry.path !in ScanPaths(es) + ScanPaths(plan.added)
      ensures Ready(c, mods[k].entry, Some(Found(mods[k], rows))) && Expects(sources, mods[k], rows)
    {
      var m := mods[k];
      assert m in plan.modified || m in rebuild;
      ModReady(c, plan, rows, m, full);
      forall i | 0 <= i < |es|
        ensures es[i].path != m.entry.path
      {
        assert kept[i] in kept && m in mods;
      }
      ExpectsOutside(AfterMoves(c.t0.sources, plan.moved), sources, ScanPaths(plan.added), m, rows);
    }
  }

  lemma ExpectsOutside(before: Sources, after: Sources, paths: set<Path>, m: Match, rows: map<SourceId, Source>)
    requires SameOutside(before, after, paths) && Expects(before, m, rows) && m.entry.path !in paths
    ensures Expects(after, m, rows)
  {
  }

  lemma DeletesReady(c: Ctx, plan: Plan)
    requires IsPlan(c.scan, c.t0.sources, plan)
    ensures plan.deleted <= c.t0.sources.Keys
    ensures forall s :: s in plan.deleted ==> Allowed(c.t0, c.scan, DeletedKey(s, c.t0.sources[s]))
  {
    hide Moves, Sorted;
    forall s | s in plan.deleted
      ensures Allowed(c.t0, c.scan, DeletedKey(s, c.t0.sources[s]))
    {
      assert DetectsDeleted(c.t0.sources, c.scan, DeletedKey(s, c.t0.sources[s]));
    }
  }

  /** Once everything is processed and deleted, the scan is served exactly where nothing failed or was blocked. */
  lemma Finished(c: Ctx, sources: Sources, y: Tally)
    requires Progress(sources, c.scan, c.t0.sources, c.env, y.done, y.failed, y.blocked, {})
    requires ScanPaths(c.scan) == y.done && y.failed == {}
    ensures Settled(sources, c.scan, c.env) <==> y.blocked == {}
  {
    hide SettledAt;
    forall e | e in c.scan
      ensures e.path in y.done
    {
      PathsOfScan(c.scan, e);
    }
    if p :| p in y.blocked {
      var i :| 0 <= i < |c.scan| && c.scan[i].path == p;
      assert c.scan[i] in c.scan;
    }
  }

  /**
   What a run leaves, whatever failed: only sources on scanned paths; a file that fails is served exactly if it was once the
   moves were done, and any other exactly if its version was not held by an unfinished candidate.
   */
  ghost predicate Serves(t: Tables, scan: seq<Scanned>, env: Env, full: bool, sources: Sources) {
    && (forall s :: s in sources ==> sources[s].path in ScanPaths(scan))
    && forall e :: e in scan ==>
         (SettledAt(sources, env, e) <==>
            if e.path in FailingPaths(t, scan, env, full) then SettledAt(AfterMoves(t.sources, Moves(scan, t.sources, |scan|)), env, e)
            else e.path !in OccupiedPaths(t, scan, env))
  }

  /** Deleting sources that are off the scan changes nothing for the files. */
  lemma Remaining(c: Ctx, before: Sources, after: Sources, y: Tally)
    requires AsMoved(c.moved, before, c.scan, c.env, y.done, y.failed) && after == before - c.remaining
    requires Progress(before, c.scan, c.t0.sources, c.env, y.done, y.failed, y.blocked, c.remaining)
    ensures AsMoved(c.moved, after, c.scan, c.env, y.done, y.failed)
  {
    hide SettledAt;
    forall e | e in c.scan
      ensures SettledAt(after, c.env, e) <==> SettledAt(before, c.env, e)
    {
      PathsOfScan(c.scan, e);
      DeletedAllElsewhere(before, after, c.remaining, c.env, e);
    }
  }

  lemma DeletedAllElsewhere(before: Sources, after: Sources, gone: set<SourceId>, env: Env, e: Scanned)
    requires after == before - gone && forall s :: s in gone && s in before ==> before[s].path != e.path
    ensures SettledAt(after, env, e) <==> SettledAt(before, env, e)
  {
    if SettledAt(before, env, e) {
      var s :| s in before && before[s].path == e.path && before[s].hash == e.hash && before[s].active == Some(VersionFor(env, e));
      assert s in after;
    }
    if SettledAt(after, env, e) {
      var s :| s in after && after[s].path == e.path && after[s].hash == e.hash && after[s].active == Some(VersionFor(env, e));
      assert s in before;
    }
  }

  lemma ServedFinally(c: Ctx, plan: Plan, full: bool, sources: Sources, y: Tally)
    requires Progress(sources, c.scan, c.t0.sources, c.env, y.done, y.failed, y.blocked, {})
    requires AsMoved(c.moved, sources, c.scan, c.env, y.done, y.failed) && ScanPaths(c.scan) == y.done
    requires c.moved == AfterMoves(c.t0.sources, plan.moved) && IsPlan(c.scan, c.t0.sources, plan)
    requires c.occupied == OccupiedPaths(c.t0, c.scan, c.env) && c.failing == FailingPaths(c.t0, c.scan, c.env, full)
    requires y.failed == c.failing && y.blocked == c.occupied - c.failing
    ensures Serves(c.t0, c.scan, c.env, full, sources)
  {
    hide SettledAt, OccupiedPaths, FailingPaths, AfterMoves, Moves, Sorted;
    forall e | e in c.scan
      ensures e.path in y.done
    {
      PathsOfScan(c.scan, e);
    }
  }

  lemma ProcessedScanned(scan: seq<Scanned>, stored: Sources, plan: Plan, rebuild: seq<Match>, kept: seq<Match>)
    requires ScanOk(scan) && IsPlan(scan, stored, plan) && (forall m :: m in plan.same <==> m in rebuild || m in kept)
    ensures ScanPaths(scan) == ScanPaths(Entries(kept)) + ScanPaths(plan.added) + ScanPaths(Entries(plan.modified + rebuild))
  {
    AllProcessed(scan, stored, plan, rebuild, kept);
    AddedScanned(scan, stored, plan);
    SameMatches(scan, stored, plan);
    hide IsPlan, GoodMatch;
    assert forall e :: e in scan ==> e.path in ScanPaths(scan);
    EntriesWithin(kept, scan);
    EntriesWithin(plan.modified + rebuild, scan);
  }

  lemma EntriesWithin(mods: seq<Match>, scan: seq<Scanned>)
    requires forall m :: m in mods ==> m.entry in scan
    ensures ScanPaths(Entries(mods)) <= ScanPaths(scan)
  {
    var es := Entries(mods);
    forall i | 0 <= i < |es|
      ensures es[i].path in ScanPaths(scan)
    {
      assert mods[i] in mods;
      PathsOfScan(scan, mods[i].entry);
    }
  }

  /** The four phases, in order: moves, added files, changed or rebuilt files, deletions. */
  method Execute(db: Store, scan: seq<Scanned>, plan: Plan, rebuild: seq<Match>, env: Env,
                 ghost kept: seq<Match>, ghost full: bool, ghost build: Build)
    returns (moved: int, deleted: int, built: int, events: nat, errors: int, ghost y: Tally)
    requires ScanOk(scan) && EnvOk(env, build) && Consistent(db.View(), build) && UuidsFresh(env, scan, db.sources)
    requires IsPlan(scan, db.sources, plan) && Divided(plan.same, rebuild, kept, full, env)
    modifies db
    ensures Consistent(db.View(), build) && moved == |plan.moved| && deleted == |plan.deleted|
    ensures errors == |y.failed| && y.failed == FailingPaths(old(db.View()), scan, env, full)
    ensures y.blocked == OccupiedPaths(old(db.View()), scan, env) - y.failed
    ensures Serves(old(db.View()), scan, env, full, db.sources)
    ensures errors == 0 ==> (Settled(db.sources, scan, env) <==> y.blocked == {})
    ensures EventsOk(old(db.View()), scan, old(db.events), db.events)
    ensures forall s :: s in db.sources && s !in old(db.sources) ==> IdFrom(env, scan, ScanPaths(scan), s)
    ensures Count(db.events) == Count(old(db.events)) + events
    ensures Clean(y) ==> forall key :: Detects(old(db.View()), old(db.sources), scan, key) ==> key in db.events
    ensures Clean(y) && !full ==> built == |plan.added| + |plan.modified + rebuild|
    ensures plan.moved == [] && plan.added == [] && plan.modified + rebuild == [] && plan.deleted == {} ==>
              db.View() == old(db.View()) && built == 0 && events == 0 && errors == 0
  {
    hide Consistent, IsPlan, EnvOk, UuidsFresh, OccupiedPaths, FailingPaths, Ready, RunInv, TallyOk, Progress, NewIds,
         EventsOk, Allowed, Detects, Settled, ScanOk, Serves, AsMoved,
         Count, AfterMoves, Divided, SameOutside, Pending, Free, AddedKey, ModifiedKey, DeletedKey, MovedKeys, Claimed, GoodMoves,
         StoredOk, ScanPaths, Entries, Expected, IdFrom, Unserved;
    ghost var t0 := db.View();
    ConsistentPaths(t0, build);
    var stored := db.sources;
    ghost var c := Ctx(t0, scan, env, plan.deleted, t0.events, OccupiedPaths(t0, scan, env),
                          FailingPaths(t0, scan, env, full), AfterMoves(stored, plan.moved), build);
    PlannedMoves(scan, stored, plan);
    var rows, m, n0 := MovePhase(db, scan, plan.moved, build);
    NoMoves(stored, plan.moved);
    KeptWithin(plan.same, rebuild, kept, full, env);
    RunStarts(c, db.View(), plan, kept, full);
    ghost var y0 := Tally(ScanPaths(Entries(kept)), {}, {});
    AddsReady(c, plan, rebuild, kept, full);
    ghost var afterMoves := db.events;
    var e1, b1, n1, y1 := AddPhase(db, plan.added, env, c, y0);
    ghost var afterAdds := db.events;
    ModsReady(c, plan, rows, rebuild, kept, full, db.sources);
    var e2, b2, n2, y2 := ModifyPhase(db, plan.modified + rebuild, rows, env, c, y1, e1);
    ghost var afterMods := db.events;
    DeletesReady(c, plan);
    RunParts(c, db.View(), y2, e2);
    NewIdsFrom(t0.sources, db.sources, env, scan, y2.done);
    ghost var afterBuilds := db.sources;
    var d, n3 := DeletePhase(db, plan.deleted, stored, c, y2);
    y := y2;
    moved, deleted, built, events, errors := m, d, b1 + b2, n0 + n1 + n2 + n3, e2;
    if !full { AllUnserved(c, plan, rebuild, kept, rows, |plan.modified + rebuild|); }
    assert (plan.modified + rebuild)[..|plan.modified + rebuild|] == plan.modified + rebuild;
    DividedAll(plan.same, rebuild, kept, full, env);
    ProcessedScanned(scan, stored, plan, rebuild, kept);
    OccupiedScanned(t0, scan, env, full);
    TallyFinal(c, y, errors);
    Remaining(c, afterBuilds, db.sources, y);
    ServedFinally(c, plan, full, db.sources, y);
    if errors == 0 { Finished(c, db.sources, y); }
    if Clean(y) {
      forall key | Detects(t0, stored, scan, key)
        ensures key in db.events
      {
        Covered(c, plan, rebuild, rows, db.events, key);
      }
    }
  }

  lemma RunParts(c: Ctx, t: Tables, y: Tally, errors: int)
    requires RunInv(c, t, y, errors)
    ensures Consistent(t, c.build) && EventsOk(c.t0, c.scan, c.before, t.events) && TallyOk(c, y, errors)
    ensures Progress(t.sources, c.scan, c.t0.sources, c.env, y.done, y.failed, y.blocked, c.remaining)
    ensures NewIds(c.t0.sources, t.sources, c.env, c.scan, y.done)
    ensures AsMoved(c.moved, t.sources, c.scan, c.env, y.done, y.failed)
  {
    hide Consistent, Progress, NewIds, EventsOk, TallyOk, Undisturbed, AsMoved;
  }

  lemma TallyFinal(c: Ctx, y: Tally, errors: int)
    requires TallyOk(c, y, errors) && c.occupied <= y.done && c.failing <= y.done
    ensures y.failed == c.failing && errors == |y.failed|
    ensures errors == 0 <==> y.failed == {}
    ensures y.blocked == c.occupied - c.failing
  {
  }

  /** In an incremental run, no file that is built was served already. */
  lemma {:induction false} AllUnserved(c: Ctx, plan: Plan, rebuild: seq<Match>, kept: seq<Match>, rows: map<SourceId, Source>, n: nat)
    requires ScanOk(c.scan) && IsPlan(c.scan, c.t0.sources, plan) && Divided(plan.same, rebuild, kept, false, c.env)
    requires rows.Keys == Claimed(plan.moved)
    requires forall k :: 0 <= k < |plan.moved| ==> rows[plan.moved[k].source.id] == MovedRow(plan.moved[k])
    requires n <= |plan.modified + rebuild|
    ensures Unserved((plan.modified + rebuild)[..n], rows, c.env) == n
  {
    hide IsPlan, Claimed, Expected, Allowed, Expects, ModifiedKey, AfterMoves, Unserved;
    var mods := plan.modified + rebuild;
    if n == 0 {
      assert mods[..0] == [];
      NoneUnserved(rows, c.env);
    } else {
      AllUnserved(c, plan, rebuild, kept, rows, n - 1);
      UnservedStep(mods, rows, c.env, n - 1);
      var m := mods[n - 1];
      assert m in plan.modified || m in rebuild;
      ModAllowed(c, plan, rows, m);
    }
  }

  lemma OccupiedScanned(t: Tables, scan: seq<Scanned>, env: Env, full: bool)
    ensures OccupiedPaths(t, scan, env) <= ScanPaths(scan) && FailingPaths(t, scan, env, full) <= ScanPaths(scan)
  {
    hide Occupied, Fails;
  }

  lemma NewIdsFrom(first: Sources, sources: Sources, env: Env, scan: seq<Scanned>, paths: set<Path>)
    requires NewIds(first, sources, env, scan, paths)
    ensures forall s :: s in sources && s !in first ==> IdFrom(env, scan, paths, s)
  {
  }

  lemma PlannedMoves(scan: seq<Scanned>, stored: Sources, plan: Plan)
    requires ScanOk(scan) && IsPlan(scan, stored, plan)
    ensures GoodMoves(scan, stored, plan.moved)
  {
    MovesGood(scan, stored, |scan|);
  }

  lemma NoMoves(stored: Sources, moves: seq<Match>)
    ensures moves == [] ==> AfterMoves(stored, moves) == stored && MovedKeys(moves) == {}
  {
  }

  lemma DividedAll(same: seq<Match>, rebuild: seq<Match>, kept: seq<Match>, full: bool, env: Env)
    requires Divided(same, rebuild, kept, full, env)
    ensures forall m :: m in same <==> m in rebuild || m in kept
  {
  }

  lemma KeptWithin(same: seq<Match>, rebuild: seq<Match>, kept: seq<Match>, full: bool, env: Env)
    requires Divided(same, rebuild, kept, full, env)
    ensures (full ==> kept == []) && forall m :: m in kept ==> m in same && UpToDate(m, env)
  {
  }

  lemma Covered(c: Ctx, plan: Plan, rebuild: seq<Match>, rows: map<SourceId, Source>, events: set<EventKey>, key: EventKey)
    requires ScanOk(c.scan) && StoredOk(c.t0.sources) && IsPlan(c.scan, c.t0.sources, plan)
    requires rows.Keys == Claimed(plan.moved)
    requires forall k :: 0 <= k < |plan.moved| ==> rows[plan.moved[k].source.id] == MovedRow(plan.moved[k])
    requires MovedKeys(plan.moved) <= events
    requires forall k :: 0 <= k < |plan.added| ==> AddedKey(c.t0, c.env, plan.added[k]) in events
    requires var mods := plan.modified + rebuild;
             forall k :: 0 <= k < |mods| && Expected(mods[k], rows).hash != mods[k].entry.hash ==>
               ModifiedKey(mods[k].entry, mods[k].source.id, Expected(mods[k], rows)) in events
    requires plan.deleted <= c.t0.sources.Keys
    requires forall s :: s in plan.deleted ==> DeletedKey(s, c.t0.sources[s]) in events
    requires Detects(c.t0, c.t0.sources, c.scan, key)
    ensures key in events
  {
    hide IsPlan, StoredOk, MovedKeys, AddedKey, ModifiedKey, DeletedKey, Detects, Expected, Claimed, Allowed, Expects, AfterMoves;
    forall m | m in plan.modified
      ensures ModifiedKey(m.entry, m.source.id, Expected(m, rows)) in events
    {
      ModAllowed(c, plan, rows, m);
      var k :| 0 <= k < |plan.modified| && plan.modified[k] == m;
      assert (plan.modified + rebuild)[k] == m;
    }
    AnnouncedCovered(c, plan, rows, events, key);
  }
}
