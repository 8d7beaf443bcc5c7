/**
 A whole reconciliation run, a second one after it, and change detection before it.
 */
module Convergence {
  import opened Wrappers
  import K = KnowledgeMachine
  import opened KnowledgeTables
  import opened KnowledgeStore
  import opened ReconcileDiff
  import opened ReconcilePlan
  import opened Building
  import opened ReconcileRun
  import opened Reconciliation

  // ---- stale candidates ----

  function Swept(t: Tables, env: Env): Tables {
    DiscardOrphans(t, env.run, env.now, ORPHAN_BUILD_SECONDS)
  }

  lemma SweepKeeps(t: Tables, build: Build, env: Env)
    requires Consistent(t, build)
    ensures Consistent(Swept(t, env), build)
    ensures Swept(t, env).sources == t.sources && Swept(t, env).tombstones == t.tombstones && Swept(t, env).events == t.events
  {
    hide Consistent;
    RemoveKeeps(t, build, Orphans(t, env.run, env.now - ORPHAN_BUILD_SECONDS));
  }

  /** No scanned file waits for a version that a candidate younger than an hour still holds. */
  ghost predicate Unblocked(t: Tables, scan: seq<Scanned>, env: Env) {
    OccupiedPaths(Swept(t, env), scan, env) == {}
  }

  /** In particular when every unfinished candidate is old enough to be swept. */
  lemma StaleUnblocked(t: Tables, scan: seq<Scanned>, env: Env)
    requires forall k :: k in t.versions && !t.versions[k].ready ==>
               t.versions[k].builtBy != Some(env.run) && t.versions[k].heartbeat < env.now - ORPHAN_BUILD_SECONDS
    ensures Unblocked(t, scan, env)
  {
    hide Target;
    forall e, id
      ensures !Leftover(Swept(t, env), env, e, id)
    {
    }
  }

  /**
   A crashed run's young candidate for the very bytes on disk keeps the next run from serving them: from the empty index, a
   run claims the file, begins its version and crashes.
   */
  lemma YoungCandidateBlocks(e: Scanned, env: Env, build: Build, crashed: RunId) returns (t: Tables, steps: seq<K.Step>)
    requires crashed != env.run
    ensures t == K.Exec(K.START, build, steps).t && |steps| == 3 && steps[2] == K.Crash(crashed)
    ensures Consistent(t, build) && !Unblocked(t, [e], env) && !Settled(t.sources, [e], env)
    ensures forall k :: k in t.versions ==> t.versions[k].builtBy == Some(crashed) && t.versions[k].heartbeat == env.now
  {
    hide Moves, K.Exec;
    var id := PathId(e.path);
    var key := VersionKey(id, VersionFor(env, e));
    t := Tables(map[id := Source(e.path, e.media, e.size, e.mtime, e.hash, None, 0)],
                map[key := VersionRow(e.hash, key.version.identity, false, 0, Some(crashed), env.now)], map[], map[], {});
    steps := ClaimedAndCrashed(e, env, build, crashed, t);
    var scan, swept := [e], Swept(t, env);
    assert key in swept.versions && Leftover(swept, env, e, id);
    assert e in scan && ScanPaths(scan) == {e.path};
    MovesGood(scan, t.sources, 1);
    var moves := Moves(scan, t.sources, 1);
    assert swept.sources == t.sources && t.sources[id].path in StoredPaths(t.sources);
    assert |moves| == 0 || GoodMove(scan, t.sources, moves[0]);
    assert WorkingAt(t.sources, moves, e.path, Snapshot(id, t.sources[id]));
    assert Target(swept, scan, env, e, id);
    assert e.path in OccupiedPaths(swept, scan, env);
    assert !SettledAt(t.sources, env, e);
  }

  lemma ClaimedAndCrashed(e: Scanned, env: Env, build: Build, crashed: RunId, t: Tables) returns (steps: seq<K.Step>)
    requires var id, v := PathId(e.path), VersionFor(env, e);
             t == Tables(map[id := Source(e.path, e.media, e.size, e.mtime, e.hash, None, 0)],
                         map[VersionKey(id, v) := VersionRow(e.hash, v.identity, false, 0, Some(crashed), env.now)], map[], map[], {})
    ensures t == K.Exec(K.START, build, steps).t && |steps| == 3 && steps[2] == K.Crash(crashed)
  {
    var id, row := PathId(e.path), Source(e.path, e.media, e.size, e.mtime, e.hash, None, 0);
    var claim := K.Insert(id, e.path, e.media, e.size, e.mtime, e.hash);
    var begin := K.Begin(crashed, VersionKey(id, VersionFor(env, e)), row, env.now);
    steps := [claim, begin, K.Crash(crashed)];
    ThreeSteps(build, claim, begin, K.Crash(crashed));
    var one := K.Next(K.START, build, claim);
    FirstClaim(build, id, e.path, e.media, e.size, e.mtime, e.hash);
    FirstBegin(one, build, crashed, VersionKey(id, VersionFor(env, e)), row, env.now);
    hide K.Exec, K.Next, VersionFor;
    assert K.Next(one, build, begin).t.versions == t.versions;
    CrashKeeps(K.Next(one, build, begin), build, crashed);
  }

  lemma ThreeSteps(build: Build, a: K.Step, b: K.Step, c: K.Step)
    ensures K.Exec(K.START, build, [a, b, c]) == K.Next(K.Next(K.Next(K.START, build, a), build, b), build, c)
  {
    hide K.Next;
    assert [a, b, c][..2] == [a, b] && [a, b][..1] == [a] && [a][..0] == [];
    assert K.Exec(K.START, build, [a]) == K.Next(K.START, build, a);
    assert K.Exec(K.START, build, [a, b]) == K.Next(K.Next(K.START, build, a), build, b);
  }

  lemma FirstClaim(build: Build, id: SourceId, path: Path, media: string, size: int, mtime: int, hash: Hash)
    ensures K.Next(K.START, build, K.Insert(id, path, media, size, mtime, hash)) ==
              K.World(EMPTY_TABLES.(sources := map[id := Source(path, media, size, mtime, hash, None, 0)]), map[])
  {
  }

  lemma FirstBegin(w: K.World, build: Build, run: RunId, key: VersionKey, row: Source, now: int)
    requires w.flights == map[] && w.t.versions == map[]
    ensures K.Next(w, build, K.Begin(run, key, row, now)).t ==
              w.t.(versions := map[key := VersionRow(key.version.hash, key.version.identity, false, 0, Some(run), now)])
  {
  }

  lemma CrashKeeps(w: K.World, build: Build, run: RunId)
    ensures K.Next(w, build, K.Crash(run)).t == w.t
  {
  }

  // ---- a settled index ----

  lemma SettledPlan(scan: seq<Scanned>, stored: Sources, plan: Plan, env: Env)
    requires ScanOk(scan) && StoredOk(stored) && IsPlan(scan, stored, plan) && Settled(stored, scan, env)
    ensures plan.moved == [] && plan.added == [] && plan.modified == [] && plan.deleted == {}
    ensures forall m :: m in plan.same ==> UpToDate(m, env)
  {
    hide Moves, StoredOk, Sorted;
    MovesGood(scan, stored, |scan|);
    if plan.moved != [] {
      assert GoodMove(scan, stored, plan.moved[0]);
      HasSource(stored, scan, env, plan.moved[0].entry);
    }
    assert Vanished(scan, stored) == {};
    SettledLists(scan, stored, plan, env);
  }

  lemma HasSource(stored: Sources, scan: seq<Scanned>, env: Env, e: Scanned)
    requires Settled(stored, scan, env) && e in scan
    ensures e.path in StoredPaths(stored)
  {
    assert SettledAt(stored, env, e);
  }

  lemma SettledLists(scan: seq<Scanned>, stored: Sources, plan: Plan, env: Env)
    requires ScanOk(scan) && StoredOk(stored) && IsPlan(scan, stored, plan) && Settled(stored, scan, env) && plan.moved == []
    ensures plan.added == [] && plan.modified == []
    ensures forall m :: m in plan.same ==> UpToDate(m, env)
  {
    hide Moves, StoredOk, IsPlan, Settled;
    if plan.added != [] {
      var e := plan.added[0];
      AddedScanned(scan, stored, plan);
      AddedIff(scan, stored, plan, e);
      HasSource(stored, scan, env, e);
    }
    SameMatches(scan, stored, plan);
    forall m | m in plan.modified || m in plan.same
      ensures m.source.row.hash == m.entry.hash && UpToDate(m, env)
    {
      SettledMatch(scan, stored, env, m);
    }
    FirstIn(plan.modified);
  }

  lemma SettledMatch(scan: seq<Scanned>, stored: Sources, env: Env, m: Match)
    requires StoredOk(stored) && Settled(stored, scan, env) && m.entry in scan && GoodMatch(stored, [], m)
    ensures m.source.row.hash == m.entry.hash && UpToDate(m, env)
  {
    assert SettledAt(stored, env, m.entry);
    var s :| s in stored && stored[s].path == m.entry.path && stored[s].hash == m.entry.hash &&
             stored[s].active == Some(VersionFor(env, m.entry));
    OnePath(stored, s, m.source.id);
  }

  // ---- the run ----

  /**
   `reconcile`. Errors of the scan itself are not counted here. An error-free run leaves exactly the scanned files
   served if and only if no younger candidate stood in the way; it announces what change detection would have
   announced, and on a settled index it does nothing.
   */
  method Reconcile(db: Store, scan: seq<Scanned>, authorized: set<string>, full: bool, env: Env, ghost build: Build)
    returns (report: Report)
    requires Consistent(db.View(), build) && EnvOk(env, build) && ScanOk(scan) && UuidsFresh(env, scan, db.sources)
    requires forall i :: 0 <= i < |scan| ==> scan[i].path.root in authorized
    modifies db
    ensures Consistent(db.View(), build)
    ensures report.scanned == |scan| == report.added + report.modified + report.same
    ensures var moves, gone := Moves(scan, old(db.sources), |scan|), Vanished(scan, old(db.sources));
            && report.moved == |moves| && report.deleted == |gone - Claimed(moves)|
            && report.moved + report.added + (|old(db.sources)| - |gone|) == |scan|
            && |old(db.sources)| + report.added == report.scanned + report.deleted
    ensures report.errors == |FailingPaths(Swept(old(db.View()), env), scan, env, full)|
    ensures (forall e :: e in scan ==> Buildable(env, e)) ==> report.errors == 0
    ensures Serves(Swept(old(db.View()), env), scan, env, full, db.sources)
    ensures report.errors == 0 && Unblocked(old(db.View()), scan, env) && !full ==> report.built == report.added + report.modified
    ensures report.errors == 0 ==> (Settled(db.sources, scan, env) <==> Unblocked(old(db.View()), scan, env))
    ensures EventsOk(old(db.View()), scan, old(db.events), db.events)
    ensures Count(db.events) == Count(old(db.events)) + report.events
    ensures forall s :: s in db.sources && s !in old(db.sources) ==> IdFrom(env, scan, ScanPaths(scan), s)
    ensures report.errors == 0 && Unblocked(old(db.View()), scan, env) ==>
              forall key :: Detects(old(db.View()), old(db.sources), scan, key) ==> key in db.events
    ensures !full && Settled(old(db.sources), scan, env) ==>
              && report == Report(|scan|, 0, 0, 0, 0, |scan|, 0, 0, 0)
              && db.View() == Swept(old(db.View()), env)
    ensures !full && report.added == 0 && report.modified == 0 && report.moved == 0 && report.deleted == 0 ==>
              Settled(old(db.sources), scan, env)
  {
    hide Consistent, EnvOk, ScanOk, UuidsFresh, IsPlan, EventsOk, Detects, Settled, Count, StoredOk, OccupiedPaths, FailingPaths,
         DistinctEntries, Moves, Buildable, Serves, Claimed, Vanished;
    ghost var t0 := db.View();
    SweepKeeps(t0, build, env);
    db.DiscardOrphans(env.run, env.now, ORPHAN_BUILD_SECONDS);
    ghost var t1 := db.View();
    var stored := db.sources;
    ConsistentPaths(t1, build);
    var plan := Diff(scan, stored, authorized);
    SameMatches(scan, stored, plan);
    var rebuild, same, kept := SelectRebuilds(db, plan.same, full, env, build);
    var moved, deleted, built, events, errors, y := Execute(db, scan, plan, rebuild, env, kept, full, build);
    report := Report(|scan|, |plan.added|, |plan.modified + rebuild|, moved, deleted, same, built, events, errors);
    PlanConserves(scan, stored, plan);
    PlanSizes(scan, stored, plan);
    BuildableSucceeds(t1, scan, env, full);
    if errors == 0 && Unblocked(t0, scan, env) { assert Clean(y); }
    if !full && |plan.added| == 0 && |plan.modified + rebuild| == 0 && moved == 0 && deleted == 0 {
      NothingPlanned(scan, stored, plan, rebuild, kept, env);
    }
    EventsFromSources(t0, t1, scan, t0.events, db.events);
    DetectsFromSources(t0, t1, scan);
    if !full && Settled(stored, scan, env) {
      SettledPlan(scan, stored, plan, env);
      AllKept(plan.same, rebuild, kept, env);
      assert db.View() == t1;
    }
  }

  /** Errors come only from files that cannot be read or built. */
  lemma BuildableSucceeds(t: Tables, scan: seq<Scanned>, env: Env, full: bool)
    ensures (forall e :: e in scan ==> Buildable(env, e)) ==> FailingPaths(t, scan, env, full) == {}
  {
    hide SettledAt, Occupied;
  }

  /** A plan without anything to do means that everything scanned is served and nothing else is stored. */
  lemma NothingPlanned(scan: seq<Scanned>, stored: Sources, plan: Plan, rebuild: seq<Match>, kept: seq<Match>, env: Env)
    requires ScanOk(scan) && IsPlan(scan, stored, plan) && (forall m :: m in plan.same <==> m in rebuild || m in kept)
    requires forall m :: m in kept ==> UpToDate(m, env)
    requires plan.moved == [] && plan.added == [] && plan.modified + rebuild == [] && plan.deleted == {}
    ensures Settled(stored, scan, env)
  {
    hide Moves, GoodMatch, NoneAt, UpToDate, SettledAt;
    assert scan[..|scan|] == scan;
    NoMoves(stored, plan.moved);
    assert plan.modified == [] && rebuild == [];
    forall e | e in scan
      ensures SettledAt(stored, env, e)
    {
      var m :| m in plan.same && m.entry == e;
      KeptSettled(scan, stored, plan, env, m);
    }
    assert Claimed(plan.moved) == {};
    forall s | s in stored
      ensures stored[s].path in ScanPaths(scan)
    {
      assert s !in Vanished(scan, stored) - Claimed(plan.moved);
    }
  }

  lemma PlanSizes(scan: seq<Scanned>, stored: Sources, plan: Plan)
    requires IsPlan(scan, stored, plan)
    ensures |plan.added| + |plan.modified| + |plan.same| == |scan| && plan.moved == Moves(scan, stored, |scan|)
    ensures plan.deleted == Vanished(scan, stored) - Claimed(plan.moved)
  {
    hide Moves;
  }

  /**
   Whether a run that plans with one embedding identity and builds with another does anything on a settled index: every file
   is found unchanged, and each is to be rebuilt unless the two are equal. An embedder that has yet to learn its dimension
   differs from the one that built the index.
   */
  lemma OtherEmbedderRebuildsAll(scan: seq<Scanned>, stored: Sources, plan: Plan, env: Env, seen: Embedding)
    requires ScanOk(scan) && StoredOk(stored) && IsPlan(scan, stored, plan) && Settled(stored, scan, env)
    ensures |plan.same| == |scan| && plan.moved == [] && plan.added == [] && plan.modified == [] && plan.deleted == {}
    ensures forall m :: m in plan.same ==> (UpToDate(m, env.(embedding := seen)) <==> seen == env.embedding)
  {
    hide IsPlan, Settled, StoredOk;
    SettledPlan(scan, stored, plan, env);
    PlanSizes(scan, stored, plan);
  }

  lemma FirstIn(s: seq<Match>)
    ensures s != [] ==> s[0] in s
  {
  }

  lemma AllKept(same: seq<Match>, rebuild: seq<Match>, kept: seq<Match>, env: Env)
    requires forall m :: m in same <==> m in rebuild || m in kept
    requires forall m :: m in same ==> UpToDate(m, env)
    requires forall m :: m in rebuild ==> !UpToDate(m, env)
    ensures rebuild == []
  {
    FirstIn(rebuild);
  }

  lemma DetectsFromSources(t: Tables, t': Tables, scan: seq<Scanned>)
    requires t'.sources == t.sources && t'.tombstones == t.tombstones
    ensures forall key :: Detects(t', t.sources, scan, key) <==> Detects(t, t.sources, scan, key)
  {
    hide Moves, MovedKeys, DetectsDeleted, DetectsModified;
    forall key
      ensures DetectsAdded(t', t.sources, scan, key) <==> DetectsAdded(t, t.sources, scan, key)
    {
      assert forall e :: StableId(t', e) == StableId(t, e);
      assert forall e, id :: AnnouncedKey(t', e, id) == AnnouncedKey(t, e, id);
    }
  }

  lemma EventsFromSources(t: Tables, t': Tables, scan: seq<Scanned>, before: set<EventKey>, events: set<EventKey>)
    requires t'.sources == t.sources && t'.tombstones == t.tombstones && EventsOk(t', scan, before, events)
    ensures EventsOk(t, scan, before, events)
  {
    hide Detects;
    DetectsFromSources(t, t', scan);
    assert forall key :: Allowed(t', scan, key) ==> Allowed(t, scan, key);
  }

  /**
   After an error-free run, a second one over the same files finds nothing to do if and only if the first was not blocked by
   a younger candidate.
   */
  method ReconcileTwice(db: Store, scan: seq<Scanned>, authorized: set<string>, full: bool, first: Env, second: Env, ghost build: Build)
    returns (one: Report, two: Report)
    requires Consistent(db.View(), build) && EnvOk(first, build) && EnvOk(second, build) && ScanOk(scan)
    requires UuidsFresh(first, scan, db.sources) && UuidsFresh(second, scan, db.sources)
    requires forall a, b :: a in scan && b in scan ==> first.uuid(a.path) != second.uuid(b.path)
    requires first.embedding == second.embedding
    requires forall i :: 0 <= i < |scan| ==> scan[i].path.root in authorized
    modifies db
    ensures one.errors == 0 ==>
              (two == Report(|scan|, 0, 0, 0, 0, |scan|, 0, 0, 0) <==> Unblocked(old(db.View()), scan, first))
    ensures Count(db.events) == Count(old(db.events)) + one.events + two.events
  {
    hide Consistent, EnvOk, ScanOk, UuidsFresh, EventsOk, Detects, Settled, Count, Unblocked, IdFrom;
    one := Reconcile(db, scan, authorized, full, first, build);
    SettledSame(db.sources, scan, first, second);
    StillFresh(old(db.sources), db.sources, scan, first, second);
    two := Reconcile(db, scan, authorized, false, second, build);
  }

  lemma StillFresh(before: Sources, after: Sources, scan: seq<Scanned>, first: Env, second: Env)
    requires UuidsFresh(second, scan, before)
    requires forall a, b :: a in scan && b in scan ==> first.uuid(a.path) != second.uuid(b.path)
    requires forall s :: s in after && s !in before ==> IdFrom(first, scan, ScanPaths(scan), s)
    ensures UuidsFresh(second, scan, after)
  {
    forall e | e in scan
      ensures FreshId(second.uuid(e.path)) !in after
    {
      forall s | s in after && s !in before
        ensures s != FreshId(second.uuid(e.path))
      {
        var x :| x in scan && x.path in ScanPaths(scan) && IdOf(first, x, s);
      }
    }
  }

  lemma SettledSame(sources: Sources, scan: seq<Scanned>, first: Env, second: Env)
    requires first.embedding == second.embedding
    ensures Settled(sources, scan, first) <==> Settled(sources, scan, second)
  {
    assert forall e :: VersionFor(first, e) == VersionFor(second, e);
    assert forall e :: SettledAt(sources, first, e) <==> SettledAt(sources, second, e);
  }

  // ---- change detection ----

  function InRoots(sources: Sources, authorized: set<string>): Sources {
    map s | s in sources && sources[s].path.root in authorized :: sources[s]
  }

  function AnnouncedKeys(t: Tables, added: seq<Scanned>): set<EventKey> {
    set e | e in added && StableId(t, e).Some? :: AnnouncedKey(t, e, StableId(t, e).value)
  }

  function ChangedKeys(mods: seq<Match>): set<EventKey> {
    set m | m in mods :: ModifiedKey(m.entry, m.source.id, m.source.row)
  }

  function GoneKeys(ids: set<SourceId>, stored: Sources): set<EventKey>
    requires ids <= stored.Keys
  {
    set s | s in ids :: DeletedKey(s, stored[s])
  }

  method AnnounceAdded(db: Store, added: seq<Scanned>) returns (events: nat)
    modifies db`events
    ensures db.events == old(db.events) + AnnouncedKeys(old(db.View()), added)
    ensures Count(db.events) == Count(old(db.events)) + events
  {
    hide Count, AnnouncedKey, AnnouncedKeys;
    events := 0;
    ghost var t := db.View();
    AnnouncedNone(t);
    assert added[..0] == [];
    for i := 0 to |added|
      invariant db.events == t.events + AnnouncedKeys(t, added[..i])
      invariant Count(db.events) == Count(t.events) + events
    {
      var e := added[i];
      assert added[..i + 1] == added[..i] + [e];
      AnnouncedMore(t, added[..i], e);
      var candidate := PathId(e.path);
      if candidate in db.sources { candidate := CollisionId(e.path, e.hash); }
      if candidate !in db.sources {
        var generation := if candidate in db.tombstones then db.tombstones[candidate].generation else 0;
        KeyOf(t, e, candidate, generation);
        var inserted := db.AppendEvent(EventKey(FileAdded, e.path, generation + 1, candidate, Some(e.hash), None));
        events := events + if inserted then 1 else 0;
      }
    }
    assert added[..|added|] == added;
  }

  lemma AnnouncedNone(t: Tables)
    ensures AnnouncedKeys(t, []) == {}
  {
  }

  lemma AnnouncedMore(t: Tables, added: seq<Scanned>, e: Scanned)
    ensures AnnouncedKeys(t, added + [e]) ==
              AnnouncedKeys(t, added) + if StableId(t, e).Some? then {AnnouncedKey(t, e, StableId(t, e).value)} else {}
  {
    hide AnnouncedKey, StableId;
    var more := added + [e];
    assert forall x :: x in more <==> x in added || x == e;
  }

  lemma KeyOf(t: Tables, e: Scanned, id: SourceId, generation: nat)
    requires generation == BirthGeneration(t, id)
    ensures AnnouncedKey(t, e, id) == EventKey(FileAdded, e.path, generation + 1, id, Some(e.hash), None)
  {
  }

  method AnnounceModified(db: Store, mods: seq<Match>) returns (events: nat)
    modifies db`events
    ensures db.events == old(db.events) + ChangedKeys(mods) && Count(db.events) == Count(old(db.events)) + events
  {
    hide Count;
    events := 0;
    for i := 0 to |mods|
      invariant db.events == old(db.events) + ChangedKeys(mods[..i]) && Count(db.events) == Count(old(db.events)) + events
    {
      var m := mods[i];
      assert mods[..i + 1] == mods[..i] + [m];
      var inserted := db.AppendEvent(EventKey(FileModified, m.entry.path, m.source.row.generation + 1, m.source.id,
                                              Some(m.entry.hash), Some(m.source.row.hash)));
      events := events + if inserted then 1 else 0;
    }
    assert mods[..|mods|] == mods;
  }

  method AnnounceMoved(db: Store, moves: seq<Match>) returns (events: nat)
    modifies db`events
    ensures db.events == old(db.events) + MovedKeys(moves) && Count(db.events) == Count(old(db.events)) + events
  {
    hide Count, MovedKeys;
    events := 0;
    NoMoves(map[], []);
    assert moves[..0] == [];
    for i := 0 to |moves|
      invariant db.events == old(db.events) + MovedKeys(moves[..i]) && Count(db.events) == Count(old(db.events)) + events
    {
      var m := moves[i];
      MovedKeysStep(moves, i);
      var inserted := db.AppendEvent(EventKey(FileMoved, m.entry.path, m.source.row.generation + 1, m.source.id,
                                              Some(m.entry.hash), Some(m.entry.hash)));
      events := events + if inserted then 1 else 0;
    }
    assert moves[..|moves|] == moves;
  }

  method AnnounceDeleted(db: Store, ids: set<SourceId>, stored: Sources) returns (events: nat)
    requires ids <= stored.Keys
    modifies db`events
    ensures db.events == old(db.events) + GoneKeys(ids, stored) && Count(db.events) == Count(old(db.events)) + events
  {
    hide Count, GoneKeys;
    events := 0;
    var rest := ids;
    ghost var done: set<SourceId> := {};
    GoneNone(stored);
    while rest != {}
      invariant done <= ids && rest == ids - done
      invariant db.events == old(db.events) + GoneKeys(done, stored) && Count(db.events) == Count(old(db.events)) + events
      decreases rest
    {
      var s :| s in rest;
      var row := stored[s];
      GoneMore(done, s, stored);
      var inserted := db.AppendEvent(EventKey(FileDeleted, row.path, row.generation + 1, s, None, Some(row.hash)));
      events := events + if inserted then 1 else 0;
      rest, done := rest - {s}, done + {s};
    }
    assert done == ids;
  }

  lemma GoneNone(stored: Sources)
    ensures GoneKeys({}, stored) == {}
  {
  }

  lemma GoneMore(ids: set<SourceId>, s: SourceId, stored: Sources)
    requires ids <= stored.Keys && s in stored
    ensures GoneKeys(ids + {s}, stored) == GoneKeys(ids, stored) + {DeletedKey(s, stored[s])}
  {
    hide DeletedKey;
  }

  /** The four lists of the plan announce exactly the detected keys. */
  lemma PlanAnnounces(t: Tables, stored: Sources, scan: seq<Scanned>, plan: Plan, key: EventKey)
    requires ScanOk(scan) && StoredOk(stored) && IsPlan(scan, stored, plan) && plan.deleted <= stored.Keys
    ensures Detects(t, stored, scan, key) <==>
              || key in AnnouncedKeys(t, plan.added) || key in ChangedKeys(plan.modified)
              || key in MovedKeys(plan.moved) || key in GoneKeys(plan.deleted, stored)
  {
    hide IsPlan, StoredOk, MovedKeys, AnnouncedKeys, ChangedKeys, GoneKeys, DetectsAdded, DetectsModified, DetectsDeleted, Moves;
    PlanAnnouncesAdded(t, stored, scan, plan, key);
    PlanAnnouncesModified(t, stored, scan, plan, key);
    PlanAnnouncesRest(stored, scan, plan, key);
  }

  lemma PlanAnnouncesAdded(t: Tables, stored: Sources, scan: seq<Scanned>, plan: Plan, key: EventKey)
    requires IsPlan(scan, stored, plan)
    ensures DetectsAdded(t, stored, scan, key) <==> key in AnnouncedKeys(t, plan.added)
  {
    hide Moves, NoneAt, Sorted, AnnouncedKey;
    AddedScanned(scan, stored, plan);
    forall e | e in scan
      ensures e in plan.added <==> NoneAt(stored, plan.moved, e.path)
    {
      AddedIff(scan, stored, plan, e);
    }
  }

  lemma PlanAnnouncesModified(t: Tables, stored: Sources, scan: seq<Scanned>, plan: Plan, key: EventKey)
    requires ScanOk(scan) && StoredOk(stored) && IsPlan(scan, stored, plan)
    ensures DetectsModified(stored, scan, key) <==> key in ChangedKeys(plan.modified)
  {
    hide Moves, GoodMatch, Sorted, ModifiedKey, StoredOk, GoodMove, WorkingAt;
    SameMatches(scan, stored, plan);
    MovesGood(scan, stored, |scan|);
    if DetectsModified(stored, scan, key) {
      var e, s :| e in scan && s in stored && stored[s].path == e.path && stored[s].hash != e.hash &&
                  key == ModifiedKey(e, s, stored[s]);
      var m := ModifiedEntry(scan, stored, plan, e, s);
      NotMovedRow(scan, stored, plan.moved, m);
    }
    if key in ChangedKeys(plan.modified) {
      var m :| m in plan.modified && key == ModifiedKey(m.entry, m.source.id, m.source.row);
      NotMovedRow(scan, stored, plan.moved, m);
    }
  }

  lemma NotMovedRow(scan: seq<Scanned>, stored: Sources, moves: seq<Match>, m: Match)
    requires GoodMoves(scan, stored, moves) && GoodMatch(stored, moves, m) && m.source.row.hash != m.entry.hash
    requires m.entry in scan && ScanOk(scan)
    ensures m.source.id in stored && m.source.row == stored[m.source.id] && stored[m.source.id].path == m.entry.path
  {
    forall k | 0 <= k < |moves| && moves[k].entry.path == m.entry.path
      ensures m.source != Relocated(moves[k])
    {
      assert GoodMove(scan, stored, moves[k]);
    }
  }

  lemma PlanAnnouncesRest(stored: Sources, scan: seq<Scanned>, plan: Plan, key: EventKey)
    requires IsPlan(scan, stored, plan) && plan.deleted <= stored.Keys
    ensures plan.moved == Moves(scan, stored, |scan|)
    ensures DetectsDeleted(stored, scan, key) <==> key in GoneKeys(plan.deleted, stored)
  {
    hide Moves, Sorted, Claimed, DeletedKey;
  }

  /** `detect_changes`: announces every difference between the scan and the sources of the scanned roots, and nothing else. */
  method DetectChanges(db: Store, scan: seq<Scanned>, authorized: set<string>) returns (events: nat)
    requires ScanOk(scan) && StoredOk(db.sources)
    requires forall i :: 0 <= i < |scan| ==> scan[i].path.root in authorized
    modifies db`events
    ensures forall key :: key in db.events <==>
              key in old(db.events) || Detects(old(db.View()), InRoots(old(db.sources), authorized), scan, key)
    ensures forall key :: key in db.events && key !in old(db.events) && key.source in old(db.sources) ==>
              old(db.sources)[key.source].path.root in authorized
    ensures Count(db.events) == Count(old(db.events)) + events
  {
    hide ScanOk, StoredOk, IsPlan, Count, AnnouncedKeys, ChangedKeys, MovedKeys, GoneKeys, Detects;
    ghost var t := db.View();
    var stored := map s | s in db.sources && db.sources[s].path.root in authorized :: db.sources[s];
    RootsOk(db.sources, authorized);
    var plan := Diff(scan, stored, authorized);
    DeletedStored(scan, stored, plan);
    var n1 := AnnounceAdded(db, plan.added);
    var n2 := AnnounceModified(db, plan.modified);
    var n3 := AnnounceMoved(db, plan.moved);
    var n4 := AnnounceDeleted(db, plan.deleted, stored);
    events := n1 + n2 + n3 + n4;
    forall key
      ensures key in db.events <==> key in t.events || Detects(t, stored, scan, key)
      ensures Detects(t, stored, scan, key) ==> key.source in stored || key.source !in t.sources
    {
      PlanAnnounces(t, stored, scan, plan, key);
      AboutRoots(t, stored, scan, key);
    }
  }

  lemma MovedAbout(scan: seq<Scanned>, stored: Sources, moves: seq<Match>, key: EventKey)
    requires GoodMoves(scan, stored, moves) && key in MovedKeys(moves)
    ensures key.source in stored
  {
    var i :| 0 <= i < |moves| && key == MovedKey(moves[i]);
    assert GoodMove(scan, stored, moves[i]);
  }

  /**
   What an announcement says, kind by kind. Moved: a vanished source's bytes are at a scanned path now. Modified: the file at a
   source's path has other bytes. Deleted: a source that is neither scanned nor moved. Added: a file at a path nobody holds,
   under an id not in use. The generation is always the next one of that id.
   */
  lemma AnnouncementsSay(t: Tables, stored: Sources, scan: seq<Scanned>, key: EventKey)
    requires ScanOk(scan) && Detects(t, stored, scan, key)
    ensures match key.kind
            case FileMoved =>
              && key.source in Vanished(scan, stored) && key.generation == stored[key.source].generation + 1
              && key.current == key.previous == Some(stored[key.source].hash)
              && exists e :: e in scan && e.path == key.path && e.hash == stored[key.source].hash
            case FileModified =>
              && key.source in stored && stored[key.source].path == key.path && key.generation == stored[key.source].generation + 1
              && key.previous == Some(stored[key.source].hash) && key.current != key.previous
              && exists e :: e in scan && e.path == key.path && key.current == Some(e.hash)
            case FileDeleted =>
              && key.source in Vanished(scan, stored) && stored[key.source].path == key.path
              && key.generation == stored[key.source].generation + 1
              && key.previous == Some(stored[key.source].hash) && key.current == None
            case FileAdded =>
              && key.source !in t.sources && key.generation == BirthGeneration(t, key.source) + 1
              && key.previous == None && exists e :: e in scan && e.path == key.path && key.current == Some(e.hash)
  {
    hide Moves;
    var moves := Moves(scan, stored, |scan|);
    MovesGood(scan, stored, |scan|);
    if key in MovedKeys(moves) {
      var i :| 0 <= i < |moves| && key == MovedKey(moves[i]);
      assert GoodMove(scan, stored, moves[i]);
    }
  }

  /** What is announced concerns a source that was compared, or an id not in use. */
  lemma AboutRoots(t: Tables, stored: Sources, scan: seq<Scanned>, key: EventKey)
    requires ScanOk(scan)
    ensures Detects(t, stored, scan, key) ==> key.source in stored || key.source !in t.sources
  {
    hide Moves;
    MovesGood(scan, stored, |scan|);
    if key in MovedKeys(Moves(scan, stored, |scan|)) { MovedAbout(scan, stored, Moves(scan, stored, |scan|), key); }
  }

  lemma RootsOk(sources: Sources, authorized: set<string>)
    requires StoredOk(sources)
    ensures StoredOk(InRoots(sources, authorized))
  {
  }

  /**
   Change detection followed by reconciliation of the same scan: when every source lies in an authorized root, the run
   records again nothing that was announced, and adds only rebuilds of unchanged bytes and files under random ids.
   */
  method PollThenReconcile(db: Store, scan: seq<Scanned>, authorized: set<string>, full: bool, env: Env, ghost build: Build)
    returns (announced: nat, report: Report, ghost polled: set<EventKey>)
    requires Consistent(db.View(), build) && EnvOk(env, build) && ScanOk(scan) && UuidsFresh(env, scan, db.sources)
    requires forall i :: 0 <= i < |scan| ==> scan[i].path.root in authorized
    requires forall s :: s in db.sources ==> db.sources[s].path.root in authorized
    modifies db
    ensures forall key :: key in polled <==> key in old(db.events) || Detects(old(db.View()), old(db.sources), scan, key)
    ensures polled <= db.events && forall key :: key in db.events && key !in polled ==> Unannounced(key)
    ensures Count(polled) == Count(old(db.events)) + announced && Count(db.events) == Count(polled) + report.events
  {
    hide Consistent, EnvOk, ScanOk, UuidsFresh, EventsOk, Detects, Settled, Count, Unblocked, Unannounced, IdFrom;
    ghost var t := db.View();
    ConsistentPaths(t, build);
    assert InRoots(db.sources, authorized) == db.sources;
    announced := DetectChanges(db, scan, authorized);
    polled := db.events;
    ghost var t' := db.View();
    EventsConsistent(t, t', build);
    report := Reconcile(db, scan, authorized, full, env, build);
    DetectsFromSources(t, t', scan);
    OnlyUnannounced(t', scan, polled, db.events);
  }

  lemma EventsConsistent(t: Tables, t': Tables, build: Build)
    requires Consistent(t, build) && t' == t.(events := t'.events)
    ensures Consistent(t', build)
  {
    hide HasExactly;
    forall s | s in t'.sources && t'.sources[s].active.Some?
      ensures CompleteAt(t', build, s)
    {
      assert CompleteAt(t, build, s);
    }
  }

  lemma OnlyUnannounced(t: Tables, scan: seq<Scanned>, polled: set<EventKey>, events: set<EventKey>)
    requires EventsOk(t, scan, polled, events) && forall key :: Detects(t, t.sources, scan, key) ==> key in polled
    ensures polled <= events && forall key :: key in events && key !in polled ==> Unannounced(key)
  {
    hide Detects, Unannounced;
    assert forall key :: Allowed(t, scan, key) <==> Detects(t, t.sources, scan, key) || Unannounced(key);
  }
}
