/**
 Building one scanned file into the index, in a run without concurrent writers: read, extract, claim a source,
 begin a version, write its chunks and activate it.
 */
module Building {
  import opened Wrappers
  import opened Documents
  import opened KnowledgeTables
  import opened KnowledgeStore
  import opened ReconcileDiff
  import opened ReconcilePlan

  const ORPHAN_BUILD_SECONDS: nat := 3600
  const EXTRACTOR_VERSION := "1.0.0"

  datatype Embedding = Embedding(provider: string, model: string, dim: int, version: string)

  /** What reading a scanned file again gives: its hash, and its chunks unless extraction fails. */
  datatype FileRead = Unreadable | Content(hash: Hash, chunks: Option<seq<Chunk>>)

  /** Everything outside the database that a run depends on. */
  datatype Env = Env(read: Scanned -> FileRead, embeds: Scanned -> bool, uuid: Path -> nat, bytes: Chunk -> nat,
                     embedding: Embedding, run: RunId, now: int)

  function ExtractorName(media: string): string {
    if media == "application/pdf" then "stdlib-pdf"
    else if media == "text/markdown" then "markdown-line-paragraph"
    else "plain-line-paragraph"
  }

  function IdentityFor(env: Env, media: string): Identity {
    Identity(ExtractorName(media), EXTRACTOR_VERSION, env.embedding.provider, env.embedding.model,
             env.embedding.dim, env.embedding.version)
  }

  function VersionFor(env: Env, e: Scanned): VersionId {
    VersionId(e.hash, IdentityFor(env, e.media))
  }

  /** A version identifier tells bytes, extractor and embedder apart. */
  lemma VersionTells(env: Env, e: Scanned, env': Env, e': Scanned)
    ensures VersionFor(env, e) == VersionFor(env', e') <==>
              && e.hash == e'.hash && env.embedding == env'.embedding
              && (e.media == "application/pdf" <==> e'.media == "application/pdf")
              && (e.media == "text/markdown" <==> e'.media == "text/markdown")
  {
    assert "stdlib-pdf"[0] != "markdown-line-paragraph"[0] && "stdlib-pdf"[0] != "plain-line-paragraph"[0];
    assert "markdown-line-paragraph"[0] != "plain-line-paragraph"[0];
    assert "application/pdf"[0] != "text/markdown"[0];
  }

  type Build = VersionId -> seq<Chunk>

  /** Extraction is deterministic: the chunks are a function of the bytes and the build identity. */
  ghost predicate EnvOk(env: Env, build: Build) {
    && Numbered(build)
    && forall e: Scanned :: env.read(e).Content? && env.read(e).chunks.Some? ==>
         env.read(e).chunks.value == build(VersionId(env.read(e).hash, IdentityFor(env, e.media)))
  }

  // ---- building one file ----

  datatype Outcome = Failed | AlreadyBuilt | Blocked | Built(event: EventKey)

  /** The file still has the scanned bytes, and they give at least one chunk. */
  predicate Readable(env: Env, e: Scanned) {
    && env.read(e).Content? && env.read(e).hash == e.hash
    && env.read(e).chunks.Some? && env.read(e).chunks.value != []
  }

  /** Besides, the chunks can be embedded and each fits a frame. */
  predicate Buildable(env: Env, e: Scanned) {
    Readable(env, e) && env.embeds(e) && !Oversized(env.read(e).chunks.value, env.bytes)
  }

  function BuiltRow(env: Env, e: Scanned, row: Source): Source {
    row.(active := Some(VersionFor(env, e)), hash := e.hash, size := e.size, mtime := e.mtime,
         generation := row.generation + 1)
  }

  /** The source already serves exactly what a build of this file would produce. */
  predicate BuiltAlready(env: Env, e: Scanned, row: Source) {
    row.active == Some(VersionFor(env, e)) && row.hash == e.hash
  }

  /** Version rows of other sources are exactly as they were. */
  ghost predicate SameVersions(before: map<VersionKey, VersionRow>, after: map<VersionKey, VersionRow>, id: SourceId) {
    forall k: VersionKey :: k.source != id ==> SameRow(before, after, k)
  }

  ghost predicate SameRow(before: map<VersionKey, VersionRow>, after: map<VersionKey, VersionRow>, k: VersionKey) {
    (k in after <==> k in before) && (k in before && k in after ==> after[k] == before[k])
  }

  /** An unfinished candidate occupies the version that a build of this file into source `id` would begin. */
  predicate Leftover(t: Tables, env: Env, e: Scanned, id: SourceId) {
    var key := VersionKey(id, VersionFor(env, e));
    key in t.versions && !t.versions[key].ready
  }

  /** Begin, write and activate, and nothing of the candidate is left when any of it fails. */
  method BuildClaimed(db: Store, e: Scanned, id: SourceId, row: Source, kind: EventKind, previous: Option<Hash>,
                      chunks: seq<Chunk>, env: Env, ghost build: Build)
    returns (outcome: Outcome, events: nat)
    requires Consistent(db.View(), build) && Numbered(build)
    requires id in db.sources && db.sources[id] == row
    requires chunks == build(VersionFor(env, e)) && chunks != []
    modifies db
    ensures Consistent(db.View(), build)
    ensures db.tombstones == old(db.tombstones)
    ensures !outcome.Built? ==> db.View() == old(db.View())
    ensures outcome.Built? ==>
              && outcome.event == EventKey(kind, e.path, row.generation + 1, id, Some(e.hash), previous)
              && db.sources == old(db.sources)[id := BuiltRow(env, e, row)]
              && db.events == old(db.events) + {outcome.event}
    ensures SameVersions(old(db.versions), db.versions, id)
    ensures Count(db.events) == Count(old(db.events)) + events
    ensures outcome != AlreadyBuilt
    ensures outcome.Blocked? <==> VersionKey(id, VersionFor(env, e)) in old(db.versions)
    ensures outcome.Built? <==> !outcome.Blocked? && env.embeds(e) && !Oversized(chunks, env.bytes)
  {
    hide Consistent, Count, HasExactly, Numbered, Oversized, Upsert;
    var version := VersionFor(env, e);
    var key := VersionKey(id, version);
    events := 0;
    ghost var t0 := db.View();
    var owns := db.BeginVersion(key, env.run, env.now);
    if !owns { return Blocked, 0; }
    ghost var t1 := db.View();
    if !env.embeds(e) {
      Discarded(t0, build, key, env.run, env.now, []);
      db.FailVersion(key, env.run);
      return Failed, 0;
    }
    var ok, part := db.InsertChunks(key, env.run, chunks, env.bytes, env.now);
    if !ok {
      Discarded(t0, build, key, env.run, env.now, part);
      db.FailVersion(key, env.run);
      return Failed, 0;
    }
    WrittenReady(t0, build, key, env.run, env.now);
    ghost var t2 := db.View();
    ActivateKeeps(t2, build, key, e.size, e.mtime, row, env.run);
    Activated(t0, t2, key, env.run, e.size, e.mtime, |chunks|, row, env, e);
    var generation := db.ActivateVersion(key, e.size, e.mtime, |chunks|, row, env.run);
    var event := EventKey(kind, e.path, generation.value, id, Some(e.hash), previous);
    EventKeeps(db.View(), build, event);
    var inserted := db.AppendEvent(event);
    outcome, events := Built(event), if inserted then 1 else 0;
  }

  /** Failing a candidate restores the tables from before it was begun. */
  lemma Discarded(t: Tables, build: Build, key: VersionKey, run: RunId, now: int, part: seq<Chunk>)
    requires Consistent(t, build) && Numbered(build) && key !in t.versions && part <= build(key.version)
    ensures FailVersion(Written(BeginVersion(t, key, run, now).0, key, run, part, now), key, run) == t
  {
    hide HasExactly, ActiveComplete, OnlyActiveReady, PathsUnique, TombstonesBehind, RowsLabelled;
    assert forall i :: 0 <= i < |part| ==> part[i] == build(key.version)[i];
    WrittenFrame(t, key, run, now, part);
    hide Upsert, Numbered, Written, FailVersion;
    DiscardedRows(t, Written(BeginVersion(t, key, run, now).0, key, run, part, now), key, run);
  }

  lemma WrittenFrame(t: Tables, key: VersionKey, run: RunId, now: int, part: seq<Chunk>)
    requires key !in t.versions && forall i :: 0 <= i < |part| ==> part[i].ordinal == i
    ensures var t2 := Written(BeginVersion(t, key, run, now).0, key, run, part, now);
            && t2.sources == t.sources && t2.tombstones == t.tombstones && t2.events == t.events
            && t2.versions - {key} == t.versions && Owns(t2, key, run)
            && forall c: ChunkKey :: c.at != key ==>
                 (c in t2.chunks <==> c in t.chunks) && (c in t.chunks ==> t2.chunks[c] == t.chunks[c])
  {
    hide Upsert;
    UpsertRows(t.chunks, key, part, 0);
  }

  lemma DiscardedRows(t: Tables, t2: Tables, key: VersionKey, run: RunId)
    requires RowsLabelled(t) && key !in t.versions && Owns(t2, key, run)
    requires t2.sources == t.sources && t2.tombstones == t.tombstones && t2.events == t.events
    requires t2.versions - {key} == t.versions
    requires forall c: ChunkKey :: c.at != key ==> (c in t2.chunks <==> c in t.chunks) && (c in t.chunks ==> t2.chunks[c] == t.chunks[c])
    ensures FailVersion(t2, key, run) == t
  {
    var t3 := FailVersion(t2, key, run);
    assert t3.versions == t.versions;
    assert t3.chunks == t.chunks;
  }

  /** After all chunks have been written the candidate is complete and still owned. */
  lemma WrittenReady(t: Tables, build: Build, key: VersionKey, run: RunId, now: int)
    requires Consistent(t, build) && Numbered(build) && key !in t.versions && build(key.version) != []
    ensures var t2 := Written(BeginVersion(t, key, run, now).0, key, run, build(key.version), now);
            && Consistent(t2, build) && Owns(t2, key, run) && HasExactly(t2.chunks, key, build(key.version))
            && t2.sources == t.sources && t2.tombstones == t.tombstones && t2.events == t.events
            && SameVersions(t.versions, t2.versions, key.source)
  {
    var t1 := BeginVersion(t, key, run, now).0;
    BeginKeeps(t, build, key, run, now);
    FreshRows(t, build, key);
    hide Consistent, Count, HasExactly, Upsert;
    var all := build(key.version);
    assert all[0..|all|] == all && all[..|all|] == all && all[..0] == [];
    PutKeeps(t1, build, key, run, all, 0);
    PutExtends(t1, key, run, all, 0, |all|);
    HeartbeatKeeps(PutChunks(t1, key, run, all), build, key, run, now);
  }

  lemma FreshRows(t: Tables, build: Build, key: VersionKey)
    requires Consistent(t, build) && key !in t.versions
    ensures HasExactly(t.chunks, key, [])
  {
  }

  lemma Activated(t0: Tables, t2: Tables, key: VersionKey, run: RunId, size: int, mtime: int, count: nat, row: Source,
                  env: Env, e: Scanned)
    requires Owns(t2, key, run) && key.source in t2.sources && t2.sources[key.source] == row
    requires t2.sources == t0.sources && key.version == VersionFor(env, e) && size == e.size && mtime == e.mtime
    requires SameVersions(t0.versions, t2.versions, key.source)
    ensures var (t3, g) := ActivateVersion(t2, key, size, mtime, count, row, run);
            && g == Some(row.generation + 1)
            && t3.sources == t0.sources[key.source := BuiltRow(env, e, row)]
            && t3.tombstones == t2.tombstones && t3.events == t2.events
            && SameVersions(t0.versions, t3.versions, key.source)
  {
  }

  /** The id a new file gets: its path's, else the one of path and bytes, else a random one. */
  function ChosenId(t: Tables, env: Env, e: Scanned): SourceId {
    if PathId(e.path) !in t.sources then PathId(e.path)
    else if CollisionId(e.path, e.hash) !in t.sources then CollisionId(e.path, e.hash)
    else FreshId(env.uuid(e.path))
  }

  function NewRow(t: Tables, env: Env, e: Scanned): Source {
    Source(e.path, e.media, e.size, e.mtime, e.hash, None, BirthGeneration(t, ChosenId(t, env, e)))
  }

  /** The claim loop of `_build`: tries the three ids in turn until some source is found at the path. */
  method Claim(db: Store, e: Scanned, env: Env) returns (claimed: Option<(SourceId, Source)>, created: bool)
    modifies db
    ensures db.versions == old(db.versions) && db.chunks == old(db.chunks)
    ensures db.tombstones == old(db.tombstones) && db.events == old(db.events)
    ensures PathTaken(old(db.View()), e.path) ==> !created && db.sources == old(db.sources) && claimed.Some?
    ensures !PathTaken(old(db.View()), e.path) && FreshId(env.uuid(e.path)) !in old(db.sources) ==>
              && created && claimed == Some((ChosenId(old(db.View()), env, e), NewRow(old(db.View()), env, e)))
              && db.sources == old(db.sources)[ChosenId(old(db.View()), env, e) := NewRow(old(db.View()), env, e)]
    ensures claimed.Some? ==> claimed.value.0 in db.sources && db.sources[claimed.value.0] == claimed.value.1
                              && claimed.value.1.path == e.path
    ensures !created ==> db.sources == old(db.sources)
    ensures created ==> !PathTaken(old(db.View()), e.path) && claimed.Some? && claimed.value.0 !in old(db.sources)
                        && db.sources == old(db.sources)[claimed.value.0 := claimed.value.1]
                        && claimed.value.1 == Source(e.path, e.media, e.size, e.mtime, e.hash, None,
                                                     BirthGeneration(old(db.View()), claimed.value.0))
                        && claimed.value.0 in [PathId(e.path), CollisionId(e.path, e.hash), FreshId(env.uuid(e.path))]
  {
    var ids := [PathId(e.path), CollisionId(e.path, e.hash), FreshId(env.uuid(e.path))];
    claimed, created := None, false;
    for i := 0 to |ids|
      invariant db.View() == old(db.View()) && claimed == None && !created
      invariant i > 0 ==> !PathTaken(old(db.View()), e.path)
      invariant forall j :: 0 <= j < i ==> ids[j] in db.sources
    {
      ghost var before := db.View();
      claimed, created := db.InsertSource(ids[i], e.path, e.media, e.size, e.mtime, e.hash);
      if claimed.Some? {
        if created {
          ClaimedIsNew(before, ids[i], e, claimed.value.0, claimed.value.1);
          assert i > 0 ==> ids[0] in old(db.sources);
          assert i > 1 ==> ids[1] in old(db.sources);
        }
        return;
      }
    }
    assert ids[2] in db.sources;
  }

  lemma ClaimedIsNew(t: Tables, id: SourceId, e: Scanned, s: SourceId, row: Source)
    requires !PathTaken(t, e.path) && id !in t.sources
    requires var t' := InsertSource(t, id, e.path, e.media, e.size, e.mtime, e.hash).0;
             s in t'.sources && t'.sources[s] == row && row.path == e.path
    ensures s == id
  {
  }

  // ---- one file of the plan ----

  /** The index serves this scanned file: its path, its bytes, built with the current identity. */
  ghost predicate SettledAt(sources: Sources, env: Env, e: Scanned) {
    exists s :: s in sources && sources[s].path == e.path && sources[s].hash == e.hash &&
                sources[s].active == Some(VersionFor(env, e))
  }

  /** Sources on other paths are exactly as they were. */
  ghost predicate SameElsewhere(before: Sources, after: Sources, path: Path) {
    && (forall s :: s in before && before[s].path != path ==> s in after && after[s] == before[s])
    && (forall s :: s in after && after[s].path != path ==> s in before && before[s] == after[s])
  }

  function ModifiedKey(e: Scanned, id: SourceId, row: Source): EventKey {
    EventKey(FileModified, e.path, row.generation + 1, id, Some(e.hash), Some(row.hash))
  }

  function AddedKey(t: Tables, env: Env, e: Scanned): EventKey {
    var id := ChosenId(t, env, e);
    EventKey(FileAdded, e.path, BirthGeneration(t, id) + 1, id, Some(e.hash), None)
  }

  lemma ElsewhereTwice(a: Sources, b: Sources, c: Sources, path: Path)
    requires SameElsewhere(a, b, path) && SameElsewhere(b, c, path)
    ensures SameElsewhere(a, c, path)
  {
  }

  lemma ElsewhereSelf(a: Sources, path: Path)
    ensures SameElsewhere(a, a, path)
  {
  }

  lemma SettledBy(sources: Sources, env: Env, e: Scanned, id: SourceId)
    requires id in sources && sources[id].path == e.path && sources[id].hash == e.hash
    requires sources[id].active == Some(VersionFor(env, e))
    ensures SettledAt(sources, env, e)
  {
  }

  /** The part of `_build` after the source is known: build it unless this very version is active already. */
  method BuildSource(db: Store, e: Scanned, id: SourceId, row: Source, kind: EventKind, previous: Option<Hash>,
                     chunks: seq<Chunk>, env: Env, ghost build: Build)
    returns (outcome: Outcome, events: nat)
    requires Consistent(db.View(), build) && Numbered(build)
    requires id in db.sources && db.sources[id] == row && row.path == e.path
    requires chunks == build(VersionFor(env, e)) && chunks != []
    modifies db
    ensures Consistent(db.View(), build) && db.tombstones == old(db.tombstones)
    ensures SameVersions(old(db.versions), db.versions, id)
    ensures outcome.Blocked? <==> Leftover(old(db.View()), env, e, id)
    ensures SameElsewhere(old(db.sources), db.sources, e.path) && db.sources.Keys == old(db.sources).Keys
    ensures db.sources[id].path == e.path
    ensures db.events == old(db.events) + (if outcome.Built? then {outcome.event} else {})
    ensures Count(db.events) == Count(old(db.events)) + events
    ensures outcome.Built? || outcome.AlreadyBuilt? ==> SettledAt(db.sources, env, e)
    ensures outcome.Blocked? ==> !SettledAt(db.sources, env, e)
    ensures outcome.Failed? ==> db.View() == old(db.View())
    ensures outcome.Failed? <==>
              !BuiltAlready(env, e, row) && !Leftover(old(db.View()), env, e, id) && (!env.embeds(e) || Oversized(chunks, env.bytes))
    ensures outcome.AlreadyBuilt? ==> SettledAt(old(db.sources), env, e)
    ensures outcome.AlreadyBuilt? <==> BuiltAlready(env, e, row)
    ensures outcome.Built? ==> outcome.event == EventKey(kind, e.path, row.generation + 1, id, Some(e.hash), previous)
  {
    hide Consistent, Count, Oversized, SettledAt, SameElsewhere, Numbered;
    events := 0;
    VersionOccupied(db.View(), build, env, e, id);
    if row.active == Some(VersionFor(env, e)) && row.hash == e.hash {
      SettledBy(db.sources, env, e, id);
      ElsewhereSelf(db.sources, e.path);
      return AlreadyBuilt, 0;
    }
    outcome, events := BuildClaimed(db, e, id, row, kind, previous, chunks, env, build);
    AfterBuild(old(db.View()), db.View(), build, env, e, id, row, outcome);
  }

  /** Whether building the file ends in an error, given whether its version is held by an unfinished candidate. */
  predicate FailsWith(env: Env, e: Scanned, source: Option<Snapshot>, occupied: bool) {
    || !Readable(env, e)
    || (!(source.Some? && BuiltAlready(env, e, source.value.row)) && !occupied && !Buildable(env, e))
  }

  /** `_build`, with the snapshot of the source at the path, or none for an added file. */
  method BuildFile(db: Store, e: Scanned, source: Option<Snapshot>, env: Env, ghost build: Build)
    returns (outcome: Outcome, events: nat)
    requires Consistent(db.View(), build) && EnvOk(env, build)
    requires source.Some? ==> source.value.id in db.sources && db.sources[source.value.id] == source.value.row
                              && source.value.row.path == e.path
    requires source.None? ==> FreshId(env.uuid(e.path)) !in db.sources
    modifies db
    ensures Consistent(db.View(), build) && db.tombstones == old(db.tombstones)
    ensures VersionsElsewhere(old(db.versions), db.View(), e.path)
    ensures source.Some? ==> (outcome.Blocked? <==> !outcome.Failed? && Leftover(old(db.View()), env, e, source.value.id))
    ensures source.None? && !PathTaken(old(db.View()), e.path) ==>
              (outcome.Blocked? <==> !outcome.Failed? && Leftover(old(db.View()), env, e, ChosenId(old(db.View()), env, e)))
    ensures SameElsewhere(old(db.sources), db.sources, e.path)
    ensures db.events == old(db.events) + (if outcome.Built? then {outcome.event} else {})
    ensures outcome.Built? || outcome.AlreadyBuilt? ==> SettledAt(db.sources, env, e)
    ensures outcome.Blocked? ==> !SettledAt(db.sources, env, e)
    ensures outcome.Failed? ==> !Buildable(env, e) && (SettledAt(db.sources, env, e) <==> SettledAt(old(db.sources), env, e))
    ensures source.Some? ==>
              (outcome.Failed? <==> FailsWith(env, e, source, Leftover(old(db.View()), env, e, source.value.id)))
    ensures source.None? && !PathTaken(old(db.View()), e.path) ==>
              (outcome.Failed? <==> FailsWith(env, e, None, Leftover(old(db.View()), env, e, ChosenId(old(db.View()), env, e))))
    ensures outcome.AlreadyBuilt? && (source.Some? || !PathTaken(old(db.View()), e.path)) ==>
              source.Some? && SettledAt(old(db.sources), env, e)
    ensures source.Some? ==> (outcome.AlreadyBuilt? <==> !outcome.Failed? && BuiltAlready(env, e, source.value.row))
    ensures outcome.Built? && source.Some? ==> outcome.event == ModifiedKey(e, source.value.id, source.value.row)
    ensures outcome.Built? && source.None? && !PathTaken(old(db.View()), e.path) ==>
              outcome.event == AddedKey(old(db.View()), env, e)
    ensures forall s :: s in db.sources && s !in old(db.sources) ==>
              s == PathId(e.path) || s == CollisionId(e.path, e.hash) || s == FreshId(env.uuid(e.path))
    ensures old(db.sources).Keys <= db.sources.Keys
    ensures Count(db.events) == Count(old(db.events)) + events
  {
    hide Consistent, Count, Oversized, SettledAt, SameElsewhere, PathTaken, EnvOk, Numbered, SameVersions, VersionsElsewhere, Leftover;
    events := 0;
    ElsewhereSelf(db.sources, e.path);
    VersionsSelf(db.View(), e.path);
    match env.read(e)
    case Unreadable => return Failed, 0;
    case Content(hash, extracted) =>
      if hash != e.hash || extracted.None? || extracted.value == [] { return Failed, 0; }
      ReadsBuild(env, build, e);
      if source.Some? {
        var Snapshot(id, row) := source.value;
        ghost var t0 := db.View();
        outcome, events := BuildSource(db, e, id, row, FileModified, Some(row.hash), extracted.value, env, build);
        VersionsAt(t0.versions, db.View(), id, e.path);
      } else {
        ghost var t0 := db.View();
        var claimed, created := Claim(db, e, env);
        if claimed.None? {
          outcome := Failed;
          return;
        }
        var (id, row) := claimed.value;
        ghost var t1 := db.View();
        ClaimKeeps(t0, t1, build, e, id, row, created);
        outcome, events := BuildSource(db, e, id, row, if created then FileAdded else FileModified,
                                       if created then None else Some(row.hash), extracted.value, env, build);
        ElsewhereTwice(t0.sources, t1.sources, db.sources, e.path);
        VersionsAt(t1.versions, db.View(), id, e.path);
        SameLeftover(t0, t1, env, e, id);
        if created { NewNotSettled(t0, t1, env, e, id); }
      }
  }

  lemma NewNotSettled(t0: Tables, t1: Tables, env: Env, e: Scanned, id: SourceId)
    requires !PathTaken(t0, e.path) && id !in t0.sources && id in t1.sources && t1.sources[id].active == None
    requires t1.sources == t0.sources[id := t1.sources[id]]
    ensures !SettledAt(t1.sources, env, e) && !SettledAt(t0.sources, env, e)
  {
    forall s | s in t1.sources && t1.sources[s].path == e.path
      ensures s == id
    {
      assert s != id ==> s in t0.sources;
    }
  }

  lemma ReadsBuild(env: Env, build: Build, e: Scanned)
    requires EnvOk(env, build) && env.read(e).Content? && env.read(e).hash == e.hash && env.read(e).chunks.Some?
    ensures env.read(e).chunks.value == build(VersionFor(env, e)) && Numbered(build)
  {
    hide Numbered;
  }

  lemma ClaimKeeps(t0: Tables, t1: Tables, build: Build, e: Scanned, id: SourceId, row: Source, created: bool)
    requires Consistent(t0, build) && t1.versions == t0.versions && t1.chunks == t0.chunks
    requires t1.tombstones == t0.tombstones && t1.events == t0.events
    requires id in t1.sources && t1.sources[id] == row && row.path == e.path
    requires !created ==> t1.sources == t0.sources
    requires created ==> !PathTaken(t0, e.path) && id !in t0.sources && t1.sources == t0.sources[id := row] &&
                         row == Source(e.path, e.media, e.size, e.mtime, e.hash, None, BirthGeneration(t0, id))
    ensures Consistent(t1, build) && SameElsewhere(t0.sources, t1.sources, e.path)
  {
    hide Consistent, Count, PathTaken;
    InsertKeeps(t0, build, id, e.path, e.media, e.size, e.mtime, e.hash);
    assert created ==> t1 == InsertSource(t0, id, e.path, e.media, e.size, e.mtime, e.hash).0;
    assert !created ==> t1 == t0;
  }

  /** What a build leaves behind, seen from the path it worked on. */
  lemma AfterBuild(t: Tables, t': Tables, build: Build, env: Env, e: Scanned, id: SourceId, row: Source, outcome: Outcome)
    requires Consistent(t, build) && id in t.sources && t.sources[id] == row && row.path == e.path
    requires !(row.active == Some(VersionFor(env, e)) && row.hash == e.hash)
    requires !outcome.Built? ==> t' == t
    requires outcome.Built? ==> t'.sources == t.sources[id := BuiltRow(env, e, row)]
    requires outcome.Blocked? ==> VersionKey(id, VersionFor(env, e)) in t.versions
    ensures SameElsewhere(t.sources, t'.sources, e.path)
    ensures outcome.Built? ==> SettledAt(t'.sources, env, e)
    ensures outcome.Blocked? ==> !SettledAt(t'.sources, env, e)
  {
    hide HasExactly;
    if outcome.Built? {
      assert t'.sources[id].path == e.path;
    }
    if outcome.Blocked? {
      var key := VersionKey(id, VersionFor(env, e));
      if t.versions[key].ready { ReadyIsServed(t, build, key); }
    }
  }

  /** A version row of a source is an unfinished candidate unless it is the active version. */
  lemma VersionOccupied(t: Tables, build: Build, env: Env, e: Scanned, id: SourceId)
    requires Consistent(t, build) && id in t.sources
    ensures VersionKey(id, VersionFor(env, e)) in t.versions <==>
              Leftover(t, env, e, id) || (t.sources[id].active == Some(VersionFor(env, e)) && t.sources[id].hash == e.hash)
    ensures Leftover(t, env, e, id) ==> t.sources[id].active != Some(VersionFor(env, e))
  {
    hide HasExactly;
    var key := VersionKey(id, VersionFor(env, e));
    if t.sources[id].active == Some(key.version) { assert CompleteAt(t, build, id); }
    if key in t.versions && t.versions[key].ready { ReadyIsServed(t, build, key); }
  }

  /** Version rows of sources that are not at `path` are exactly as they were. */
  ghost predicate VersionsElsewhere(before: map<VersionKey, VersionRow>, after: Tables, path: Path) {
    forall k: VersionKey :: !(k.source in after.sources && after.sources[k.source].path == path) ==>
      SameRow(before, after.versions, k)
  }

  lemma VersionsSelf(t: Tables, path: Path)
    ensures VersionsElsewhere(t.versions, t, path)
  {
  }

  lemma VersionsAt(before: map<VersionKey, VersionRow>, after: Tables, id: SourceId, path: Path)
    requires SameVersions(before, after.versions, id) && id in after.sources && after.sources[id].path == path
    ensures VersionsElsewhere(before, after, path)
  {
    hide SameRow;
  }

  lemma SameLeftover(t0: Tables, t1: Tables, env: Env, e: Scanned, id: SourceId)
    requires t1.versions == t0.versions
    ensures Leftover(t1, env, e, id) == Leftover(t0, env, e, id)
  {
  }

  lemma ReadyIsServed(t: Tables, build: Build, key: VersionKey)
    requires Consistent(t, build) && key in t.versions && t.versions[key].ready
    ensures key.source in t.sources && t.sources[key.source].active == Some(key.version)
    ensures t.sources[key.source].hash == key.version.hash
  {
    hide HasExactly;
    assert CompleteAt(t, build, key.source);
  }
}
