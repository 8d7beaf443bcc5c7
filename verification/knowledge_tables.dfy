/**
 The tables of the knowledge index and the effect of every SQL statement (or transaction) on them, one atomic
 function per statement. Hashes stand for the bytes they were computed from, and the derived identifiers
 are the tuples they are hashed from.
 */
module KnowledgeTables {
  import opened Wrappers
  import opened Documents

  type Hash = string

  type RunId = nat

  datatype Path = Path(root: string, rel: string)

  /** `source_id_for`, `collision_source_id_for` and the random fallback. */
  datatype SourceId = PathId(at: Path) | CollisionId(at: Path, hash: Hash) | FreshId(uuid: nat)

  /** Everything besides the bytes that a build depends on. */
  datatype Identity = Identity(extractor: string, extractorVersion: string,
                               provider: string, model: string, dim: int, embeddingVersion: string)

  /** `compute_version_id` */
  datatype VersionId = VersionId(hash: Hash, identity: Identity)

  datatype Source = Source(path: Path, media: string, size: int, mtime: int, hash: Hash,
                           active: Option<VersionId>, generation: nat)

  datatype VersionKey = VersionKey(source: SourceId, version: VersionId)

  datatype VersionRow = VersionRow(hash: Hash, identity: Identity, ready: bool, chunkCount: nat,
                                   builtBy: Option<RunId>, heartbeat: int)

  datatype ChunkKey = ChunkKey(at: VersionKey, ordinal: nat)

  datatype Tombstone = Tombstone(path: Path, hash: Hash, generation: nat)

  datatype EventKind = FileAdded | FileModified | FileMoved | FileDeleted

  /** The dedupe key of an event: all of its columns. */
  datatype EventKey = EventKey(kind: EventKind, path: Path, generation: nat, source: SourceId,
                               current: Option<Hash>, previous: Option<Hash>)

  datatype Tables = Tables(sources: map<SourceId, Source>,
                           versions: map<VersionKey, VersionRow>,
                           chunks: map<ChunkKey, Chunk>,
                           tombstones: map<SourceId, Tombstone>,
                           events: set<EventKey>)

  const EMPTY_TABLES := Tables(map[], map[], map[], map[], {})

  // ---- statements ----

  predicate PathTaken(t: Tables, path: Path) {
    exists s :: s in t.sources && t.sources[s].path == path
  }

  /** The generation a source id starts from: its tombstone's, or 0. */
  function BirthGeneration(t: Tables, id: SourceId): nat {
    if id in t.tombstones then t.tombstones[id].generation else 0
  }

  /** INSERT INTO knowledge_sources ... ON CONFLICT DO NOTHING */
  function InsertSource(t: Tables, id: SourceId, path: Path, media: string, size: int, mtime: int, hash: Hash)
    : (Tables, bool)
  {
    if id in t.sources || PathTaken(t, path) then (t, false)
    else
      var row := Source(path, media, size, mtime, hash, None, BirthGeneration(t, id));
      (t.(sources := t.sources[id := row]), true)
  }

  /** The snapshot a conditional statement was computed from still holds. */
  predicate Current(t: Tables, id: SourceId, path: Path, generation: nat) {
    id in t.sources && t.sources[id].path == path && t.sources[id].generation == generation
  }

  datatype MoveResult = MovedTo(generation: nat) | Stale | PathConflict

  function MoveSource(t: Tables, id: SourceId, to: Path, media: string, size: int, mtime: int,
                      expectedPath: Path, expectedGeneration: nat): (Tables, MoveResult)
  {
    if !Current(t, id, expectedPath, expectedGeneration) then (t, Stale)
    else if to != expectedPath && PathTaken(t, to) then (t, PathConflict)
    else
      var row := t.sources[id].(path := to, media := media, size := size, mtime := mtime,
                                generation := expectedGeneration + 1);
      (t.(sources := t.sources[id := row]), MovedTo(expectedGeneration + 1))
  }

  function BeginVersion(t: Tables, key: VersionKey, run: RunId, now: int): (Tables, bool) {
    if key in t.versions then (t, false)
    else
      var row := VersionRow(key.version.hash, key.version.identity, false, 0, Some(run), now);
      (t.(versions := t.versions[key := row]), true)
  }

  /** The row is a BUILDING candidate owned by `run`. */
  predicate Owns(t: Tables, key: VersionKey, run: RunId) {
    key in t.versions && !t.versions[key].ready && t.versions[key].builtBy == Some(run)
  }

  function Upsert(table: map<ChunkKey, Chunk>, key: VersionKey, chunks: seq<Chunk>): map<ChunkKey, Chunk>
    decreases |chunks|
  {
    if chunks == [] then table
    else Upsert(table[ChunkKey(key, chunks[0].ordinal) := chunks[0]], key, chunks[1..])
  }

  /** One transaction of guarded chunk upserts. */
  function PutChunks(t: Tables, key: VersionKey, run: RunId, chunks: seq<Chunk>): Tables {
    if Owns(t, key, run) then t.(chunks := Upsert(t.chunks, key, chunks)) else t
  }

  function Heartbeat(t: Tables, key: VersionKey, run: RunId, now: int): (Tables, bool) {
    if Owns(t, key, run) then (t.(versions := t.versions[key := t.versions[key].(heartbeat := now)]), true)
    else (t, false)
  }

  /** Deleting version rows cascades to their chunks. */
  function RemoveVersions(t: Tables, dead: set<VersionKey>): Tables {
    t.(versions := map k | k in t.versions && k !in dead :: t.versions[k],
       chunks := map c | c in t.chunks && c.at !in dead :: t.chunks[c])
  }

  predicate Promotable(t: Tables, key: VersionKey, expected: Source, run: RunId) {
    && Current(t, key.source, expected.path, expected.generation)
    && t.sources[key.source].active == expected.active
    && Owns(t, key, run)
  }

  function Promote(t: Tables, key: VersionKey, size: int, mtime: int, chunkCount: nat): Tables
    requires key.source in t.sources && key in t.versions
  {
    var s, v := t.sources[key.source], t.versions[key];
    t.(versions := t.versions[key := v.(ready := true, chunkCount := chunkCount, builtBy := None)],
       sources := t.sources[key.source := s.(active := Some(key.version), hash := key.version.hash,
                                             size := size, mtime := mtime, generation := s.generation + 1)])
  }

  /** READY versions of the source other than its active one `key`. */
  function Superseded(t: Tables, key: VersionKey): set<VersionKey> {
    set k | k in t.versions && k.source == key.source && k != key && t.versions[k].ready
  }

  function DropSuperseded(t: Tables, key: VersionKey): Tables {
    if key.source in t.sources && t.sources[key.source].active == Some(key.version)
    then RemoveVersions(t, Superseded(t, key)) else t
  }

  /** The two statements of the activation transaction; the source keeps its hash unless it is promoted. */
  function ActivateVersion(t: Tables, key: VersionKey, size: int, mtime: int, chunkCount: nat,
                           expected: Source, run: RunId): (Tables, Option<nat>)
  {
    if Promotable(t, key, expected, run) then
      (DropSuperseded(Promote(t, key, size, mtime, chunkCount), key), Some(expected.generation + 1))
    else (DropSuperseded(t, key), None)
  }

  function FailVersion(t: Tables, key: VersionKey, run: RunId): Tables {
    if Owns(t, key, run) then RemoveVersions(t, {key}) else t
  }

  function Orphans(t: Tables, run: RunId, before: int): set<VersionKey> {
    set k | k in t.versions && !t.versions[k].ready && t.versions[k].builtBy != Some(run) && t.versions[k].heartbeat < before
  }

  function DiscardOrphans(t: Tables, run: RunId, now: int, maxAge: nat): Tables {
    RemoveVersions(t, Orphans(t, run, now - maxAge))
  }

  function DeleteSource(t: Tables, id: SourceId, reasonHash: Hash, expectedPath: Path, expectedGeneration: nat)
    : (Tables, Option<nat>)
  {
    if !Current(t, id, expectedPath, expectedGeneration) then (t, None)
    else
      var next := expectedGeneration + 1;
      (Tables(map s | s in t.sources && s != id :: t.sources[s],
              map k | k in t.versions && k.source != id :: t.versions[k],
              map c | c in t.chunks && c.at.source != id :: t.chunks[c],
              t.tombstones[id := Tombstone(expectedPath, reasonHash, next)],
              t.events), Some(next))
  }

  /** INSERT INTO knowledge_events ... ON CONFLICT (dedupe_key) DO NOTHING */
  function AppendEvent(t: Tables, event: EventKey): (Tables, bool) {
    (t.(events := t.events + {event}), event !in t.events)
  }

  // ---- what the rows mean ----

  /** Version `key` has exactly the chunk rows `chunks`, by ordinal. */
  ghost predicate HasExactly(table: map<ChunkKey, Chunk>, key: VersionKey, chunks: seq<Chunk>) {
    forall i: nat :: (ChunkKey(key, i) in table <==> i < |chunks|) &&
                     (i < |chunks| && ChunkKey(key, i) in table ==> table[ChunkKey(key, i)] == chunks[i])
  }

  ghost predicate PathsUnique(t: Tables) {
    forall a, b :: a in t.sources && b in t.sources && t.sources[a].path == t.sources[b].path ==> a == b
  }

  /** An active version is READY, belongs to the recorded bytes and carries its complete chunk list. */
  ghost predicate ActiveComplete(t: Tables, build: VersionId -> seq<Chunk>) {
    forall s :: s in t.sources && t.sources[s].active.Some? ==> CompleteAt(t, build, s)
  }

  ghost predicate CompleteAt(t: Tables, build: VersionId -> seq<Chunk>, s: SourceId)
    requires s in t.sources && t.sources[s].active.Some?
  {
    var v := t.sources[s].active.value;
    var key := VersionKey(s, v);
    && key in t.versions && t.versions[key].ready
    && t.versions[key].hash == v.hash == t.sources[s].hash
    && t.versions[key].chunkCount == |build(v)|
    && HasExactly(t.chunks, key, build(v))
  }

  /** A READY version is the active version of an existing source. */
  ghost predicate OnlyActiveReady(t: Tables) {
    forall k :: k in t.versions && t.versions[k].ready ==>
      k.source in t.sources && t.sources[k.source].active == Some(k.version)
  }

  ghost predicate RowsLabelled(t: Tables) {
    && (forall c :: c in t.chunks ==> c.at in t.versions)
    && (forall k :: k in t.versions ==>
          t.versions[k].hash == k.version.hash && t.versions[k].identity == k.version.identity)
  }

  ghost predicate TombstonesBehind(t: Tables) {
    forall s :: s in t.sources && s in t.tombstones ==> t.tombstones[s].generation <= t.sources[s].generation
  }

  ghost predicate Consistent(t: Tables, build: VersionId -> seq<Chunk>) {
    && PathsUnique(t) && ActiveComplete(t, build) && OnlyActiveReady(t) && RowsLabelled(t) && TombstonesBehind(t)
  }

  /** `chunk_document` numbers the chunks of a build by position. */
  ghost predicate Numbered(build: VersionId -> seq<Chunk>) {
    forall v: VersionId, i :: 0 <= i < |build(v)| ==> build(v)[i].ordinal == i
  }

  // ---- how statements keep the tables consistent ----

  lemma InsertKeeps(t: Tables, build: VersionId -> seq<Chunk>, id: SourceId, path: Path, media: string,
                    size: int, mtime: int, hash: Hash)
    requires Consistent(t, build)
    ensures Consistent(InsertSource(t, id, path, media, size, mtime, hash).0, build)
  {
    hide HasExactly;
    var t' := InsertSource(t, id, path, media, size, mtime, hash).0;
    forall s | s in t'.sources && t'.sources[s].active.Some?
      ensures CompleteAt(t', build, s)
    {
      assert CompleteAt(t, build, s);
    }
  }

  lemma MoveKeeps(t: Tables, build: VersionId -> seq<Chunk>, id: SourceId, to: Path, media: string,
                  size: int, mtime: int, expectedPath: Path, expectedGeneration: nat)
    requires Consistent(t, build)
    ensures Consistent(MoveSource(t, id, to, media, size, mtime, expectedPath, expectedGeneration).0, build)
  {
    hide HasExactly, PathsUnique, PathTaken;
    MovePaths(t, id, to, media, size, mtime, expectedPath, expectedGeneration);
    var t' := MoveSource(t, id, to, media, size, mtime, expectedPath, expectedGeneration).0;
    forall s | s in t'.sources && t'.sources[s].active.Some?
      ensures CompleteAt(t', build, s)
    {
      assert CompleteAt(t, build, s);
    }
  }

  lemma MovePaths(t: Tables, id: SourceId, to: Path, media: string, size: int, mtime: int,
                  expectedPath: Path, expectedGeneration: nat)
    requires PathsUnique(t)
    ensures PathsUnique(MoveSource(t, id, to, media, size, mtime, expectedPath, expectedGeneration).0)
  {
  }

  /** Removing versions none of which is active keeps everything in place. */
  lemma RemoveKeeps(t: Tables, build: VersionId -> seq<Chunk>, dead: set<VersionKey>)
    requires Consistent(t, build)
    requires forall k :: k in dead && k in t.versions ==> !t.versions[k].ready
    ensures Consistent(RemoveVersions(t, dead), build)
  {
    var t' := RemoveVersions(t, dead);
    forall s | s in t'.sources && t'.sources[s].active.Some?
      ensures CompleteAt(t', build, s)
    {
      assert CompleteAt(t, build, s);
    }
  }

  /**
   Exactly which versions a sweep leaves: finished ones, the sweeping run's own, and those with a heartbeat within the maximal
   age; it changes none of them and takes the chunks of the others with it.
   */
  lemma SweepLeaves(t: Tables, run: RunId, now: int, maxAge: nat, key: VersionKey)
    ensures var t' := DiscardOrphans(t, run, now, maxAge);
            && t'.sources == t.sources && t'.tombstones == t.tombstones && t'.events == t.events
            && (key in t'.versions <==>
                  key in t.versions && (t.versions[key].ready || t.versions[key].builtBy == Some(run) || now - t.versions[key].heartbeat <= maxAge))
            && (key in t'.versions ==> t'.versions[key] == t.versions[key])
            && forall i :: ChunkKey(key, i) in t'.chunks <==>
                 ChunkKey(key, i) in t.chunks && !(key in t.versions && key !in t'.versions)
  {
  }

  /** A candidate whose owner has sent a heartbeat, or began it, within the maximal age survives any run's sweep. */
  lemma BeatProtects(t: Tables, key: VersionKey, owner: RunId, beat: int, other: RunId, now: int, maxAge: nat)
    requires now - beat <= maxAge
    ensures Owns(t, key, owner) ==> Owns(DiscardOrphans(Heartbeat(t, key, owner, beat).0, other, now, maxAge), key, owner)
    ensures key !in t.versions ==> Owns(DiscardOrphans(BeginVersion(t, key, owner, beat).0, other, now, maxAge), key, owner)
    ensures Heartbeat(t, key, owner, beat).1 <==> Owns(t, key, owner)
  {
  }

  lemma BeginPaths(t: Tables, key: VersionKey, run: RunId, now: int)
    requires PathsUnique(t) && TombstonesBehind(t)
    ensures PathsUnique(BeginVersion(t, key, run, now).0) && TombstonesBehind(BeginVersion(t, key, run, now).0)
  {
  }

  lemma BeginKeeps(t: Tables, build: VersionId -> seq<Chunk>, key: VersionKey, run: RunId, now: int)
    requires Consistent(t, build)
    ensures Consistent(BeginVersion(t, key, run, now).0, build)
  {
    hide HasExactly, PathsUnique, TombstonesBehind;
    BeginPaths(t, key, run, now);
    var t' := BeginVersion(t, key, run, now).0;
    forall s | s in t'.sources && t'.sources[s].active.Some?
      ensures CompleteAt(t', build, s)
    {
      assert CompleteAt(t, build, s);
    }
  }

  lemma HeartbeatKeeps(t: Tables, build: VersionId -> seq<Chunk>, key: VersionKey, run: RunId, now: int)
    requires Consistent(t, build)
    ensures Consistent(Heartbeat(t, key, run, now).0, build)
  {
    hide HasExactly;
    var t' := Heartbeat(t, key, run, now).0;
    forall s | s in t'.sources && t'.sources[s].active.Some?
      ensures CompleteAt(t', build, s)
    {
      assert CompleteAt(t, build, s);
    }
  }

  /** Upserting touches the rows of one version only, and makes them the given chunks. */
  lemma {:induction false} UpsertRows(table: map<ChunkKey, Chunk>, key: VersionKey, chunks: seq<Chunk>, first: nat)
    requires forall i :: 0 <= i < |chunks| ==> chunks[i].ordinal == first + i
    ensures var table' := Upsert(table, key, chunks);
            && (forall c: ChunkKey :: c.at != key || c.ordinal < first || c.ordinal >= first + |chunks| ==>
                  (c in table' <==> c in table) && (c in table ==> table'[c] == table[c]))
            && (forall i: nat :: first <= i < first + |chunks| ==>
                  ChunkKey(key, i) in table' && table'[ChunkKey(key, i)] == chunks[i - first])
    decreases |chunks|
  {
    if chunks != [] {
      UpsertRows(table[ChunkKey(key, first) := chunks[0]], key, chunks[1..], first + 1);
      forall i: nat | first <= i < first + |chunks|
        ensures ChunkKey(key, i) in Upsert(table, key, chunks)
        ensures Upsert(table, key, chunks)[ChunkKey(key, i)] == chunks[i - first]
      {
        assert i > first ==> chunks[i - first] == chunks[1..][i - first - 1];
      }
    }
  }

  lemma PutKeeps(t: Tables, build: VersionId -> seq<Chunk>, key: VersionKey, run: RunId, chunks: seq<Chunk>, first: nat)
    requires Consistent(t, build)
    requires forall i :: 0 <= i < |chunks| ==> chunks[i].ordinal == first + i
    ensures Consistent(PutChunks(t, key, run, chunks), build)
  {
    hide Upsert, PathsUnique, OnlyActiveReady, TombstonesBehind, RowsLabelled;
    PutOthers(t, key, run, chunks);
    var t' := PutChunks(t, key, run, chunks);
    UpsertRows(t.chunks, key, chunks, first);
    forall s | s in t'.sources && t'.sources[s].active.Some?
      ensures CompleteAt(t', build, s)
    {
      assert CompleteAt(t, build, s);
    }
    PutRows(t, key, run, chunks, first);
  }

  lemma PutOthers(t: Tables, key: VersionKey, run: RunId, chunks: seq<Chunk>)
    requires PathsUnique(t) && OnlyActiveReady(t) && TombstonesBehind(t)
    ensures var t' := PutChunks(t, key, run, chunks);
            PathsUnique(t') && OnlyActiveReady(t') && TombstonesBehind(t')
  {
    hide Upsert;
  }

  lemma PutRows(t: Tables, key: VersionKey, run: RunId, chunks: seq<Chunk>, first: nat)
    requires RowsLabelled(t)
    requires forall i :: 0 <= i < |chunks| ==> chunks[i].ordinal == first + i
    ensures RowsLabelled(PutChunks(t, key, run, chunks))
  {
    hide Upsert;
    UpsertRows(t.chunks, key, chunks, first);
    forall c | c in PutChunks(t, key, run, chunks).chunks
      ensures c.at in t.versions
    {
      if c.at != key { assert c in t.chunks; }
    }
  }

  /** A further stretch of a candidate's chunks extends the rows it already has. */
  lemma PutExtends(t: Tables, key: VersionKey, run: RunId, all: seq<Chunk>, done: nat, upto: nat)
    requires done <= upto <= |all| && Owns(t, key, run) && HasExactly(t.chunks, key, all[..done])
    requires forall i :: 0 <= i < |all| ==> all[i].ordinal == i
    ensures HasExactly(PutChunks(t, key, run, all[done..upto]).chunks, key, all[..upto])
  {
    hide Upsert;
    var t' := PutChunks(t, key, run, all[done..upto]);
    UpsertRows(t.chunks, key, all[done..upto], done);
    forall i: nat
      ensures ChunkKey(key, i) in t'.chunks <==> i < upto
      ensures i < upto && ChunkKey(key, i) in t'.chunks ==> t'.chunks[ChunkKey(key, i)] == all[..upto][i]
    {
      assert i < done ==> all[..done][i] == all[..upto][i];
      assert done <= i < upto ==> all[done..upto][i - done] == all[..upto][i];
    }
  }

  lemma PromotedComplete(t: Tables, build: VersionId -> seq<Chunk>, key: VersionKey, size: int, mtime: int, s: SourceId)
    requires Consistent(t, build) && key.source in t.sources && key in t.versions
    requires HasExactly(t.chunks, key, build(key.version))
    requires s in t.sources && (s == key.source || t.sources[s].active.Some?)
    ensures var p := Promote(t, key, size, mtime, |build(key.version)|);
            CompleteAt(RemoveVersions(p, Superseded(p, key)), build, s)
  {
    var p := Promote(t, key, size, mtime, |build(key.version)|);
    var t' := RemoveVersions(p, Superseded(p, key));
    if s != key.source {
      assert CompleteAt(t, build, s);
    }
    var k := VersionKey(s, t'.sources[s].active.value);
    assert forall i: nat :: ChunkKey(k, i) in t'.chunks <==> ChunkKey(k, i) in t.chunks;
  }

  lemma PromotedRows(t: Tables, key: VersionKey, size: int, mtime: int, count: nat)
    requires OnlyActiveReady(t) && RowsLabelled(t) && key.source in t.sources && key in t.versions
    ensures var p := Promote(t, key, size, mtime, count);
            var t' := RemoveVersions(p, Superseded(p, key));
            OnlyActiveReady(t') && RowsLabelled(t')
  {
  }

  lemma PromotedSources(t: Tables, key: VersionKey, size: int, mtime: int, count: nat)
    requires PathsUnique(t) && TombstonesBehind(t) && key.source in t.sources && key in t.versions
    ensures var p := Promote(t, key, size, mtime, count);
            var t' := RemoveVersions(p, Superseded(p, key));
            PathsUnique(t') && TombstonesBehind(t') && t'.sources.Keys == t.sources.Keys
  {
  }

  /** Only a candidate whose chunks are all there may be promoted; then the index is consistent again. */
  lemma ActivateKeeps(t: Tables, build: VersionId -> seq<Chunk>, key: VersionKey, size: int, mtime: int,
                      expected: Source, run: RunId)
    requires Consistent(t, build)
    requires Owns(t, key, run) ==> HasExactly(t.chunks, key, build(key.version))
    ensures Consistent(ActivateVersion(t, key, size, mtime, |build(key.version)|, expected, run).0, build)
  {
    hide HasExactly, CompleteAt, PathsUnique, OnlyActiveReady, RowsLabelled, TombstonesBehind;
    if Promotable(t, key, expected, run) {
      PromotedRows(t, key, size, mtime, |build(key.version)|);
      PromotedSources(t, key, size, mtime, |build(key.version)|);
      var p := Promote(t, key, size, mtime, |build(key.version)|);
      var t' := RemoveVersions(p, Superseded(p, key));
      forall s | s in t'.sources && t'.sources[s].active.Some?
        ensures CompleteAt(t', build, s)
      {
        PromotedComplete(t, build, key, size, mtime, s);
      }
    } else {
      NothingSuperseded(t, build, key);
    }
  }

  lemma NothingSuperseded(t: Tables, build: VersionId -> seq<Chunk>, key: VersionKey)
    requires Consistent(t, build)
    ensures DropSuperseded(t, key) == t
  {
    if key.source in t.sources && t.sources[key.source].active == Some(key.version) {
      assert Superseded(t, key) == {};
      var t' := RemoveVersions(t, {});
      assert t'.versions == t.versions && t'.chunks == t.chunks;
    }
  }

  lemma DeleteKeeps(t: Tables, build: VersionId -> seq<Chunk>, id: SourceId, reasonHash: Hash,
                    expectedPath: Path, expectedGeneration: nat)
    requires Consistent(t, build)
    ensures Consistent(DeleteSource(t, id, reasonHash, expectedPath, expectedGeneration).0, build)
  {
    var t' := DeleteSource(t, id, reasonHash, expectedPath, expectedGeneration).0;
    forall s | s in t'.sources && t'.sources[s].active.Some?
      ensures CompleteAt(t', build, s)
    {
      assert CompleteAt(t, build, s);
    }
  }

  /**
   A move works exactly on the expected row and to a free path; the row then has the new path, media type, size and time and
   the next generation, keeps its bytes and its version, and nothing else is touched.
   */
  lemma MoveChanges(t: Tables, id: SourceId, to: Path, media: string, size: int, mtime: int, expectedPath: Path, expectedGeneration: nat)
    ensures var (t', r) := MoveSource(t, id, to, media, size, mtime, expectedPath, expectedGeneration);
            && (r.Stale? <==> !Current(t, id, expectedPath, expectedGeneration))
            && (r.PathConflict? <==> Current(t, id, expectedPath, expectedGeneration) && to != expectedPath
                                     && exists s :: s in t.sources && t.sources[s].path == to)
            && (!r.MovedTo? ==> t' == t)
            && (r.MovedTo? ==>
                  && r.generation == expectedGeneration + 1 && id in t.sources
                  && t'.sources == t.sources[id := Source(to, media, size, mtime, t.sources[id].hash, t.sources[id].active, r.generation)]
                  && t'.versions == t.versions && t'.chunks == t.chunks && t'.tombstones == t.tombstones && t'.events == t.events)
  {
  }

  /**
   A delete works exactly on the expected row; it takes every version and chunk of the source, touches nothing else, and its
   tombstone makes a later life of the id start beyond every generation the deleted life had.
   */
  lemma DeleteRemoves(t: Tables, build: VersionId -> seq<Chunk>, id: SourceId, reasonHash: Hash,
                      expectedPath: Path, expectedGeneration: nat, path: Path, media: string, size: int, mtime: int, hash: Hash)
    requires Consistent(t, build)
    ensures var (t', next) := DeleteSource(t, id, reasonHash, expectedPath, expectedGeneration);
            && (next.Some? <==> Current(t, id, expectedPath, expectedGeneration)) && (next.None? ==> t' == t)
            && (next.Some? ==>
                  && t'.sources == t.sources - {id} && t'.events == t.events
                  && (forall k :: k in t'.versions <==> k in t.versions && k.source != id)
                  && (forall k :: k in t'.versions ==> t'.versions[k] == t.versions[k])
                  && (forall c :: c in t'.chunks <==> c in t.chunks && c.at.source != id)
                  && (forall c :: c in t'.chunks ==> t'.chunks[c] == t.chunks[c])
                  && t'.tombstones == t.tombstones[id := Tombstone(expectedPath, reasonHash, next.value)]
                  && (InsertSource(t', id, path, media, size, mtime, hash).1 <==> !PathTaken(t', path))
                  && forall p, g: nat :: g <= expectedGeneration ==>
                       !Current(InsertSource(t', id, path, media, size, mtime, hash).0, id, p, g))
  {
  }

  lemma EventKeeps(t: Tables, build: VersionId -> seq<Chunk>, event: EventKey)
    requires Consistent(t, build)
    ensures Consistent(AppendEvent(t, event).0, build)
  {
    hide HasExactly;
    var t' := AppendEvent(t, event).0;
    forall s | s in t'.sources && t'.sources[s].active.Some?
      ensures CompleteAt(t', build, s)
    {
      assert CompleteAt(t, build, s);
    }
  }
}
