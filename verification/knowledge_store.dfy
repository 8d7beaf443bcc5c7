/**
 The knowledge store as an object: every method is one statement (or transaction) of the SQL repository, proved
 against the table function of the same name.
 */
module KnowledgeStore {
  import opened Wrappers
  import opened Documents
  import T = KnowledgeTables
  import opened KnowledgeTables

  const MAX_CHUNK_BATCH: nat := 200
  const MAX_CHUNK_BATCH_BYTES: nat := 256 * 1024

  // ---- batching of chunk statements ----

  function Flatten(batches: seq<seq<Chunk>>): seq<Chunk> {
    if batches == [] then [] else Flatten(batches[..|batches| - 1]) + batches[|batches| - 1]
  }

  function FrameBytes(batch: seq<Chunk>, bytes: Chunk -> nat): nat {
    if batch == [] then 0 else FrameBytes(batch[..|batch| - 1], bytes) + bytes(batch[|batch| - 1])
  }

  predicate FitsFrame(batch: seq<Chunk>, bytes: Chunk -> nat) {
    0 < |batch| <= 200 && FrameBytes(batch, bytes) <= 262_144
  }

  predicate Oversized(chunks: seq<Chunk>, bytes: Chunk -> nat) {
    exists i :: 0 <= i < |chunks| && bytes(chunks[i]) > 262_144
  }

  /** Every batch fits a frame, and none was closed while the next chunk still fitted. */
  ghost predicate Packed(batches: seq<seq<Chunk>>, bytes: Chunk -> nat) {
    && (forall i :: 0 <= i < |batches| ==> FitsFrame(batches[i], bytes))
    && (forall i :: 0 < i < |batches| ==> Full(batches[i - 1], batches[i], bytes))
  }

  predicate Full(batch: seq<Chunk>, next: seq<Chunk>, bytes: Chunk -> nat) {
    next != [] && !FitsFrame(batch + [next[0]], bytes)
  }

  lemma PackedAppend(batches: seq<seq<Chunk>>, batch: seq<Chunk>, bytes: Chunk -> nat)
    requires Packed(batches, bytes) && FitsFrame(batch, bytes)
    requires batches != [] ==> Full(batches[|batches| - 1], batch, bytes)
    ensures Packed(batches + [batch], bytes)
    ensures Flatten(batches + [batch]) == Flatten(batches) + batch
  {
    hide FitsFrame, Full, Flatten;
    FlattenAppend(batches, batch);
  }

  lemma FlattenAppend(batches: seq<seq<Chunk>>, batch: seq<Chunk>)
    ensures Flatten(batches + [batch]) == Flatten(batches) + batch
  {
    assert (batches + [batch])[..|batches|] == batches;
  }

  lemma GrowBatch(batch: seq<Chunk>, chunk: Chunk, bytes: Chunk -> nat)
    ensures FrameBytes(batch + [chunk], bytes) == FrameBytes(batch, bytes) + bytes(chunk)
  {
    assert (batch + [chunk])[..|batch|] == batch;
  }

  /**
   The batch loop of `insert_chunks`: the batches to commit, in order, and whether a single chunk exceeds the
   frame budget. Without such a chunk the batches are all chunks, in order, each within both frame limits and
   none closed while its successor's first chunk still fitted.
   */
  method PlanBatches(chunks: seq<Chunk>, bytes: Chunk -> nat) returns (batches: seq<seq<Chunk>>, failed: bool)
    ensures failed <==> Oversized(chunks, bytes)
    ensures Flatten(batches) <= chunks && (!failed ==> Flatten(batches) == chunks)
    ensures Packed(batches, bytes)
  {
    hide Packed, Flatten, FrameBytes;
    batches := [];
    var batch: seq<Chunk> := [];
    var batchBytes := 0;
    NoBatches(bytes);
    for i := 0 to |chunks|
      invariant Flatten(batches) + batch == chunks[..i] && batchBytes == FrameBytes(batch, bytes)
      invariant batch == [] ==> batches == []
      invariant batch != [] ==> FitsFrame(batch, bytes)
      invariant Packed(batches, bytes)
      invariant batches != [] ==> Full(batches[|batches| - 1], batch, bytes)
      invariant forall j :: 0 <= j < i ==> bytes(chunks[j]) <= MAX_CHUNK_BATCH_BYTES
    {
      var chunk := chunks[i];
      if bytes(chunk) > MAX_CHUNK_BATCH_BYTES {
        return batches, true;
      }
      GrowBatch(batch, chunk, bytes);
      if batch != [] && (|batch| >= MAX_CHUNK_BATCH || batchBytes + bytes(chunk) > MAX_CHUNK_BATCH_BYTES) {
        PackedAppend(batches, batch, bytes);
        batches := batches + [batch];
        batch, batchBytes := [], 0;
        GrowBatch([], chunk, bytes);
        NoBatches(bytes);
      }
      batch := batch + [chunk];
      batchBytes := batchBytes + bytes(chunk);
    }
    if batch != [] {
      PackedAppend(batches, batch, bytes);
      batches := batches + [batch];
    }
    failed := false;
  }

  lemma NoBatches(bytes: Chunk -> nat)
    ensures Packed([], bytes) && Flatten([]) == [] && FrameBytes([], bytes) == 0
  {
  }

  lemma {:induction false} UpsertConcat(table: map<ChunkKey, Chunk>, key: VersionKey, a: seq<Chunk>, b: seq<Chunk>)
    ensures Upsert(Upsert(table, key, a), key, b) == Upsert(table, key, a + b)
    decreases |a|
  {
    if a == [] {
      assert a + b == b;
    } else {
      assert (a + b)[1..] == a[1..] + b;
      UpsertConcat(table[ChunkKey(key, a[0].ordinal) := a[0]], key, a[1..], b);
    }
  }

  class Store {
    var sources: map<SourceId, Source>
    var versions: map<VersionKey, VersionRow>
    var chunks: map<ChunkKey, Chunk>
    var tombstones: map<SourceId, Tombstone>
    var events: set<EventKey>

    function View(): Tables
      reads this
    {
      Tables(sources, versions, chunks, tombstones, events)
    }

    constructor ()
      ensures View() == EMPTY_TABLES
    {
      sources, versions, chunks, tombstones, events := map[], map[], map[], map[], {};
    }

    /** Inserts unless the id or the path is taken, then reads back whatever source is at the path. */
    method InsertSource(id: SourceId, path: Path, media: string, size: int, mtime: int, hash: Hash)
      returns (row: Option<(SourceId, Source)>, created: bool)
      modifies this
      ensures (View(), created) == T.InsertSource(old(View()), id, path, media, size, mtime, hash)
      ensures row.Some? <==> PathTaken(View(), path)
      ensures row.Some? ==> row.value.0 in sources && sources[row.value.0] == row.value.1 && row.value.1.path == path
    {
      created := false;
      if id !in sources && forall s :: s in sources ==> sources[s].path != path {
        var birth := if id in tombstones then tombstones[id].generation else 0;
        sources := sources[id := Source(path, media, size, mtime, hash, None, birth)];
        created := true;
      }
      row := None;
      if s :| s in sources && sources[s].path == path {
        row := Some((s, sources[s]));
      }
      assert created ==> sources[id].path == path;
    }

    method MoveSource(id: SourceId, to: Path, media: string, size: int, mtime: int, expectedPath: Path, expectedGeneration: nat)
      returns (r: MoveResult)
      modifies this`sources
      ensures (View(), r) == T.MoveSource(old(View()), id, to, media, size, mtime, expectedPath, expectedGeneration)
    {
      if id !in sources || sources[id].path != expectedPath || sources[id].generation != expectedGeneration {
        return Stale;
      }
      if to != expectedPath && exists s :: s in sources && sources[s].path == to {
        return PathConflict;
      }
      var row := sources[id];
      sources := sources[id := Source(to, media, size, mtime, row.hash, row.active, row.generation + 1)];
      r := MovedTo(row.generation + 1);
    }

    method BeginVersion(key: VersionKey, run: RunId, now: int) returns (owns: bool)
      modifies this`versions
      ensures (View(), owns) == T.BeginVersion(old(View()), key, run, now)
    {
      owns := key !in versions;
      if owns {
        versions := versions[key := VersionRow(key.version.hash, key.version.identity, false, 0, Some(run), now)];
      }
    }

    method HeartbeatVersion(key: VersionKey, run: RunId, now: int) returns (alive: bool)
      modifies this`versions
      ensures (View(), alive) == T.Heartbeat(old(View()), key, run, now)
    {
      alive := key in versions && !versions[key].ready && versions[key].builtBy == Some(run);
      if alive {
        versions := versions[key := versions[key].(heartbeat := now)];
      }
    }

    /** One transaction: each upsert is guarded by the candidate still being owned. */
    method PutBatch(key: VersionKey, run: RunId, batch: seq<Chunk>)
      modifies this`chunks
      ensures View() == T.PutChunks(old(View()), key, run, batch)
    {
      var guarded := key in versions && !versions[key].ready && versions[key].builtBy == Some(run);
      for i := 0 to |batch|
        invariant guarded == T.Owns(old(View()), key, run)
        invariant guarded ==> T.Upsert(chunks, key, batch[i..]) == T.Upsert(old(chunks), key, batch)
        invariant !guarded ==> chunks == old(chunks)
      {
        if guarded {
          assert batch[i..][1..] == batch[i + 1..];
          chunks := chunks[ChunkKey(key, batch[i].ordinal) := batch[i]];
        }
      }
    }

    /**
     Commits the batches one by one, with a heartbeat after each; fails on an oversized chunk or a lost candidate.
     `part` is what was written: everything exactly when the call succeeds.
     */
    method InsertChunks(key: VersionKey, run: RunId, all: seq<Chunk>, bytes: Chunk -> nat, now: int)
      returns (ok: bool, ghost part: seq<Chunk>)
      modifies this`chunks, this`versions
      ensures part <= all && View() == Written(old(View()), key, run, part, now)
      ensures T.Owns(old(View()), key, run) ==> (ok <==> !Oversized(all, bytes)) && (ok ==> part == all)
      ensures !T.Owns(old(View()), key, run) ==> part == [] && (ok ==> all == [])
    {
      hide Oversized, Packed, Flatten, Upsert;
      var batches, failed := PlanBatches(all, bytes);
      ghost var before := View();
      part := [];
      FlattenNone();
      for i := 0 to |batches|
        invariant part == Flatten(batches[..i]) && View() == Written(before, key, run, part, now)
        invariant i > 0 ==> T.Owns(before, key, run)
      {
        FlattenStep(batches, i);
        PackedNonEmpty(batches, i, bytes);
        FlattenPrefix(batches, i);
        WrittenMore(before, key, run, part, batches[i], now);
        PutBatch(key, run, batches[i]);
        var alive := HeartbeatVersion(key, run, now);
        if !alive { return false, part; }
        part := part + batches[i];
      }
      assert batches[..|batches|] == batches;
      ok := !failed;
    }

    method RemoveVersions(dead: set<VersionKey>)
      modifies this`versions, this`chunks
      ensures View() == T.RemoveVersions(old(View()), dead)
    {
      versions := map k | k in versions && k !in dead :: versions[k];
      chunks := map c | c in chunks && c.at !in dead :: chunks[c];
    }

    /** The activation transaction: promote the candidate if the whole snapshot still holds, then drop superseded versions. */
    method ActivateVersion(key: VersionKey, size: int, mtime: int, chunkCount: nat, expected: Source, run: RunId)
      returns (generation: Option<nat>)
      modifies this`sources, this`versions, this`chunks
      ensures (View(), generation) == T.ActivateVersion(old(View()), key, size, mtime, chunkCount, expected, run)
    {
      generation := None;
      var s := key.source;
      if s in sources && sources[s].path == expected.path && sources[s].generation == expected.generation
         && sources[s].active == expected.active
         && key in versions && !versions[key].ready && versions[key].builtBy == Some(run) {
        versions := versions[key := versions[key].(ready := true, chunkCount := chunkCount, builtBy := None)];
        sources := sources[s := sources[s].(active := Some(key.version), hash := key.version.hash, size := size,
                                            mtime := mtime, generation := sources[s].generation + 1)];
        generation := Some(sources[s].generation);
        assert View() == T.Promote(old(View()), key, size, mtime, chunkCount);
      }
      if s in sources && sources[s].active == Some(key.version) {
        var superseded := set k | k in versions && k.source == s && k != key && versions[k].ready;
        RemoveVersions(superseded);
      }
    }

    method FailVersion(key: VersionKey, run: RunId)
      modifies this`versions, this`chunks
      ensures View() == T.FailVersion(old(View()), key, run)
    {
      if key in versions && !versions[key].ready && versions[key].builtBy == Some(run) {
        RemoveVersions({key});
      }
    }

    method DiscardOrphans(run: RunId, now: int, maxAge: nat)
      modifies this`versions, this`chunks
      ensures View() == T.DiscardOrphans(old(View()), run, now, maxAge)
    {
      var orphans := set k | k in versions && !versions[k].ready && versions[k].builtBy != Some(run)
                             && versions[k].heartbeat < now - maxAge;
      RemoveVersions(orphans);
    }

    /** One statement: chunks, versions, tombstone and source row go together, or nothing happens. */
    method DeleteSource(id: SourceId, reasonHash: Hash, expectedPath: Path, expectedGeneration: nat)
      returns (generation: Option<nat>)
      modifies this
      ensures (View(), generation) == T.DeleteSource(old(View()), id, reasonHash, expectedPath, expectedGeneration)
    {
      if id !in sources || sources[id].path != expectedPath || sources[id].generation != expectedGeneration {
        return None;
      }
      chunks := map c | c in chunks && c.at.source != id :: chunks[c];
      versions := map k | k in versions && k.source != id :: versions[k];
      tombstones := tombstones[id := Tombstone(expectedPath, reasonHash, expectedGeneration + 1)];
      sources := map s | s in sources && s != id :: sources[s];
      generation := Some(expectedGeneration + 1);
    }

    method AppendEvent(event: EventKey) returns (inserted: bool)
      modifies this`events
      ensures (View(), inserted) == T.AppendEvent(old(View()), event)
      ensures Count(events) == Count(old(events)) + if inserted then 1 else 0
    {
      inserted := event !in events;
      CountWith(events, event);
      events := events + {event};
    }
  }

  function Count(events: set<EventKey>): nat {
    |events|
  }

  lemma CountWith(events: set<EventKey>, event: EventKey)
    ensures |events + {event}| == |events| + if event in events then 0 else 1
  {
    if event in events { assert events + {event} == events; }
  }

  /** The tables after `part` has been written in batches, each followed by a heartbeat. */
  function Written(t: Tables, key: VersionKey, run: RunId, part: seq<Chunk>, now: int): Tables {
    if part == [] then t else T.Heartbeat(T.PutChunks(t, key, run, part), key, run, now).0
  }

  lemma WrittenMore(t: Tables, key: VersionKey, run: RunId, part: seq<Chunk>, batch: seq<Chunk>, now: int)
    requires batch != [] && (part != [] ==> T.Owns(t, key, run))
    ensures T.Owns(Written(t, key, run, part, now), key, run) == T.Owns(t, key, run)
    ensures var put := T.PutChunks(Written(t, key, run, part, now), key, run, batch);
            && T.Heartbeat(put, key, run, now).1 == T.Owns(t, key, run)
            && (T.Owns(t, key, run) ==> T.Heartbeat(put, key, run, now).0 == Written(t, key, run, part + batch, now))
            && (!T.Owns(t, key, run) ==> T.Heartbeat(put, key, run, now).0 == Written(t, key, run, part, now))
  {
    UpsertConcat(t.chunks, key, part, batch);
    hide Upsert;
    assert part == [] ==> part + batch == batch;
  }

  lemma FlattenNone()
    ensures Flatten([]) == []
  {
  }

  lemma FlattenStep(batches: seq<seq<Chunk>>, i: nat)
    requires i < |batches|
    ensures Flatten(batches[..i + 1]) == Flatten(batches[..i]) + batches[i]
  {
    assert batches[..i + 1][..i] == batches[..i];
  }

  lemma PackedNonEmpty(batches: seq<seq<Chunk>>, i: nat, bytes: Chunk -> nat)
    requires Packed(batches, bytes) && i < |batches|
    ensures batches[i] != []
  {
  }

  lemma {:induction false} FlattenPrefix(batches: seq<seq<Chunk>>, i: nat)
    requires i <= |batches|
    ensures Flatten(batches[..i]) <= Flatten(batches)
  {
    if i < |batches| {
      FlattenPrefix(batches[..|batches| - 1], i);
      assert batches[..|batches| - 1][..i] == batches[..i];
    } else {
      assert batches[..i] == batches;
    }
  }
}
