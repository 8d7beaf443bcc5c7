/**
 Reconciliation runs racing on one knowledge index. Every run builds one candidate at a time; each step is one
 statement or transaction of some run, and runs may interleave, lose responses, abort or crash anywhere. The
 expected snapshots a run passes along are arbitrary: safety must not depend on them being fresh.
 */
module KnowledgeMachine {
  import opened Wrappers
  import opened Documents
  import opened KnowledgeTables

  /** A build in progress: the first `done` chunks have been written. */
  datatype Flight = Flight(key: VersionKey, expected: Source, done: nat)

  datatype World = World(t: Tables, flights: map<RunId, Flight>)

  datatype Step =
    | Insert(id: SourceId, path: Path, media: string, size: int, mtime: int, hash: Hash)
    | Move(id: SourceId, to: Path, media: string, size: int, mtime: int, from: Path, generation: nat)
    | Delete(id: SourceId, hash: Hash, from: Path, generation: nat)
    | Sweep(run: RunId, now: int, maxAge: nat)
    | Begin(run: RunId, key: VersionKey, expected: Source, now: int)
    | BeginLost(run: RunId, key: VersionKey, now: int)
    | Put(run: RunId, upto: nat)
    | Beat(run: RunId, now: int)
    | Activate(run: RunId, size: int, mtime: int)
    | Abort(run: RunId)
    | Crash(run: RunId)
    | Record(event: EventKey)

  type Build = VersionId -> seq<Chunk>

  function Land(w: World, run: RunId): World {
    w.(flights := map r | r in w.flights && r != run :: w.flights[r])
  }

  /** One step; a step that is not enabled changes nothing. */
  function Next(w: World, build: Build, step: Step): World {
    match step
    case Insert(id, path, media, size, mtime, hash) =>
      w.(t := InsertSource(w.t, id, path, media, size, mtime, hash).0)
    case Move(id, to, media, size, mtime, from, generation) =>
      w.(t := MoveSource(w.t, id, to, media, size, mtime, from, generation).0)
    case Delete(id, hash, from, generation) =>
      w.(t := DeleteSource(w.t, id, hash, from, generation).0)
    case Sweep(run, now, maxAge) => w.(t := DiscardOrphans(w.t, run, now, maxAge))
    case Begin(run, key, expected, now) =>
      if run in w.flights then w else
      var (t', owns) := BeginVersion(w.t, key, run, now);
      if owns then World(t', w.flights[run := Flight(key, expected, 0)]) else w
    case BeginLost(run, key, now) =>
      if run in w.flights then w else w.(t := BeginVersion(w.t, key, run, now).0)
    case Put(run, upto) =>
      if run !in w.flights || !(w.flights[run].done <= upto <= |build(w.flights[run].key.version)|) then w else
      var f := w.flights[run];
      World(PutChunks(w.t, f.key, run, build(f.key.version)[f.done..upto]), w.flights[run := f.(done := upto)])
    case Beat(run, now) =>
      if run !in w.flights then w else
      var (t', alive) := Heartbeat(w.t, w.flights[run].key, run, now);
      if alive then w.(t := t') else Land(w, run)
    case Activate(run, size, mtime) =>
      if run !in w.flights || w.flights[run].done != |build(w.flights[run].key.version)| then w else
      var f := w.flights[run];
      var (t', generation) := ActivateVersion(w.t, f.key, size, mtime, f.done, f.expected, run);
      if generation.Some? then Land(w.(t := t'), run) else w.(t := t')
    case Abort(run) =>
      if run !in w.flights then w else Land(w.(t := FailVersion(w.t, w.flights[run].key, run)), run)
    case Crash(run) => Land(w, run)
    case Record(event) => w.(t := AppendEvent(w.t, event).0)
  }

  function Exec(w: World, build: Build, steps: seq<Step>): World {
    if steps == [] then w else Next(Exec(w, build, steps[..|steps| - 1]), build, steps[|steps| - 1])
  }

  const START := World(EMPTY_TABLES, map[])

  // ---- the invariant ----

  /** As long as a candidate is still owned by the run that began it, it holds exactly what that run wrote. */
  ghost predicate FlightOk(t: Tables, build: Build, run: RunId, f: Flight) {
    && f.done <= |build(f.key.version)|
    && (Owns(t, f.key, run) ==> HasExactly(t.chunks, f.key, build(f.key.version)[..f.done]))
  }

  ghost predicate FlightsOk(t: Tables, flights: map<RunId, Flight>, build: Build) {
    forall r :: r in flights ==> FlightOk(t, build, r, flights[r])
  }

  ghost predicate Inv(w: World, build: Build) {
    Consistent(w.t, build) && FlightsOk(w.t, w.flights, build)
  }

  /** A change of the tables that leaves alone the chunks of every version still owned keeps flights in order. */
  lemma FlightsFrame(t: Tables, t': Tables, flights: map<RunId, Flight>, build: Build)
    requires FlightsOk(t, flights, build)
    requires forall r :: r in flights && Owns(t', flights[r].key, r) ==>
      Owns(t, flights[r].key, r) && SameRows(t.chunks, t'.chunks, flights[r].key)
    ensures FlightsOk(t', flights, build)
  {
    forall r | r in flights
      ensures FlightOk(t', build, r, flights[r])
    {
      assert FlightOk(t, build, r, flights[r]);
    }
  }

  ghost predicate SameRows(before: map<ChunkKey, Chunk>, after: map<ChunkKey, Chunk>, key: VersionKey) {
    forall i: nat :: (ChunkKey(key, i) in after <==> ChunkKey(key, i) in before) &&
                     (ChunkKey(key, i) in before && ChunkKey(key, i) in after ==>
                        after[ChunkKey(key, i)] == before[ChunkKey(key, i)])
  }

  lemma LandKeeps(w: World, build: Build, run: RunId)
    requires FlightsOk(w.t, w.flights, build)
    ensures FlightsOk(w.t, Land(w, run).flights, build)
  {
    hide FlightOk;
  }

  lemma RemovalFlights(t: Tables, flights: map<RunId, Flight>, build: Build, dead: set<VersionKey>)
    requires FlightsOk(t, flights, build)
    ensures FlightsOk(RemoveVersions(t, dead), flights, build)
  {
    FlightsFrame(t, RemoveVersions(t, dead), flights, build);
  }

  lemma BeginFlights(t: Tables, flights: map<RunId, Flight>, build: Build, run: RunId, key: VersionKey, now: int)
    requires RowsLabelled(t) && FlightsOk(t, flights, build) && run !in flights
    ensures FlightsOk(BeginVersion(t, key, run, now).0, flights, build)
    ensures BeginVersion(t, key, run, now).1 ==> HasExactly(t.chunks, key, [])
  {
    FlightsFrame(t, BeginVersion(t, key, run, now).0, flights, build);
  }

  lemma PutFlights(w: World, build: Build, run: RunId, upto: nat)
    requires Numbered(build) && FlightsOk(w.t, w.flights, build) && run in w.flights
    requires w.flights[run].done <= upto <= |build(w.flights[run].key.version)|
    ensures var w' := Next(w, build, Put(run, upto));
            FlightsOk(w'.t, w'.flights, build)
  {
    hide Upsert;
    var f := w.flights[run];
    var all := build(f.key.version);
    var w' := Next(w, build, Put(run, upto));
    UpsertRows(w.t.chunks, f.key, all[f.done..upto], f.done);
    assert FlightOk(w.t, build, run, f);
    forall r | r in w'.flights
      ensures FlightOk(w'.t, build, r, w'.flights[r])
    {
      assert FlightOk(w.t, build, r, w.flights[r]);
      if r == run {
        if Owns(w.t, f.key, run) { PutExtends(w.t, f.key, run, all, f.done, upto); }
      } else {
        OtherFlight(w, build, run, upto, r);
      }
    }
  }

  lemma OtherFlight(w: World, build: Build, run: RunId, upto: nat, r: RunId)
    requires Numbered(build) && FlightsOk(w.t, w.flights, build) && run in w.flights && r in w.flights && r != run
    requires w.flights[run].done <= upto <= |build(w.flights[run].key.version)|
    ensures var w' := Next(w, build, Put(run, upto)); FlightOk(w'.t, build, r, w.flights[r])
  {
    hide Upsert;
    var f, g := w.flights[run], w.flights[r];
    assert FlightOk(w.t, build, r, g);
    UpsertRows(w.t.chunks, f.key, build(f.key.version)[f.done..upto], f.done);
  }

  lemma ActivateFlights(t: Tables, flights: map<RunId, Flight>, build: Build, key: VersionKey, size: int,
                        mtime: int, count: nat, expected: Source, run: RunId)
    requires Consistent(t, build) && FlightsOk(t, flights, build)
    ensures FlightsOk(ActivateVersion(t, key, size, mtime, count, expected, run).0, flights, build)
  {
    hide FlightsOk, HasExactly;
    if Promotable(t, key, expected, run) {
      FlightsFrame(t, Promote(t, key, size, mtime, count), flights, build);
      RemovalFlights(Promote(t, key, size, mtime, count), flights, build, Superseded(Promote(t, key, size, mtime, count), key));
    } else {
      NothingSuperseded(t, build, key);
    }
  }

  // ---- every step of every run ----

  lemma SourceStepKeeps(w: World, build: Build, step: Step)
    requires Inv(w, build) && (step.Insert? || step.Move? || step.Delete? || step.Record?)
    ensures Inv(Next(w, build, step), build)
  {
    hide FlightsOk, Consistent, HasExactly;
    match step
    case Insert(id, path, media, size, mtime, hash) =>
      InsertKeeps(w.t, build, id, path, media, size, mtime, hash);
      FlightsFrame(w.t, Next(w, build, step).t, w.flights, build);
    case Move(id, to, media, size, mtime, from, generation) =>
      MoveKeeps(w.t, build, id, to, media, size, mtime, from, generation);
      FlightsFrame(w.t, Next(w, build, step).t, w.flights, build);
    case Delete(id, hash, from, generation) =>
      DeleteKeeps(w.t, build, id, hash, from, generation);
      FlightsFrame(w.t, Next(w, build, step).t, w.flights, build);
    case Record(event) =>
      EventKeeps(w.t, build, event);
      FlightsFrame(w.t, Next(w, build, step).t, w.flights, build);
  }

  lemma CandidateStepKeeps(w: World, build: Build, step: Step)
    requires Inv(w, build) && Numbered(build)
    requires step.Sweep? || step.Begin? || step.BeginLost? || step.Put? || step.Beat?
    ensures Inv(Next(w, build, step), build)
  {
    hide FlightsOk, Consistent, HasExactly;
    match step
    case Sweep(run, now, maxAge) =>
      RemoveKeeps(w.t, build, Orphans(w.t, run, now - maxAge));
      RemovalFlights(w.t, w.flights, build, Orphans(w.t, run, now - maxAge));
    case Begin(run, key, expected, now) =>
      BeginKeeps(w.t, build, key, run, now);
      if run !in w.flights && key !in w.t.versions {
        ConsistentRows(w.t, build);
        BeginFlights(w.t, w.flights, build, run, key, now);
        FlightsAdd(BeginVersion(w.t, key, run, now).0, w.flights, build, run, Flight(key, expected, 0));
      }
    case BeginLost(run, key, now) =>
      BeginKeeps(w.t, build, key, run, now);
      if run !in w.flights {
        ConsistentRows(w.t, build);
        BeginFlights(w.t, w.flights, build, run, key, now);
      }
    case Put(run, upto) =>
      if run in w.flights && w.flights[run].done <= upto <= |build(w.flights[run].key.version)| {
        var f := w.flights[run];
        PutKeeps(w.t, build, f.key, run, build(f.key.version)[f.done..upto], f.done);
        PutFlights(w, build, run, upto);
      }
    case Beat(run, now) =>
      if run in w.flights {
        HeartbeatKeeps(w.t, build, w.flights[run].key, run, now);
        FlightsFrame(w.t, Heartbeat(w.t, w.flights[run].key, run, now).0, w.flights, build);
        LandKeeps(w, build, run);
      }
  }

  lemma ConsistentRows(t: Tables, build: Build)
    requires Consistent(t, build)
    ensures RowsLabelled(t)
  {
  }

  lemma FlightsAdd(t: Tables, flights: map<RunId, Flight>, build: Build, run: RunId, f: Flight)
    requires FlightsOk(t, flights, build) && f.done == 0 && HasExactly(t.chunks, f.key, [])
    ensures FlightsOk(t, flights[run := f], build)
  {
    hide HasExactly;
    assert build(f.key.version)[..0] == [];
    var more := flights[run := f];
    forall r | r in more
      ensures FlightOk(t, build, r, more[r])
    {
      assert r != run ==> FlightOk(t, build, r, flights[r]);
    }
  }

  lemma FinishStepKeeps(w: World, build: Build, step: Step)
    requires Inv(w, build) && (step.Activate? || step.Abort? || step.Crash?)
    ensures Inv(Next(w, build, step), build)
  {
    hide FlightsOk, Consistent, HasExactly;
    match step
    case Activate(run, size, mtime) =>
      if run in w.flights && w.flights[run].done == |build(w.flights[run].key.version)| {
        var f := w.flights[run];
        FlightComplete(w, build, run);
        ActivateKeeps(w.t, build, f.key, size, mtime, f.expected, run);
        ActivateFlights(w.t, w.flights, build, f.key, size, mtime, f.done, f.expected, run);
        LandKeeps(w.(t := ActivateVersion(w.t, f.key, size, mtime, f.done, f.expected, run).0), build, run);
      }
    case Abort(run) =>
      if run in w.flights {
        var key := w.flights[run].key;
        if Owns(w.t, key, run) {
          RemoveKeeps(w.t, build, {key});
          RemovalFlights(w.t, w.flights, build, {key});
        }
        LandKeeps(w.(t := FailVersion(w.t, key, run)), build, run);
      }
    case Crash(run) => LandKeeps(w, build, run);
  }

  lemma FlightComplete(w: World, build: Build, run: RunId)
    requires FlightsOk(w.t, w.flights, build) && run in w.flights
    requires w.flights[run].done == |build(w.flights[run].key.version)|
    ensures Owns(w.t, w.flights[run].key, run) ==>
              HasExactly(w.t.chunks, w.flights[run].key, build(w.flights[run].key.version))
  {
    hide HasExactly;
    var f := w.flights[run];
    assert FlightOk(w.t, build, run, f);
    assert build(f.key.version)[..f.done] == build(f.key.version);
  }

  lemma StepKeeps(w: World, build: Build, step: Step)
    requires Inv(w, build) && Numbered(build)
    ensures Inv(Next(w, build, step), build)
  {
    hide Inv, Next, Numbered;
    if step.Insert? || step.Move? || step.Delete? || step.Record? {
      SourceStepKeeps(w, build, step);
    } else if step.Activate? || step.Abort? || step.Crash? {
      FinishStepKeeps(w, build, step);
    } else {
      CandidateStepKeeps(w, build, step);
    }
  }

  lemma {:induction false} ExecKeeps(w: World, build: Build, steps: seq<Step>)
    requires Inv(w, build) && Numbered(build)
    ensures Inv(Exec(w, build, steps), build)
  {
    hide Inv, Next, Numbered;
    if steps != [] {
      ExecKeeps(w, build, steps[..|steps| - 1]);
      StepKeeps(Exec(w, build, steps[..|steps| - 1]), build, steps[|steps| - 1]);
    }
  }

  /** The chunk rows a search can see for a source: those of its active version. */
  predicate Visible(t: Tables, c: ChunkKey) {
    c in t.chunks && c.at.source in t.sources && t.sources[c.at.source].active == Some(c.at.version)
  }

  /**
   In every reachable state, what a search can see of a source is exactly a complete build of the bytes its
   row records: never a partial, foreign or superseded one.
   */
  lemma IndexAlwaysComplete(build: Build, steps: seq<Step>, s: SourceId)
    requires Numbered(build)
    ensures var t := Exec(START, build, steps).t;
            s in t.sources && t.sources[s].active.Some? ==>
              var v := t.sources[s].active.value;
              && v.hash == t.sources[s].hash
              && (forall k :: k in t.versions && k.source == s && t.versions[k].ready <==> k == VersionKey(s, v))
              && (forall i: nat :: Visible(t, ChunkKey(VersionKey(s, v), i)) <==> i < |build(v)|)
              && (forall i :: 0 <= i < |build(v)| ==>
                    ChunkKey(VersionKey(s, v), i) in t.chunks && t.chunks[ChunkKey(VersionKey(s, v), i)] == build(v)[i])
  {
    hide Next, Exec, Numbered;
    StartOk(build);
    ExecKeeps(START, build, steps);
    var t := Exec(START, build, steps).t;
    if s in t.sources && t.sources[s].active.Some? {
      assert CompleteAt(t, build, s);
      var v := t.sources[s].active.value;
      forall k
        ensures k in t.versions && k.source == s && t.versions[k].ready <==> k == VersionKey(s, v)
      {
      }
    }
  }

  lemma StartOk(build: Build)
    ensures Inv(START, build)
  {
  }

  /** While a version stays active, no step changes, adds or removes one of its chunks. */
  lemma ActiveChunksNeverChange(w: World, build: Build, step: Step, s: SourceId)
    requires Inv(w, build) && Numbered(build)
    requires s in w.t.sources && w.t.sources[s].active.Some?
    requires s in Next(w, build, step).t.sources
    requires Next(w, build, step).t.sources[s].active == w.t.sources[s].active
    ensures SameRows(w.t.chunks, Next(w, build, step).t.chunks, VersionKey(s, w.t.sources[s].active.value))
  {
    StepKeeps(w, build, step);
    hide Next, Numbered;
    assert CompleteAt(w.t, build, s);
    assert CompleteAt(Next(w, build, step).t, build, s);
  }

  // ---- generations ----

  /** The generation of a source id, alive or remembered by its tombstone. */
  function Generation(t: Tables, s: SourceId): nat {
    if s in t.sources then t.sources[s].generation else BirthGeneration(t, s)
  }

  /** The transition a step commits: a move, an activation or a deletion, with the generation it returns. */
  function Fired(w: World, build: Build, step: Step): Option<(SourceId, nat)> {
    match step
    case Move(id, to, media, size, mtime, from, generation) =>
      var r := MoveSource(w.t, id, to, media, size, mtime, from, generation).1;
      if r.MovedTo? then Some((id, r.generation)) else None
    case Delete(id, hash, from, generation) =>
      var r := DeleteSource(w.t, id, hash, from, generation).1;
      if r.Some? then Some((id, r.value)) else None
    case Activate(run, size, mtime) =>
      if run in w.flights && w.flights[run].done == |build(w.flights[run].key.version)| then
        var f := w.flights[run];
        var r := ActivateVersion(w.t, f.key, size, mtime, f.done, f.expected, run).1;
        if r.Some? then Some((f.key.source, r.value)) else None
      else None
    case _ => None
  }

  /** Either the step commits a transition of `s` and takes the next generation, or the row of `s` is untouched. */
  ghost predicate GenerationRule(t: Tables, t': Tables, fired: Option<(SourceId, nat)>, s: SourceId) {
    if fired.Some? && fired.value.0 == s then
      s in t.sources && fired.value.1 == Generation(t', s) == Generation(t, s) + 1
    else
      && Generation(t', s) == Generation(t, s)
      && (s in t.sources ==> s in t'.sources && t'.sources[s] == t.sources[s])
  }

  lemma QuietStep(w: World, build: Build, step: Step)
    requires !step.Insert? && !step.Move? && !step.Delete? && !step.Activate?
    ensures Next(w, build, step).t.sources == w.t.sources && Next(w, build, step).t.tombstones == w.t.tombstones
  {
    hide Upsert, Superseded, Orphans;
  }

  lemma ActivateStep(w: World, build: Build, step: Step, s: SourceId)
    requires step.Activate?
    ensures GenerationRule(w.t, Next(w, build, step).t, Fired(w, build, step), s)
  {
  }

  lemma GenerationStep(w: World, build: Build, step: Step, s: SourceId)
    requires TombstonesBehind(w.t)
    ensures GenerationRule(w.t, Next(w, build, step).t, Fired(w, build, step), s)
  {
    if step.Activate? {
      ActivateStep(w, build, step, s);
    } else if !step.Insert? && !step.Move? && !step.Delete? {
      QuietStep(w, build, step);
      hide Next;
    }
  }

  function At(w: World, build: Build, steps: seq<Step>, i: nat): World
    requires i <= |steps|
  {
    Exec(w, build, steps[..i])
  }

  lemma AtStep(w: World, build: Build, steps: seq<Step>, i: nat)
    requires i < |steps|
    ensures At(w, build, steps, i + 1) == Next(At(w, build, steps, i), build, steps[i])
  {
    assert steps[..i + 1][..i] == steps[..i];
  }

  ghost predicate FiredAt(w: World, build: Build, steps: seq<Step>, i: nat, s: SourceId)
    requires i < |steps|
  {
    var f := Fired(At(w, build, steps, i), build, steps[i]);
    f.Some? && f.value.0 == s
  }

  lemma TombstonesAt(w: World, build: Build, steps: seq<Step>, i: nat)
    requires Inv(w, build) && Numbered(build) && i <= |steps|
    ensures TombstonesBehind(At(w, build, steps, i).t)
  {
    hide Exec, Numbered;
    ExecKeeps(w, build, steps[..i]);
  }

  /** Generations never go back, and an unchanged generation means an untouched row. */
  lemma {:induction false} GenerationHistory(w: World, build: Build, steps: seq<Step>, i: nat, j: nat, s: SourceId)
    requires Inv(w, build) && Numbered(build) && i <= j <= |steps|
    ensures Generation(At(w, build, steps, i).t, s) <= Generation(At(w, build, steps, j).t, s)
    ensures (forall k :: i <= k < j ==> !FiredAt(w, build, steps, k, s)) <==>
            Generation(At(w, build, steps, i).t, s) == Generation(At(w, build, steps, j).t, s)
    ensures s in At(w, build, steps, i).t.sources
            && Generation(At(w, build, steps, i).t, s) == Generation(At(w, build, steps, j).t, s) ==>
              s in At(w, build, steps, j).t.sources
              && At(w, build, steps, j).t.sources[s] == At(w, build, steps, i).t.sources[s]
    decreases j - i
  {
    hide Inv, Numbered, Next, Exec, At, Generation, Fired;
    if i < j {
      GenerationHistory(w, build, steps, i, j - 1, s);
      TombstonesAt(w, build, steps, j - 1);
      AtStep(w, build, steps, j - 1);
      GenerationStep(At(w, build, steps, j - 1), build, steps[j - 1], s);
      assert (forall k :: i <= k < j ==> !FiredAt(w, build, steps, k, s)) <==>
             (forall k :: i <= k < j - 1 ==> !FiredAt(w, build, steps, k, s)) && !FiredAt(w, build, steps, j - 1, s);
    }
  }

  /**
   No ABA: a conditional statement that matches the generation observed at step `i` can only succeed at a later
   step `j` if no transition of that source happened in between, and then the whole row is still the observed one.
   */
  lemma CasSeesNoGap(w: World, build: Build, steps: seq<Step>, i: nat, j: nat, s: SourceId)
    requires Inv(w, build) && Numbered(build) && i <= j < |steps|
    requires s in At(w, build, steps, i).t.sources && FiredAt(w, build, steps, j, s)
    requires Fired(At(w, build, steps, j), build, steps[j]).value.1 == At(w, build, steps, i).t.sources[s].generation + 1
    ensures forall k :: i <= k < j ==> !FiredAt(w, build, steps, k, s)
    ensures s in At(w, build, steps, j).t.sources
    ensures At(w, build, steps, j).t.sources[s] == At(w, build, steps, i).t.sources[s]
  {
    hide Inv, Numbered, Next, Exec, At, Fired;
    TombstonesAt(w, build, steps, j);
    GenerationStep(At(w, build, steps, j), build, steps[j], s);
    GenerationHistory(w, build, steps, i, j, s);
  }

  /** Every committed transition of a source, over its whole life, returns a generation of its own. */
  lemma GenerationsConsumedOnce(w: World, build: Build, steps: seq<Step>, i: nat, j: nat, s: SourceId)
    requires Inv(w, build) && Numbered(build) && i < j < |steps|
    requires FiredAt(w, build, steps, i, s) && FiredAt(w, build, steps, j, s)
    ensures Fired(At(w, build, steps, i), build, steps[i]).value.1 < Fired(At(w, build, steps, j), build, steps[j]).value.1
  {
    hide Inv, Numbered, Next, Exec, At, Fired, Generation;
    TombstonesAt(w, build, steps, i);
    TombstonesAt(w, build, steps, j);
    AtStep(w, build, steps, i);
    GenerationStep(At(w, build, steps, i), build, steps[i], s);
    GenerationStep(At(w, build, steps, j), build, steps[j], s);
    GenerationHistory(w, build, steps, i + 1, j, s);
  }

  // ---- what an undisturbed run achieves ----

  /** From any reachable state, a run that begins a new version, writes its chunks and activates it makes it the served one. */
  lemma UndisturbedBuild(w: World, build: Build, run: RunId, key: VersionKey, row: Source, now: int, size: int, mtime: int)
    requires Inv(w, build) && Numbered(build) && run !in w.flights && key !in w.t.versions
    requires key.source in w.t.sources && w.t.sources[key.source] == row
    ensures var w' := Next(Next(Next(w, build, Begin(run, key, row, now)), build, Put(run, |build(key.version)|)), build,
                           Activate(run, size, mtime));
            && key.source in w'.t.sources
            && w'.t.sources[key.source] == row.(active := Some(key.version), hash := key.version.hash, size := size, mtime := mtime,
                                                generation := row.generation + 1)
            && CompleteAt(w'.t, build, key.source) && w'.flights == w.flights
  {
    hide Inv, Numbered, Next, CompleteAt;
    var n := |build(key.version)|;
    var w1 := Next(w, build, Begin(run, key, row, now));
    var w2 := Next(w1, build, Put(run, n));
    var w3 := Next(w2, build, Activate(run, size, mtime));
    StepKeeps(w, build, Begin(run, key, row, now));
    StepKeeps(w1, build, Put(run, n));
    StepKeeps(w2, build, Activate(run, size, mtime));
    Began(w, build, run, key, row, now);
    Written(w1, build, run, key, row);
    Promoted(w2, build, run, key, row, size, mtime);
    assert w3.flights == w.flights;
    ActiveIsComplete(w3, build, key.source);
  }

  lemma Began(w: World, build: Build, run: RunId, key: VersionKey, row: Source, now: int)
    requires run !in w.flights && key !in w.t.versions
    ensures var w' := Next(w, build, Begin(run, key, row, now));
            w'.t.sources == w.t.sources && Owns(w'.t, key, run) && w'.flights == w.flights[run := Flight(key, row, 0)]
  {
  }

  lemma Written(w: World, build: Build, run: RunId, key: VersionKey, row: Source)
    requires run in w.flights && w.flights[run] == Flight(key, row, 0) && Owns(w.t, key, run)
    ensures var n := |build(key.version)|;
            var w' := Next(w, build, Put(run, n));
            w'.t.sources == w.t.sources && Owns(w'.t, key, run) && w'.flights == w.flights[run := Flight(key, row, n)]
  {
    hide Upsert;
  }

  lemma Promoted(w: World, build: Build, run: RunId, key: VersionKey, row: Source, size: int, mtime: int)
    requires run in w.flights && w.flights[run] == Flight(key, row, |build(key.version)|) && Owns(w.t, key, run)
    requires key.source in w.t.sources && w.t.sources[key.source] == row
    ensures var w' := Next(w, build, Activate(run, size, mtime));
            && key.source in w'.t.sources
            && w'.t.sources[key.source] == row.(active := Some(key.version), hash := key.version.hash, size := size, mtime := mtime,
                                                generation := row.generation + 1)
            && w'.flights == w.flights - {run}
  {
    hide Superseded;
  }

  lemma ActiveIsComplete(w: World, build: Build, s: SourceId)
    requires Inv(w, build) && s in w.t.sources && w.t.sources[s].active.Some?
    ensures CompleteAt(w.t, build, s)
  {
    hide CompleteAt;
  }
}
