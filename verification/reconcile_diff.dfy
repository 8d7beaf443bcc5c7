/**
 The plan of a reconciliation: which stored sources moved, which scanned files are new, changed or unchanged, and
 which sources are gone. A vanished source whose bytes reappear under a new path is moved rather than deleted.
 */
module ReconcileDiff {
  import opened Wrappers
  import opened KnowledgeTables

  datatype Scanned = Scanned(path: Path, media: string, size: int, mtime: int, hash: Hash)

  datatype Snapshot = Snapshot(id: SourceId, row: Source)

  datatype Match = Match(entry: Scanned, source: Snapshot)

  datatype Plan = Plan(moved: seq<Match>, added: seq<Scanned>, modified: seq<Match>, same: seq<Match>,
                       deleted: set<SourceId>)

  type Sources = map<SourceId, Source>

  // ---- paths in order ----

  predicate StringLe(a: string, b: string) {
    a == [] || (b != [] && (a[0] < b[0] || (a[0] == b[0] && StringLe(a[1..], b[1..]))))
  }

  predicate PathLe(a: Path, b: Path) {
    if a.root == b.root then StringLe(a.rel, b.rel) else StringLe(a.root, b.root)
  }

  lemma {:induction false} StringOrder(a: string, b: string, c: string)
    ensures StringLe(a, b) || StringLe(b, a)
    ensures StringLe(a, b) && StringLe(b, a) ==> a == b
    ensures StringLe(a, b) && StringLe(b, c) ==> StringLe(a, c)
    ensures StringLe(a, a)
  {
    if a != [] && b != [] {
      StringOrder(a[1..], b[1..], if c == [] then [] else c[1..]);
      if StringLe(a, b) && StringLe(b, a) {
        assert a == [a[0]] + a[1..] && b == [b[0]] + b[1..];
      }
    }
    if a != [] { StringReflexive(a); }
  }

  lemma {:induction false} StringReflexive(a: string)
    ensures StringLe(a, a)
  {
    if a != [] { StringReflexive(a[1..]); }
  }

  lemma PathOrder(a: Path, b: Path, c: Path)
    ensures PathLe(a, b) || PathLe(b, a)
    ensures PathLe(a, b) && PathLe(b, a) ==> a == b
    ensures PathLe(a, b) && PathLe(b, c) ==> PathLe(a, c)
    ensures PathLe(a, a)
  {
    StringOrder(a.root, b.root, c.root);
    StringOrder(b.root, c.root, a.root);
    StringOrder(c.root, a.root, b.root);
    StringOrder(a.rel, b.rel, c.rel);
  }

  /** The order is that of the first character in which two texts differ, and a beginning comes before the whole; roots come first. */
  lemma OrderRule(p: string, x: char, y: char, a: string, b: string, root: string, root': string)
    ensures StringLe(p, p + a)
    ensures x < y ==> StringLe(p + [x] + a, p + [y] + b) && !StringLe(p + [y] + b, p + [x] + a)
    ensures PathLe(Path(root, a), Path(root, b)) <==> StringLe(a, b)
    ensures root != root' ==> (PathLe(Path(root, a), Path(root', b)) <==> StringLe(root, root'))
  {
    PrefixLe(p, a);
    if x < y { DifferLe(p, x, y, a, b); }
  }

  lemma {:induction false} PrefixLe(p: string, a: string)
    ensures StringLe(p, p + a)
  {
    if p != [] {
      assert (p + a)[1..] == p[1..] + a;
      PrefixLe(p[1..], a);
    }
  }

  lemma {:induction false} DifferLe(p: string, x: char, y: char, a: string, b: string)
    requires x < y
    ensures StringLe(p + [x] + a, p + [y] + b) && !StringLe(p + [y] + b, p + [x] + a)
  {
    var s, t := p + [x] + a, p + [y] + b;
    if p == [] {
      assert s[0] == x && t[0] == y;
    } else {
      assert s[1..] == p[1..] + [x] + a && t[1..] == p[1..] + [y] + b && s[0] == t[0] == p[0];
      DifferLe(p[1..], x, y, a, b);
    }
  }

  // ---- inputs ----

  ghost predicate ScanOk(scan: seq<Scanned>) {
    forall i, j :: 0 <= i < j < |scan| ==> scan[i].path != scan[j].path
  }

  ghost predicate StoredOk(stored: Sources) {
    forall a, b :: a in stored && b in stored && stored[a].path == stored[b].path ==> a == b
  }

  function ScanPaths(scan: seq<Scanned>): set<Path> {
    set i | 0 <= i < |scan| :: scan[i].path
  }

  function StoredPaths(stored: Sources): set<Path> {
    set s | s in stored :: stored[s].path
  }

  /** Stored sources whose path was not scanned. */
  function Vanished(scan: seq<Scanned>, stored: Sources): set<SourceId> {
    set s | s in stored && stored[s].path !in ScanPaths(scan)
  }

  function Claimed(moves: seq<Match>): set<SourceId> {
    set i | 0 <= i < |moves| :: moves[i].source.id
  }

  function Targets(moves: seq<Match>): set<Path> {
    set i | 0 <= i < |moves| :: moves[i].entry.path
  }

  /** Vanished sources with the given bytes that no earlier move has claimed. */
  function Candidates(scan: seq<Scanned>, stored: Sources, moves: seq<Match>, hash: Hash): set<SourceId> {
    set s | s in Vanished(scan, stored) && stored[s].hash == hash && s !in Claimed(moves)
  }

  ghost predicate IsFirst(stored: Sources, ids: set<SourceId>, s: SourceId) {
    s in ids && ids <= stored.Keys && forall d :: d in ids ==> PathLe(stored[s].path, stored[d].path)
  }

  lemma {:induction false} FirstExists(stored: Sources, ids: set<SourceId>)
    requires ids != {} && ids <= stored.Keys
    ensures exists s :: IsFirst(stored, ids, s)
    decreases |ids|
  {
    var x :| x in ids;
    var rest := ids - {x};
    if rest == {} {
      assert ids == {x};
      PathOrder(stored[x].path, stored[x].path, stored[x].path);
      assert IsFirst(stored, ids, x);
    } else {
      FirstExists(stored, rest);
      var y :| IsFirst(stored, rest, y);
      var best := if PathLe(stored[x].path, stored[y].path) then x else y;
      forall d | d in ids
        ensures PathLe(stored[best].path, stored[d].path)
      {
        PathOrder(stored[x].path, stored[y].path, stored[d].path);
        PathOrder(stored[y].path, stored[x].path, stored[x].path);
        PathOrder(stored[x].path, stored[x].path, stored[x].path);
        assert d != x ==> d in rest;
      }
      assert IsFirst(stored, ids, best);
    }
  }

  ghost function First(stored: Sources, ids: set<SourceId>): SourceId
    requires ids != {} && ids <= stored.Keys
    ensures IsFirst(stored, ids, First(stored, ids))
  {
    FirstExists(stored, ids);
    var s :| IsFirst(stored, ids, s);
    s
  }

  lemma FirstUnique(stored: Sources, ids: set<SourceId>, s: SourceId)
    requires StoredOk(stored) && IsFirst(stored, ids, s)
    ensures s == First(stored, ids)
  {
    PathOrder(stored[s].path, stored[First(stored, ids)].path, stored[s].path);
  }

  // ---- the moves ----

  /** The moves decided after the first `i` scanned files, in path order of the scan. */
  ghost function Moves(scan: seq<Scanned>, stored: Sources, i: nat): seq<Match>
    requires i <= |scan|
  {
    if i == 0 then [] else
    var before := Moves(scan, stored, i - 1);
    var e := scan[i - 1];
    var free := Candidates(scan, stored, before, e.hash);
    if e.path in StoredPaths(stored) || free == {} then before
    else before + [Match(e, Snapshot(First(stored, free), stored[First(stored, free)]))]
  }

  /** A move takes a vanished source, with its own bytes, to a scanned path that no stored source holds. */
  ghost predicate GoodMove(scan: seq<Scanned>, stored: Sources, m: Match) {
    && m.entry in scan && m.entry.path !in StoredPaths(stored)
    && m.source.id in Vanished(scan, stored) && m.source.row == stored[m.source.id]
    && m.source.row.hash == m.entry.hash
  }

  ghost predicate GoodMoves(scan: seq<Scanned>, stored: Sources, moves: seq<Match>) {
    && (forall k :: 0 <= k < |moves| ==> GoodMove(scan, stored, moves[k]))
    && (forall k, l :: 0 <= k < l < |moves| ==>
          moves[k].source.id != moves[l].source.id && moves[k].entry.path != moves[l].entry.path)
  }

  lemma GoodAppend(scan: seq<Scanned>, stored: Sources, moves: seq<Match>, m: Match)
    requires GoodMoves(scan, stored, moves) && GoodMove(scan, stored, m)
    requires m.source.id !in Claimed(moves) && m.entry.path !in Targets(moves)
    ensures GoodMoves(scan, stored, moves + [m])
  {
    hide GoodMove;
    forall k | 0 <= k < |moves|
      ensures moves[k].source.id != m.source.id && moves[k].entry.path != m.entry.path
    {
      assert moves[k].source.id in Claimed(moves) && moves[k].entry.path in Targets(moves);
    }
  }

  /** Scanned file `i` adds at most one move, of an unclaimed source. */
  lemma MovesNext(scan: seq<Scanned>, stored: Sources, i: nat) returns (m: Option<Match>)
    requires i < |scan|
    ensures Moves(scan, stored, i + 1) == Moves(scan, stored, i) + if m.Some? then [m.value] else []
    ensures m.Some? ==> m.value.entry == scan[i] && GoodMove(scan, stored, m.value)
                        && m.value.source.id !in Claimed(Moves(scan, stored, i))
  {
    hide Vanished, StoredPaths, IsFirst;
    var before := Moves(scan, stored, i);
    var free := Candidates(scan, stored, before, scan[i].hash);
    m := None;
    if scan[i].path !in StoredPaths(stored) && free != {} {
      var w := FirstSnapshot(scan, stored, before, scan[i].hash);
      m := Some(Match(scan[i], w));
    }
  }

  lemma FirstSnapshot(scan: seq<Scanned>, stored: Sources, moves: seq<Match>, hash: Hash) returns (w: Snapshot)
    requires Candidates(scan, stored, moves, hash) != {}
    ensures Candidates(scan, stored, moves, hash) <= stored.Keys && w.id == First(stored, Candidates(scan, stored, moves, hash))
    ensures w.id in Candidates(scan, stored, moves, hash) && w.row == stored[w.id]
  {
    var s := First(stored, Candidates(scan, stored, moves, hash));
    assert IsFirst(stored, Candidates(scan, stored, moves, hash), s);
    w := Snapshot(s, stored[s]);
  }

  /** The moves go to the first `i` scanned files. */
  ghost predicate Within(scan: seq<Scanned>, i: nat, moves: seq<Match>)
    requires i <= |scan|
  {
    forall k :: 0 <= k < |moves| ==> moves[k].entry in scan[..i]
  }

  lemma WithinStep(scan: seq<Scanned>, i: nat, moves: seq<Match>)
    requires i < |scan| && Within(scan, i, moves)
    ensures Within(scan, i + 1, moves)
    ensures forall m: Match :: m.entry == scan[i] ==> Within(scan, i + 1, moves + [m])
    ensures ScanOk(scan) ==> scan[i].path !in Targets(moves)
  {
    assert scan[..i + 1] == scan[..i] + [scan[i]];
    if ScanOk(scan) {
      forall k | 0 <= k < |moves|
        ensures moves[k].entry.path != scan[i].path
      {
        var j :| 0 <= j < i && scan[j] == moves[k].entry;
      }
    }
  }

  lemma MovesStart(scan: seq<Scanned>, stored: Sources)
    ensures GoodMoves(scan, stored, Moves(scan, stored, 0)) && Within(scan, 0, Moves(scan, stored, 0))
  {
  }

  lemma {:induction false} MovesGood(scan: seq<Scanned>, stored: Sources, i: nat)
    requires i <= |scan| && ScanOk(scan)
    ensures GoodMoves(scan, stored, Moves(scan, stored, i)) && Within(scan, i, Moves(scan, stored, i))
  {
    hide Moves, GoodMove, GoodMoves, Within, Claimed, Targets, ScanOk;
    if i == 0 {
      MovesStart(scan, stored);
    } else {
      MovesGood(scan, stored, i - 1);
      var before := Moves(scan, stored, i - 1);
      var m := MovesNext(scan, stored, i - 1);
      WithinStep(scan, i - 1, before);
      if m.Some? {
        GoodAppend(scan, stored, before, m.value);
      } else {
        assert before + [] == before;
      }
    }
  }

  /** Among files with the same bytes, earlier scanned ones get sources with earlier paths. */
  lemma {:induction false} MovesInOrder(scan: seq<Scanned>, stored: Sources, i: nat, k: nat, l: nat)
    requires i <= |scan| && k < l < |Moves(scan, stored, i)|
    requires Moves(scan, stored, i)[k].entry.hash == Moves(scan, stored, i)[l].entry.hash
    ensures PathLe(Moves(scan, stored, i)[k].source.row.path, Moves(scan, stored, i)[l].source.row.path)
  {
    hide Moves, PathLe, Candidates;
    var moves, before := Moves(scan, stored, i), if i > 0 then Moves(scan, stored, i - 1) else [];
    NoMovesYet(scan, stored);
    var m := MovesNext(scan, stored, i - 1);
    if l < |before| {
      MovesInOrder(scan, stored, i - 1, k, l);
    } else {
      EarlierFirst(scan, stored, i - 1, k, m.value.source.id);
    }
  }

  lemma NoMovesYet(scan: seq<Scanned>, stored: Sources)
    ensures Moves(scan, stored, 0) == []
  {
  }

  /** A source still unclaimed was a candidate for every earlier move of its bytes, and the first one was taken. */
  lemma {:induction false} EarlierFirst(scan: seq<Scanned>, stored: Sources, i: nat, k: nat, s: SourceId)
    requires i <= |scan| && k < |Moves(scan, stored, i)|
    requires s in Vanished(scan, stored) && s !in Claimed(Moves(scan, stored, i)) && stored[s].hash == Moves(scan, stored, i)[k].entry.hash
    ensures PathLe(Moves(scan, stored, i)[k].source.row.path, stored[s].path)
  {
    hide Vanished, PathLe, StoredPaths;
    var moves, before := Moves(scan, stored, i), Moves(scan, stored, i - 1);
    Extends(before, moves);
    if k < |before| {
      EarlierFirst(scan, stored, i - 1, k, s);
    } else {
      assert s in Candidates(scan, stored, before, scan[i - 1].hash);
    }
  }

  /** Matching is greedy: a new path without a move has no unclaimed vanished source with its bytes left over. */
  lemma {:induction false} MovesGreedy(scan: seq<Scanned>, stored: Sources, i: nat, j: nat)
    requires j < i <= |scan| && ScanOk(scan)
    requires scan[j].path !in StoredPaths(stored) && scan[j].path !in Targets(Moves(scan, stored, i))
    ensures Candidates(scan, stored, Moves(scan, stored, i), scan[j].hash) == {}
  {
    hide Moves, Targets, Claimed;
    var before, moves := Moves(scan, stored, i - 1), Moves(scan, stored, i);
    MovesStep(scan, stored, i);
    if j < i - 1 {
      MovesGreedy(scan, stored, i - 1, j);
    }
    assert Candidates(scan, stored, moves, scan[j].hash) <= Candidates(scan, stored, before, scan[j].hash);
  }

  lemma MovesStep(scan: seq<Scanned>, stored: Sources, i: nat)
    requires 0 < i <= |scan|
    ensures Targets(Moves(scan, stored, i - 1)) <= Targets(Moves(scan, stored, i))
    ensures Claimed(Moves(scan, stored, i - 1)) <= Claimed(Moves(scan, stored, i))
    ensures scan[i - 1].path in StoredPaths(stored) || scan[i - 1].path in Targets(Moves(scan, stored, i))
            || Candidates(scan, stored, Moves(scan, stored, i - 1), scan[i - 1].hash) == {}
  {
    hide First, Vanished;
    var before, moves := Moves(scan, stored, i - 1), Moves(scan, stored, i);
    Extends(before, moves);
    if |moves| > |before| {
      assert moves[|before|].entry == scan[i - 1];
    }
  }

  lemma Extends(before: seq<Match>, moves: seq<Match>)
    requires before <= moves
    ensures Targets(before) <= Targets(moves) && Claimed(before) <= Claimed(moves)
  {
    forall k | 0 <= k < |before|
      ensures before[k].entry.path in Targets(moves) && before[k].source.id in Claimed(moves)
    {
      assert moves[k] == before[k];
    }
  }

  // ---- what the plan says of each scanned file ----

  /** How `working` remembers a moved source: at its new path, with the new file's size and time. */
  function Relocated(m: Match): Snapshot {
    Snapshot(m.source.id, m.source.row.(path := m.entry.path, size := m.entry.size, mtime := m.entry.mtime))
  }

  /** The source found at a scanned path once the moves are taken into account. */
  ghost predicate WorkingAt(stored: Sources, moves: seq<Match>, path: Path, w: Snapshot) {
    || (exists k :: 0 <= k < |moves| && moves[k].entry.path == path && w == Relocated(moves[k]))
    || (w.id in stored && stored[w.id].path == path && w.row == stored[w.id] && w.id !in Claimed(moves))
  }

  ghost predicate NoneAt(stored: Sources, moves: seq<Match>, path: Path) {
    path !in Targets(moves) && path !in StoredPaths(stored)
  }

  ghost predicate GoodMatch(stored: Sources, moves: seq<Match>, m: Match) {
    WorkingAt(stored, moves, m.entry.path, m.source)
  }

  /** The lists together are the first `i` scanned files, each in the list it belongs to. */
  ghost predicate Sorted(scan: seq<Scanned>, stored: Sources, moves: seq<Match>, i: nat,
                         added: seq<Scanned>, modified: seq<Match>, same: seq<Match>)
    requires i <= |scan|
  {
    && |added| + |modified| + |same| == i
    && (forall e :: e in added ==> e in scan[..i] && NoneAt(stored, moves, e.path))
    && (forall m :: m in modified ==> m.entry in scan[..i] && GoodMatch(stored, moves, m) && m.source.row.hash != m.entry.hash)
    && (forall m :: m in same ==> m.entry in scan[..i] && GoodMatch(stored, moves, m) && m.source.row.hash == m.entry.hash)
    && (forall e :: e in scan[..i] ==>
          || e in added
          || (exists m :: m in modified && m.entry == e)
          || (exists m :: m in same && m.entry == e))
    && (forall a, b :: 0 <= a < b < |added| ==> added[a].path != added[b].path)
    && (forall a, b :: 0 <= a < b < |modified| ==> modified[a].entry.path != modified[b].entry.path)
    && (forall a, b :: 0 <= a < b < |same| ==> same[a].entry.path != same[b].entry.path)
  }

  ghost predicate IsPlan(scan: seq<Scanned>, stored: Sources, plan: Plan) {
    && plan.moved == Moves(scan, stored, |scan|)
    && Sorted(scan, stored, plan.moved, |scan|, plan.added, plan.modified, plan.same)
    && plan.deleted == Vanished(scan, stored) - Claimed(plan.moved)
  }

  // ---- `_diff` ----

  method MinByPath(stored: Sources, ids: set<SourceId>) returns (chosen: SourceId)
    requires ids != {} && ids <= stored.Keys && StoredOk(stored)
    ensures chosen == First(stored, ids)
  {
    chosen :| chosen in ids;
    var rest := ids - {chosen};
    PathOrder(stored[chosen].path, stored[chosen].path, stored[chosen].path);
    while rest != {}
      invariant chosen in ids && rest <= ids
      invariant forall d :: d in ids && d !in rest ==> PathLe(stored[chosen].path, stored[d].path)
      decreases |rest|
    {
      var x :| x in rest;
      PathOrder(stored[x].path, stored[chosen].path, stored[x].path);
      if !PathLe(stored[chosen].path, stored[x].path) {
        forall d | d in ids && d !in rest
          ensures PathLe(stored[x].path, stored[d].path)
        {
          PathOrder(stored[x].path, stored[chosen].path, stored[d].path);
        }
        PathOrder(stored[x].path, stored[x].path, stored[x].path);
        chosen := x;
      }
      rest := rest - {x};
    }
    FirstUnique(stored, ids, chosen);
  }

  /** `working`, the stored sources by path with the decided moves applied. */
  ghost predicate IsWorking(scan: seq<Scanned>, stored: Sources, moves: seq<Match>, working: map<Path, Snapshot>) {
    && (forall p :: p in working ==> WorkingAt(stored, moves, p, working[p]))
    && (forall p :: p in ScanPaths(scan) ==> (p in working <==> p in StoredPaths(stored) || p in Targets(moves)))
  }

  method FindMoves(scan: seq<Scanned>, stored: Sources) returns (moves: seq<Match>, working: map<Path, Snapshot>)
    requires ScanOk(scan) && StoredOk(stored)
    ensures moves == Moves(scan, stored, |scan|) && IsWorking(scan, stored, moves, working)
  {
    hide StoredOk, First, IsWorking, Claimed, Targets;
    working := ByPath(stored);
    moves := [];
    var claimed: set<SourceId> := {};
    ClaimedNone();
    var present := ScanPaths(scan);
    for i := 0 to |scan|
      invariant moves == Moves(scan, stored, i) && claimed == Claimed(moves)
      invariant IsWorking(scan, stored, moves, working)
    {
      var entry := scan[i];
      assert entry.path in present;
      NotYet(scan, stored, i);
      WorkingHas(scan, stored, moves, working, entry.path);
      if entry.path !in working {
        var candidates := set s | s in stored && stored[s].path !in present && stored[s].hash == entry.hash && s !in claimed;
        assert candidates == Candidates(scan, stored, moves, entry.hash);
        if candidates != {} {
          var chosen := MinByPath(stored, candidates);
          var m := Match(entry, Snapshot(chosen, stored[chosen]));
          WorkingStep(scan, stored, moves, working, m);
          working := (working - {stored[chosen].path})[entry.path := Relocated(m)];
          claimed := claimed + {chosen};
          ClaimedStep(moves, m);
          moves := moves + [m];
        }
      }
    }
  }

  lemma ClaimedNone()
    ensures Claimed([]) == {}
  {
  }

  lemma WorkingHas(scan: seq<Scanned>, stored: Sources, moves: seq<Match>, working: map<Path, Snapshot>, p: Path)
    requires IsWorking(scan, stored, moves, working) && p in ScanPaths(scan)
    ensures p in working <==> p in StoredPaths(stored) || p in Targets(moves)
  {
  }

  method ByPath(stored: Sources) returns (working: map<Path, Snapshot>)
    requires StoredOk(stored)
    ensures working.Keys == StoredPaths(stored)
    ensures forall p :: p in working ==> working[p].id in stored && working[p].row == stored[working[p].id] && working[p].row.path == p
    ensures forall scan :: IsWorking(scan, stored, [], working)
  {
    working := map[];
    var rest := stored.Keys;
    while rest != {}
      invariant rest <= stored.Keys
      invariant forall p :: p in working ==> working[p].id in stored && working[p].row == stored[working[p].id] && working[p].row.path == p
      invariant forall s :: s in stored && s !in rest ==> stored[s].path in working
      decreases |rest|
    {
      var s :| s in rest;
      working := working[stored[s].path := Snapshot(s, stored[s])];
      rest := rest - {s};
    }
    forall scan
      ensures IsWorking(scan, stored, [], working)
    {
      assert Claimed([]) == {} && Targets([]) == {};
    }
  }

  lemma ClaimedStep(moves: seq<Match>, m: Match)
    ensures Claimed(moves + [m]) == Claimed(moves) + {m.source.id}
    ensures Targets(moves + [m]) == Targets(moves) + {m.entry.path}
  {
    var more := moves + [m];
    Extends(moves, more);
    assert more[|moves|] == m;
    forall k | 0 <= k < |more|
      ensures more[k].source.id in Claimed(moves) + {m.source.id} && more[k].entry.path in Targets(moves) + {m.entry.path}
    {
      if k < |moves| { assert more[k] == moves[k]; }
    }
  }

  lemma NotYet(scan: seq<Scanned>, stored: Sources, i: nat)
    requires i < |scan| && ScanOk(scan)
    ensures scan[i].path !in Targets(Moves(scan, stored, i))
  {
    hide Moves, GoodMoves, Within, Targets;
    MovesGood(scan, stored, i);
    WithinStep(scan, i, Moves(scan, stored, i));
  }

  lemma WorkingStep(scan: seq<Scanned>, stored: Sources, moves: seq<Match>, working: map<Path, Snapshot>, m: Match)
    requires StoredOk(stored) && IsWorking(scan, stored, moves, working) && GoodMove(scan, stored, m)
    requires m.source.id !in Claimed(moves)
    ensures IsWorking(scan, stored, moves + [m], (working - {stored[m.source.id].path})[m.entry.path := Relocated(m)])
  {
    var more := moves + [m];
    var from := stored[m.source.id].path;
    var next := (working - {from})[m.entry.path := Relocated(m)];
    ClaimedStep(moves, m);
    forall p | p in next
      ensures WorkingAt(stored, more, p, next[p])
    {
      if p == m.entry.path {
        assert more[|moves|] == m;
      } else {
        assert WorkingAt(stored, moves, p, working[p]);
        if k :| 0 <= k < |moves| && moves[k].entry.path == p && working[p] == Relocated(moves[k]) {
          assert more[k] == moves[k];
        }
      }
    }
  }

  /** The classification loop and the deletions; scanned files always come from authorized roots. */
  method Diff(scan: seq<Scanned>, stored: Sources, authorized: set<string>) returns (plan: Plan)
    requires ScanOk(scan) && StoredOk(stored)
    requires forall i :: 0 <= i < |scan| ==> scan[i].path.root in authorized
    ensures IsPlan(scan, stored, plan)
  {
    hide StoredOk, First, Moves, Sorted;
    var moves, working := FindMoves(scan, stored);
    var added: seq<Scanned>, modified: seq<Match>, same: seq<Match> := [], [], [];
    SortedNone(scan, stored, moves);
    for i := 0 to |scan|
      invariant Sorted(scan, stored, moves, i, added, modified, same)
    {
      var entry := scan[i];
      assert entry.path in ScanPaths(scan);
      if entry.path.root in authorized {
        if entry.path !in working {
          SortedAdded(scan, stored, moves, i, added, modified, same);
          added := added + [entry];
        } else {
          var m := Match(entry, working[entry.path]);
          if m.source.row.hash != entry.hash {
            SortedModified(scan, stored, moves, i, added, modified, same, m);
            modified := modified + [m];
          } else {
            SortedSame(scan, stored, moves, i, added, modified, same, m);
            same := same + [m];
          }
        }
      }
    }
    var present := ScanPaths(scan);
    var claimed := Claimed(moves);
    var vanished := set s | s in stored && stored[s].path !in present && s !in claimed;
    var unauthorized := set s | s in stored && stored[s].path.root !in authorized && s !in claimed;
    assert unauthorized <= vanished;
    plan := Plan(moves, added, modified, same, vanished + unauthorized);
  }

  lemma SortedNone(scan: seq<Scanned>, stored: Sources, moves: seq<Match>)
    ensures Sorted(scan, stored, moves, 0, [], [], [])
  {
  }

  lemma SortedAdded(scan: seq<Scanned>, stored: Sources, moves: seq<Match>, i: nat,
                    added: seq<Scanned>, modified: seq<Match>, same: seq<Match>)
    requires i < |scan| && ScanOk(scan) && Sorted(scan, stored, moves, i, added, modified, same)
    requires NoneAt(stored, moves, scan[i].path)
    ensures Sorted(scan, stored, moves, i + 1, added + [scan[i]], modified, same)
  {
    hide NoneAt, GoodMatch;
    assert scan[..i + 1] == scan[..i] + [scan[i]];
    assert forall e :: e in scan[..i] ==> e.path != scan[i].path;
  }

  lemma SortedModified(scan: seq<Scanned>, stored: Sources, moves: seq<Match>, i: nat,
                       added: seq<Scanned>, modified: seq<Match>, same: seq<Match>, m: Match)
    requires i < |scan| && ScanOk(scan) && Sorted(scan, stored, moves, i, added, modified, same)
    requires m.entry == scan[i] && GoodMatch(stored, moves, m) && m.source.row.hash != m.entry.hash
    ensures Sorted(scan, stored, moves, i + 1, added, modified + [m], same)
  {
    hide NoneAt, GoodMatch;
    assert scan[..i + 1] == scan[..i] + [scan[i]];
    assert forall e :: e in scan[..i] ==> e.path != scan[i].path;
    assert m in modified + [m];
    assert forall x :: x in modified ==> x in modified + [m];
  }

  lemma SortedSame(scan: seq<Scanned>, stored: Sources, moves: seq<Match>, i: nat,
                   added: seq<Scanned>, modified: seq<Match>, same: seq<Match>, m: Match)
    requires i < |scan| && ScanOk(scan) && Sorted(scan, stored, moves, i, added, modified, same)
    requires m.entry == scan[i] && GoodMatch(stored, moves, m) && m.source.row.hash == m.entry.hash
    ensures Sorted(scan, stored, moves, i + 1, added, modified, same + [m])
  {
    hide NoneAt, GoodMatch;
    assert scan[..i + 1] == scan[..i] + [scan[i]];
    assert forall e :: e in scan[..i] ==> e.path != scan[i].path;
    assert m in same + [m];
    assert forall x :: x in same ==> x in same + [m];
  }
}
