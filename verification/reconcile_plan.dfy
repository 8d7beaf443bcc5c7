/**
 What a reconciliation plan guarantees before anything is executed: it can be applied without two sources ever
 sharing a path, it ends with exactly the scanned paths, it moves as many sources as the bytes allow, and
 nothing is counted twice.
 */
module ReconcilePlan {
  import opened Wrappers
  import opened KnowledgeTables
  import opened ReconcileDiff

  /** The row of a moved source once the move has been committed. */
  function MovedRow(m: Match): Source {
    m.source.row.(path := m.entry.path, media := m.entry.media, size := m.entry.size, mtime := m.entry.mtime,
                  generation := m.source.row.generation + 1)
  }

  /** The sources after the moves have been committed in order. */
  function AfterMoves(stored: Sources, moves: seq<Match>): Sources {
    if moves == [] then stored
    else
      var m := moves[|moves| - 1];
      AfterMoves(stored, moves[..|moves| - 1])[m.source.id := MovedRow(m)]
  }

  lemma PrefixGood(scan: seq<Scanned>, stored: Sources, moves: seq<Match>, k: nat)
    requires GoodMoves(scan, stored, moves) && k <= |moves|
    ensures GoodMoves(scan, stored, moves[..k])
  {
    hide GoodMove;
  }

  lemma LastApart(scan: seq<Scanned>, stored: Sources, moves: seq<Match>, some: seq<Match>)
    requires GoodMoves(scan, stored, moves) && moves != [] && forall m :: m in some ==> m in moves[..|moves| - 1]
    ensures var last := moves[|moves| - 1];
            && GoodMove(scan, stored, last) && last.source.id in stored
            && last.source.id !in Claimed(some) && last.entry.path !in Targets(some)
  {
    assert GoodMove(scan, stored, moves[|moves| - 1]);
    hide GoodMove;
    forall k | 0 <= k < |some|
      ensures some[k].source.id != moves[|moves| - 1].source.id && some[k].entry.path != moves[|moves| - 1].entry.path
    {
      assert some[k] in some;
      var l :| 0 <= l < |moves| - 1 && moves[l] == some[k];
    }
  }

  lemma AfterLast(stored: Sources, moves: seq<Match>)
    requires moves != []
    ensures var m := moves[|moves| - 1];
            AfterMoves(stored, moves) == AfterMoves(stored, moves[..|moves| - 1])[m.source.id := MovedRow(m)]
  {
  }

  lemma {:induction false} AfterMovesRows(scan: seq<Scanned>, stored: Sources, moves: seq<Match>)
    requires GoodMoves(scan, stored, moves)
    ensures AfterMoves(stored, moves).Keys == stored.Keys
    ensures forall k :: 0 <= k < |moves| ==>
      moves[k].source.id in stored && AfterMoves(stored, moves)[moves[k].source.id] == MovedRow(moves[k])
    ensures forall s :: s in stored && s !in Claimed(moves) ==> AfterMoves(stored, moves)[s] == stored[s]
  {
    if moves != [] {
      hide AfterMoves, GoodMoves, GoodMove, MovedRow;
      var n := |moves| - 1;
      var before := moves[..n];
      PrefixGood(scan, stored, moves, n);
      AfterMovesRows(scan, stored, before);
      AfterLast(stored, moves);
      LastApart(scan, stored, moves, before);
      assert moves == before + [moves[n]];
      ClaimedStep(before, moves[n]);
      forall k | 0 <= k < n
        ensures moves[k].source.id in stored && AfterMoves(stored, moves)[moves[k].source.id] == MovedRow(moves[k])
      {
        assert before[k] == moves[k] && before[k].source.id in Claimed(before);
      }
    }
  }

  /** A row of the intermediate state is an original one or a moved one. */
  lemma RowOrigin(scan: seq<Scanned>, stored: Sources, moves: seq<Match>, s: SourceId)
    requires GoodMoves(scan, stored, moves) && s in stored
    ensures s in AfterMoves(stored, moves)
    ensures
      || (s !in Claimed(moves) && AfterMoves(stored, moves)[s] == stored[s])
      || (exists k :: 0 <= k < |moves| && moves[k].source.id == s && AfterMoves(stored, moves)[s] == MovedRow(moves[k]))
  {
    hide AfterMoves;
    AfterMovesRows(scan, stored, moves);
    if s in Claimed(moves) {
      var k :| 0 <= k < |moves| && moves[k].source.id == s;
    }
  }

  /** In no intermediate state do two sources share a path. */
  lemma MovesKeepPathsApart(scan: seq<Scanned>, stored: Sources, moves: seq<Match>)
    requires GoodMoves(scan, stored, moves) && StoredOk(stored)
    ensures StoredOk(AfterMoves(stored, moves))
  {
    hide AfterMoves;
    AfterMovesRows(scan, stored, moves);
    var after := AfterMoves(stored, moves);
    forall a, b | a in after && b in after && after[a].path == after[b].path
      ensures a == b
    {
      RowOrigin(scan, stored, moves, a);
      RowOrigin(scan, stored, moves, b);
      assert stored[a].path in StoredPaths(stored) && stored[b].path in StoredPaths(stored);
      assert forall k :: 0 <= k < |moves| ==> GoodMove(scan, stored, moves[k]);
    }
  }

  /**
   Committing the moves in order, every single one succeeds: its snapshot is current and its target is free.
   */
  lemma MovesAllSucceed(t: Tables, scan: seq<Scanned>, moves: seq<Match>, k: nat)
    requires GoodMoves(scan, t.sources, moves) && StoredOk(t.sources) && k < |moves|
    ensures var m := moves[k];
            MoveSource(t.(sources := AfterMoves(t.sources, moves[..k])), m.source.id, m.entry.path, m.entry.media,
                       m.entry.size, m.entry.mtime, m.source.row.path, m.source.row.generation)
            == (t.(sources := AfterMoves(t.sources, moves[..k + 1])), MovedTo(m.source.row.generation + 1))
  {
    var m := moves[k];
    var before := moves[..k];
    PrefixGood(scan, t.sources, moves, k);
    AfterMovesRows(scan, t.sources, before);
    assert moves[..k + 1][..k] == before && moves[..k + 1][k] == m;
    assert GoodMove(scan, t.sources, m);
    assert m.source.id !in Claimed(before);
    var now := AfterMoves(t.sources, before);
    forall s | s in now
      ensures now[s].path != m.entry.path
    {
      RowOrigin(scan, t.sources, before, s);
      assert t.sources[s].path in StoredPaths(t.sources);
    }
  }

  /** Once the moves are done, an added file finds its path free, and a surviving source sits on a scanned path. */
  lemma PlanReachesScan(scan: seq<Scanned>, stored: Sources, plan: Plan)
    requires ScanOk(scan) && StoredOk(stored) && IsPlan(scan, stored, plan)
    ensures var after := AfterMoves(stored, plan.moved);
            && (forall e, s :: e in plan.added && s in after ==> after[s].path != e.path)
            && plan.deleted <= after.Keys
            && (forall s :: s in plan.deleted ==> after[s] == stored[s] && after[s].path !in ScanPaths(scan))
            && (forall s :: s in after && s !in plan.deleted ==> after[s].path in ScanPaths(scan))
            && (forall p :: p in ScanPaths(scan) ==>
                  (exists e :: e in plan.added && e.path == p) || (exists s :: s in after && s !in plan.deleted && after[s].path == p))
  {
    hide AfterMoves, Moves;
    var moves, after := plan.moved, AfterMoves(stored, plan.moved);
    MovesGood(scan, stored, |scan|);
    AfterMovesRows(scan, stored, moves);
    forall e, s | e in plan.added && s in after
      ensures after[s].path != e.path
    {
      RowOrigin(scan, stored, moves, s);
      assert NoneAt(stored, moves, e.path);
      assert stored[s].path in StoredPaths(stored);
    }
    forall s | s in after && s !in plan.deleted
      ensures after[s].path in ScanPaths(scan)
    {
      RowOrigin(scan, stored, moves, s);
      if s in Claimed(moves) {
        var k :| 0 <= k < |moves| && moves[k].source.id == s && after[s] == MovedRow(moves[k]);
        assert GoodMove(scan, stored, moves[k]);
      }
    }
    forall p | p in ScanPaths(scan)
      ensures (exists e :: e in plan.added && e.path == p) || (exists s :: s in after && s !in plan.deleted && after[s].path == p)
    {
      var i :| 0 <= i < |scan| && scan[i].path == p;
      EntryPlaced(scan, stored, plan, scan[i]);
    }
  }

  lemma EntryPlaced(scan: seq<Scanned>, stored: Sources, plan: Plan, e: Scanned)
    requires ScanOk(scan) && IsPlan(scan, stored, plan) && e in scan
    ensures e in plan.added || exists s :: s in AfterMoves(stored, plan.moved) && s !in plan.deleted &&
                                           AfterMoves(stored, plan.moved)[s].path == e.path
  {
    hide AfterMoves, Moves;
    MovesGood(scan, stored, |scan|);
    AfterMovesRows(scan, stored, plan.moved);
    assert scan[..|scan|] == scan;
    if e !in plan.added {
      var m :| (m in plan.modified || m in plan.same) && m.entry == e;
      assert GoodMatch(stored, plan.moved, m);
      assert e.path in ScanPaths(scan);
      MatchedRow(scan, stored, plan.moved, m);
    }
  }

  /** Where the source matched with a scanned file is once the moves are done. */
  lemma MatchedRow(scan: seq<Scanned>, stored: Sources, moves: seq<Match>, m: Match)
    requires GoodMoves(scan, stored, moves) && GoodMatch(stored, moves, m)
    ensures m.source.id in stored && m.source.id in AfterMoves(stored, moves)
    ensures AfterMoves(stored, moves)[m.source.id].path == m.entry.path
    ensures m.source.id in Claimed(moves) || stored[m.source.id].path == m.entry.path
    ensures AfterMoves(stored, moves)[m.source.id].hash == m.source.row.hash
    ensures AfterMoves(stored, moves)[m.source.id].active == m.source.row.active
  {
    hide AfterMoves;
    AfterMovesRows(scan, stored, moves);
    if k :| 0 <= k < |moves| && moves[k].entry.path == m.entry.path && m.source == Relocated(moves[k]) {
      assert moves[k].source.id in Claimed(moves);
    }
  }

  // ---- counting ----

  lemma {:induction false} ImageSize<A, B>(m: map<A, B>)
    requires forall a, b :: a in m && b in m && m[a] == m[b] ==> a == b
    ensures |m.Values| == |m|
    decreases |m|
  {
    if m != map[] {
      var a :| a in m;
      var rest := m - {a};
      ImageSize(rest);
      assert m.Values == rest.Values + {m[a]} by {
        forall v | v in m.Values ensures v in rest.Values + {m[a]} {
          var k :| k in m && m[k] == v;
          assert k != a ==> k in rest && rest[k] == v;
        }
      }
      assert m[a] !in rest.Values;
      assert |rest| == |m| - 1;
    } else {
      assert m.Values == {};
    }
  }

  lemma StoredPathCount(stored: Sources, ids: set<SourceId>)
    requires StoredOk(stored) && ids <= stored.Keys
    ensures |(set s | s in ids :: stored[s].path)| == |ids|
  {
    var m := map s | s in ids :: stored[s].path;
    ImageSize(m);
    assert m.Keys == ids;
    assert m.Values == set s | s in ids :: stored[s].path by {
      forall v | v in (set s | s in ids :: stored[s].path) ensures v in m.Values {
        var s :| s in ids && stored[s].path == v;
        assert m[s] == v;
      }
    }
  }

  lemma ScanStep(rest: seq<Scanned>, last: Scanned)
    ensures ScanPaths(rest + [last]) == ScanPaths(rest) + {last.path}
    ensures ScanOk(rest + [last]) ==> ScanOk(rest) && last.path !in ScanPaths(rest)
  {
    var xs := rest + [last];
    assert xs[|rest|] == last;
    forall i | 0 <= i < |rest|
      ensures rest[i].path in ScanPaths(xs) && (ScanOk(xs) ==> rest[i].path != last.path)
    {
      assert xs[i] == rest[i];
    }
    forall i | 0 <= i < |xs|
      ensures xs[i].path in ScanPaths(rest) + {last.path}
    {
      assert i < |rest| ==> rest[i] == xs[i];
    }
    if ScanOk(xs) { assert forall i :: 0 <= i < |rest| ==> xs[i] == rest[i]; }
  }

  lemma {:induction false} ScanCount(xs: seq<Scanned>)
    requires ScanOk(xs)
    ensures |ScanPaths(xs)| == |xs|
  {
    if xs != [] {
      hide ScanPaths, ScanOk;
      var rest, last := xs[..|xs| - 1], xs[|xs| - 1];
      assert xs == rest + [last];
      ScanStep(rest, last);
      ScanCount(rest);
    }
  }

  ghost predicate Apart(moves: seq<Match>) {
    forall k, l :: 0 <= k < l < |moves| ==>
      moves[k].source.id != moves[l].source.id && moves[k].entry.path != moves[l].entry.path
  }

  lemma ApartLast(rest: seq<Match>, last: Match)
    requires Apart(rest + [last])
    ensures Apart(rest) && last.source.id !in Claimed(rest) && last.entry.path !in Targets(rest)
  {
    var moves := rest + [last];
    assert moves[|rest|] == last;
    assert forall k :: 0 <= k < |rest| ==> moves[k] == rest[k];
  }

  lemma {:induction false} MatchCount(moves: seq<Match>)
    requires Apart(moves)
    ensures |Claimed(moves)| == |moves| && |Targets(moves)| == |moves|
  {
    if moves != [] {
      hide Claimed, Targets, Apart;
      var rest, last := moves[..|moves| - 1], moves[|moves| - 1];
      assert moves == rest + [last];
      ApartLast(rest, last);
      MatchCount(rest);
      ClaimedStep(rest, last);
    }
  }

  /** Nothing appears or disappears: stored and added together are scanned and deleted together. */
  lemma PlanConserves(scan: seq<Scanned>, stored: Sources, plan: Plan)
    requires ScanOk(scan) && StoredOk(stored) && IsPlan(scan, stored, plan)
    ensures |stored| + |plan.added| == |scan| + |plan.deleted|
    ensures |plan.moved| + |plan.added| + (|stored| - |Vanished(scan, stored)|) == |scan|
  {
    hide Moves, GoodMove, Sorted, Claimed, Targets, ScanOk;
    MovesGood(scan, stored, |scan|);
    var S, N, van := StoredPaths(stored), ScanPaths(scan), Vanished(scan, stored);
    PathCounts(scan, stored);
    ClaimedCount(scan, stored, plan.moved);
    AddedPaths(scan, stored, plan);
    SplitCount(N - S, Targets(plan.moved));
    assert (N - S) * Targets(plan.moved) == Targets(plan.moved);
    SubsetCount(van, Claimed(plan.moved));
  }

  lemma PathCounts(scan: seq<Scanned>, stored: Sources)
    requires ScanOk(scan) && StoredOk(stored)
    ensures |stored| - |Vanished(scan, stored)| == |scan| - |ScanPaths(scan) - StoredPaths(stored)|
  {
    var S, N, van := StoredPaths(stored), ScanPaths(scan), Vanished(scan, stored);
    StoredPathCount(stored, stored.Keys);
    assert S == set s | s in stored.Keys :: stored[s].path;
    ScanCount(scan);
    StoredPathCount(stored, van);
    assert (set s | s in van :: stored[s].path) == S - N;
    SplitCount(S, N);
    SplitCount(N, S);
    assert S * N == N * S;
  }

  lemma SplitCount(a: set<Path>, b: set<Path>)
    ensures |a| == |a * b| + |a - b|
  {
    assert a == (a * b) + (a - b);
  }

  lemma SubsetCount(a: set<SourceId>, b: set<SourceId>)
    requires b <= a
    ensures |a - b| == |a| - |b|
  {
    assert a == b + (a - b);
  }

  lemma ClaimedCount(scan: seq<Scanned>, stored: Sources, moves: seq<Match>)
    requires GoodMoves(scan, stored, moves)
    ensures Claimed(moves) <= Vanished(scan, stored) && |Claimed(moves)| == |moves|
    ensures Targets(moves) <= ScanPaths(scan) - StoredPaths(stored) && |Targets(moves)| == |moves|
  {
    MatchCount(moves);
    forall k | 0 <= k < |moves|
      ensures moves[k].source.id in Vanished(scan, stored)
      ensures moves[k].entry.path in ScanPaths(scan) - StoredPaths(stored)
    {
      assert GoodMove(scan, stored, moves[k]);
    }
  }

  /** The added files are exactly those at whose path nothing is found. */
  lemma AddedIff(scan: seq<Scanned>, stored: Sources, plan: Plan, e: Scanned)
    requires IsPlan(scan, stored, plan) && e in scan
    ensures e in plan.added <==> NoneAt(stored, plan.moved, e.path)
  {
    hide Moves;
    assert scan[..|scan|] == scan;
    if e !in plan.added {
      var m :| (m in plan.modified || m in plan.same) && m.entry == e;
      assert GoodMatch(stored, plan.moved, m);
    }
  }

  lemma AddedPaths(scan: seq<Scanned>, stored: Sources, plan: Plan)
    requires ScanOk(scan) && IsPlan(scan, stored, plan)
    ensures |ScanPaths(scan) - StoredPaths(stored) - Targets(plan.moved)| == |plan.added|
  {
    hide Moves, Targets, StoredPaths;
    AddedScanned(scan, stored, plan);
    ScanCount(plan.added);
    assert ScanPaths(plan.added) == ScanPaths(scan) - StoredPaths(stored) - Targets(plan.moved) by {
      forall p | p in ScanPaths(scan) - StoredPaths(stored) - Targets(plan.moved)
        ensures p in ScanPaths(plan.added)
      {
        var i :| 0 <= i < |scan| && scan[i].path == p;
        AddedIff(scan, stored, plan, scan[i]);
      }
      forall p | p in ScanPaths(plan.added)
        ensures p in ScanPaths(scan) - StoredPaths(stored) - Targets(plan.moved)
      {
        var i :| 0 <= i < |plan.added| && plan.added[i].path == p;
        AddedIff(scan, stored, plan, plan.added[i]);
      }
    }
  }

  lemma AddedScanned(scan: seq<Scanned>, stored: Sources, plan: Plan)
    requires IsPlan(scan, stored, plan)
    ensures ScanOk(plan.added)
    ensures forall e :: e in plan.added ==> e in scan && e.path in ScanPaths(scan)
  {
    hide Moves, NoneAt, GoodMatch;
    assert scan[..|scan|] == scan;
  }

  // ---- as many moves as possible ----

  function NewPaths(scan: seq<Scanned>, stored: Sources, hash: Hash): set<Path> {
    set i | 0 <= i < |scan| && scan[i].hash == hash && scan[i].path !in StoredPaths(stored) :: scan[i].path
  }

  function VanishedWith(scan: seq<Scanned>, stored: Sources, hash: Hash): set<SourceId> {
    set s | s in Vanished(scan, stored) && stored[s].hash == hash
  }

  function MovesOf(moves: seq<Match>, hash: Hash): seq<Match> {
    if moves == [] then []
    else
      var rest := MovesOf(moves[..|moves| - 1], hash);
      if moves[|moves| - 1].entry.hash == hash then rest + [moves[|moves| - 1]] else rest
  }

  lemma {:induction false} MovesOfMembers(moves: seq<Match>, hash: Hash)
    ensures forall m :: m in MovesOf(moves, hash) <==> m in moves && m.entry.hash == hash
  {
    if moves != [] {
      MovesOfMembers(moves[..|moves| - 1], hash);
      assert moves == moves[..|moves| - 1] + [moves[|moves| - 1]];
    }
  }

  lemma {:induction false} MovesOfGood(scan: seq<Scanned>, stored: Sources, moves: seq<Match>, hash: Hash)
    requires GoodMoves(scan, stored, moves)
    ensures GoodMoves(scan, stored, MovesOf(moves, hash))
    ensures forall m :: m in MovesOf(moves, hash) <==> m in moves && m.entry.hash == hash
  {
    hide GoodMove, GoodMoves, Claimed, Targets;
    MovesOfMembers(moves, hash);
    if moves != [] {
      var before, last := moves[..|moves| - 1], moves[|moves| - 1];
      PrefixGood(scan, stored, moves, |moves| - 1);
      MovesOfGood(scan, stored, before, hash);
      if last.entry.hash == hash {
        LastApart(scan, stored, moves, MovesOf(before, hash));
        GoodAppend(scan, stored, MovesOf(before, hash), last);
      }
    }
  }

  /** For every file content, the number of moves is the smaller of its new paths and its vanished sources. */
  lemma PlanMovesMost(scan: seq<Scanned>, stored: Sources, hash: Hash)
    requires ScanOk(scan) && StoredOk(stored)
    ensures var unseen, gone := |NewPaths(scan, stored, hash)|, |VanishedWith(scan, stored, hash)|;
            |MovesOf(Moves(scan, stored, |scan|), hash)| == if unseen <= gone then unseen else gone
  {
    hide Moves, StoredOk, Targets, Claimed, NewPaths, VanishedWith, MovesOf;
    var mine := MovesOf(Moves(scan, stored, |scan|), hash);
    var unseen, gone := NewPaths(scan, stored, hash), VanishedWith(scan, stored, hash);
    MineWithin(scan, stored, hash);
    SubsetSize(Targets(mine), unseen);
    SubsetSize(Claimed(mine), gone);
    if p :| p in unseen && p !in Targets(mine) {
      AllClaimed(scan, stored, hash, p);
    }
  }

  lemma MineWithin(scan: seq<Scanned>, stored: Sources, hash: Hash)
    requires ScanOk(scan)
    ensures var mine := MovesOf(Moves(scan, stored, |scan|), hash);
            && Targets(mine) <= NewPaths(scan, stored, hash) && Claimed(mine) <= VanishedWith(scan, stored, hash)
            && |Targets(mine)| == |mine| == |Claimed(mine)|
  {
    hide Moves, MovesOf;
    var moves := Moves(scan, stored, |scan|);
    MovesGood(scan, stored, |scan|);
    MovesOfGood(scan, stored, moves, hash);
    var mine := MovesOf(moves, hash);
    ClaimedCount(scan, stored, mine);
    forall k | 0 <= k < |mine|
      ensures mine[k].entry.path in NewPaths(scan, stored, hash)
      ensures mine[k].source.id in VanishedWith(scan, stored, hash)
    {
      assert mine[k] in mine && GoodMove(scan, stored, mine[k]);
    }
  }

  /** If some new path with this content got no move, every vanished source with it was claimed. */
  lemma AllClaimed(scan: seq<Scanned>, stored: Sources, hash: Hash, p: Path)
    requires ScanOk(scan) && p in NewPaths(scan, stored, hash)
    requires p !in Targets(MovesOf(Moves(scan, stored, |scan|), hash))
    ensures VanishedWith(scan, stored, hash) <= Claimed(MovesOf(Moves(scan, stored, |scan|), hash))
  {
    hide Moves, MovesOf, Targets;
    var moves := Moves(scan, stored, |scan|);
    var mine := MovesOf(moves, hash);
    var j :| 0 <= j < |scan| && scan[j].hash == hash && scan[j].path == p;
    if p in Targets(moves) { TargetIsMine(scan, stored, hash, j); }
    assert scan[j].path !in StoredPaths(stored);
    MovesGreedy(scan, stored, |scan|, j);
    MovesGood(scan, stored, |scan|);
    MovesOfGood(scan, stored, moves, hash);
    forall s | s in VanishedWith(scan, stored, hash)
      ensures s in Claimed(mine)
    {
      assert s !in Candidates(scan, stored, moves, hash);
      var k :| 0 <= k < |moves| && moves[k].source.id == s;
      assert GoodMove(scan, stored, moves[k]) && moves[k] in mine;
      var l :| 0 <= l < |mine| && mine[l] == moves[k];
    }
  }

  lemma TargetIsMine(scan: seq<Scanned>, stored: Sources, hash: Hash, j: nat)
    requires ScanOk(scan) && j < |scan| && scan[j].hash == hash
    requires scan[j].path in Targets(Moves(scan, stored, |scan|))
    ensures scan[j].path in Targets(MovesOf(Moves(scan, stored, |scan|), hash))
  {
    hide Moves, MovesOf;
    var moves := Moves(scan, stored, |scan|);
    MovesGood(scan, stored, |scan|);
    MovesOfGood(scan, stored, moves, hash);
    var k :| 0 <= k < |moves| && moves[k].entry.path == scan[j].path;
    assert GoodMove(scan, stored, moves[k]);
    assert moves[k] in MovesOf(moves, hash);
  }

  lemma {:induction false} SubsetSize<A>(a: set<A>, b: set<A>)
    requires a <= b
    ensures |a| <= |b| && (|a| == |b| <==> a == b)
  {
    assert b == a + (b - a);
  }
}
