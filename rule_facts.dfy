/** What the board rules guarantee: the placement rules restated through
    grid geometry, the exact effect of a Mountain, the growth of Cities,
    and the move budget. */
module RuleFacts {

  import opened Tiles
  import opened Rules

  /** `Any` over an offset table holds exactly when some offset of the table
      lands on a matching tile. */
  lemma {:induction false} AnyAtIff(b: Board, c: Coord, offs: seq<Coord>, kinds: set<Terrain>)
    ensures AnyAt(b, c, offs, kinds) <==> exists i :: 0 <= i < |offs| && Matches(TerrainAt(b, c.Plus(offs[i])), kinds)
  {
    if offs != [] {
      AnyAtIff(b, c, offs[1..], kinds);
      if AnyAt(b, c, offs[1..], kinds) {
        var i :| 0 <= i < |offs[1..]| && Matches(TerrainAt(b, c.Plus(offs[1..][i])), kinds);
        assert offs[1..][i] == offs[i + 1];
      }
      if exists i :: 0 <= i < |offs| && Matches(TerrainAt(b, c.Plus(offs[i])), kinds) {
        var i :| 0 <= i < |offs| && Matches(TerrainAt(b, c.Plus(offs[i])), kinds);
        if i > 0 {
          assert offs[1..][i - 1] == offs[i];
        }
      }
    }
  }

  /** `Any` over an offset table holds exactly when `Count` over the same
      table is positive. */
  lemma {:induction false} AnyAtCount(b: Board, c: Coord, offs: seq<Coord>, kinds: set<Terrain>)
    decreases |offs|
    ensures AnyAt(b, c, offs, kinds) <==> CountAt(b, c, offs, kinds) > 0
  {
    if offs != [] {
      AnyAtCount(b, c, offs[1..], kinds);
    }
  }

  /** Nature tiles need only the claim: the cell is Unclaimed, or the claim
      is bypassed and the cell is tracked. */
  lemma ValidateNatureIff(b: Board, c: Coord, t: Terrain, bypass: bool)
    requires t == Forest || t == Mountain || t == Water
    ensures Validate(b, c, Some(t), bypass) <==> ClaimAt(b, c) == Unclaimed || (bypass && ClaimAt(b, c) != Empty)
  {
  }

  /** A City needs the claim and a human terrain at Manhattan distance 1. */
  lemma ValidateCityIff(b: Board, c: Coord, bypass: bool)
    ensures Validate(b, c, Some(City), bypass) <==>
            ClaimOk(b, c, bypass) && exists d :: Manhattan(d) == 1 && Matches(TerrainAt(b, c.Plus(d)), HumanKinds)
  {
    AnyAtIff(b, c, Adjacencies, HumanKinds);
    if AnyAt(b, c, Adjacencies, HumanKinds) {
      var i :| 0 <= i < |Adjacencies| && Matches(TerrainAt(b, c.Plus(Adjacencies[i])), HumanKinds);
      AdjacenciesAreUnitSteps(Adjacencies[i]);
    }
    if exists d :: Manhattan(d) == 1 && Matches(TerrainAt(b, c.Plus(d)), HumanKinds) {
      var d :| Manhattan(d) == 1 && Matches(TerrainAt(b, c.Plus(d)), HumanKinds);
      AdjacenciesAreUnitSteps(d);
      var i :| 0 <= i < |Adjacencies| && Adjacencies[i] == d;
    }
  }

  /** Within Manhattan distance 2 of c, some cell holds the terrain k. */
  ghost predicate WithinTwo(b: Board, c: Coord, k: Terrain) {
    exists d :: 0 < Manhattan(d) <= 2 && TerrainAt(b, c.Plus(d)) == Some(k)
  }

  lemma BallAnyIff(b: Board, c: Coord, offs: seq<Coord>, k: Terrain)
    requires forall d :: d in offs <==> 0 < Manhattan(d) <= 2
    ensures AnyAt(b, c, offs, {k}) <==> WithinTwo(b, c, k)
  {
    AnyAtIff(b, c, offs, {k});
    if AnyAt(b, c, offs, {k}) {
      var i :| 0 <= i < |offs| && Matches(TerrainAt(b, c.Plus(offs[i])), {k});
      assert offs[i] in offs;
    }
    if WithinTwo(b, c, k) {
      var d :| 0 < Manhattan(d) <= 2 && TerrainAt(b, c.Plus(d)) == Some(k);
      var i :| 0 <= i < |offs| && offs[i] == d;
      assert Matches(TerrainAt(b, c.Plus(offs[i])), {k});
    }
  }

  lemma Range2AnyIff(b: Board, c: Coord, k: Terrain)
    ensures AnyAt(b, c, BoardRange2, {k}) <==> WithinTwo(b, c, k)
  {
    forall d ensures d in BoardRange2 <==> 0 < Manhattan(d) <= 2 {
      BoardRange2IsBall(d);
    }
    BallAnyIff(b, c, BoardRange2, k);
  }

  /** A Mine needs the claim and a Mountain within Manhattan distance 2. */
  lemma ValidateMineIff(b: Board, c: Coord, bypass: bool)
    ensures Validate(b, c, Some(Mine), bypass) <==> ClaimOk(b, c, bypass) && WithinTwo(b, c, Mountain)
  {
    Range2AnyIff(b, c, Mountain);
  }

  /** A Farm needs the claim and a Water tile within Manhattan distance 2. */
  lemma ValidateFarmIff(b: Board, c: Coord, bypass: bool)
    ensures Validate(b, c, Some(Farm), bypass) <==> ClaimOk(b, c, bypass) && WithinTwo(b, c, Water)
  {
    Range2AnyIff(b, c, Water);
  }

  /** Without bypass, a human tile can only go on an Unclaimed cell. */
  lemma ValidateNeedsUnclaimed(b: Board, c: Coord, t: Terrain)
    requires t != Plains
    requires ClaimAt(b, c) != Unclaimed
    ensures !Validate(b, c, Some(t), false)
  {
  }

  // ---------------------------------------------------------------------
  // Placements without a cascade.

  /** Forest, Water, Mine, Farm and Plains touch no cell but their own. */
  lemma SubmitLocal(b: Board, c: Coord, t: Terrain, bypass: bool, x: Coord)
    requires t != Mountain && t != City
    requires x != c
    ensures CellAt(Submitted(b, c, Some(t), bypass), x) == CellAt(b, x)
  {
    if Validate(b, c, Some(t), bypass) {
      PlaceElsewhere(b, c, t, x);
    }
  }

  /** As written, overwriting a Mine or a Farm with Plains leaves the move
      budget as it was: GameBoard.cs:236 computes max(2, moves - 1), but the
      test at line 232 reads the cell after line 188 wrote Plains into it. */
  lemma PlainsOverMineKeepsBudget()
    ensures var b := Board(map[Coord(0, 0) := Occupied], map[Coord(0, 0) := Mine], 3);
            TerrainAt(b, Coord(0, 0)) == Some(Mine) &&
            Submitted(b, Coord(0, 0), Some(Plains), false).humanMovesPerTurn == 3
  {
  }

  /** The move budget never drops: it rises by one on a successful Mine or
      Farm placement and stays put otherwise, so a budget of at least 2
      stays at least 2. */
  lemma BudgetFloor(b: Board, c: Coord, tile: Option<Terrain>, bypass: bool)
    requires b.humanMovesPerTurn >= 2
    ensures Submitted(b, c, tile, bypass).humanMovesPerTurn >= 2
    ensures Submitted(b, c, tile, bypass).humanMovesPerTurn >= b.humanMovesPerTurn
  {
  }

  // ---------------------------------------------------------------------
  // The Mountain cascade.

  /** The cells c + dirs[i]. */
  function Around(c: Coord, dirs: seq<Coord>): set<Coord> {
    set i | 0 <= i < |dirs| :: c.Plus(dirs[i])
  }

  predicate DistinctOffsets(dirs: seq<Coord>) {
    forall i, j :: 0 <= i < j < |dirs| ==> dirs[i] != dirs[j]
  }

  /** What the Mountain cascade does to a cell next to the Mountain. */
  function Reclaimed(b: Board, n: Coord): Cell {
    if Matches(TerrainAt(b, n), HumanKinds) then Cell(Unclaimed, Some(Plains)) else CellAt(b, n)
  }

  lemma {:induction false} MountainCascadeEffect(b: Board, c: Coord, dirs: seq<Coord>)
    requires forall i :: 0 <= i < |dirs| ==> dirs[i] != Coord(0, 0)
    requires DistinctOffsets(dirs)
    decreases |dirs|
    ensures forall i :: 0 <= i < |dirs| ==> CellAt(MountainCascade(b, c, dirs), c.Plus(dirs[i])) == Reclaimed(b, c.Plus(dirs[i]))
    ensures forall x :: x !in Around(c, dirs) ==> CellAt(MountainCascade(b, c, dirs), x) == CellAt(b, x)
  {
    if dirs != [] {
      var n := c.Plus(dirs[0]);
      var b' := if Matches(TerrainAt(b, n), HumanKinds) then Submitted(b, n, Some(Plains), false) else b;
      var tail := dirs[1..];
      assert DistinctOffsets(tail) by {
        forall i, j | 0 <= i < j < |tail| ensures tail[i] != tail[j] {
          assert tail[i] == dirs[i + 1] && tail[j] == dirs[j + 1];
        }
      }
      assert forall i :: 0 <= i < |tail| ==> tail[i] != Coord(0, 0) by {
        forall i | 0 <= i < |tail| ensures tail[i] != Coord(0, 0) {
          assert tail[i] == dirs[i + 1];
        }
      }
      MountainCascadeEffect(b', c, tail);
      var r := MountainCascade(b, c, dirs);
      assert r == MountainCascade(b', c, tail);
      forall j | 0 <= j < |tail| ensures c.Plus(tail[j]) != n {
        assert tail[j] == dirs[j + 1];
      }
      assert n !in Around(c, tail);
      assert CellAt(b', n) == Reclaimed(b, n);
      forall x | x != n ensures CellAt(b', x) == CellAt(b, x) {
        if Matches(TerrainAt(b, n), HumanKinds) { PlaceElsewhere(b, n, Plains, x); }
      }
      forall i | 0 <= i < |dirs| ensures CellAt(r, c.Plus(dirs[i])) == Reclaimed(b, c.Plus(dirs[i])) {
        if i > 0 {
          assert tail[i - 1] == dirs[i];
          assert dirs[i] != dirs[0];
          assert c.Plus(dirs[i]) != n;
          assert Reclaimed(b', c.Plus(dirs[i])) == Reclaimed(b, c.Plus(dirs[i]));
        }
      }
      forall x | x !in Around(c, dirs) ensures CellAt(r, x) == CellAt(b, x) {
        assert c.Plus(dirs[0]) in Around(c, dirs);
        forall j | 0 <= j < |tail| ensures c.Plus(tail[j]) != x {
          assert tail[j] == dirs[j + 1];
          assert c.Plus(dirs[j + 1]) in Around(c, dirs);
        }
        assert x !in Around(c, tail);
      }
    }
  }

  /** A Mountain turns every orthogonal neighbour holding City, Mine or Farm
      into Unclaimed Plains, leaves its other neighbours and every other cell
      as they were, and keeps the move budget. */
  lemma SubmitMountainEffect(b: Board, c: Coord, bypass: bool)
    requires Validate(b, c, Some(Mountain), bypass)
    ensures CellAt(Submitted(b, c, Some(Mountain), bypass), c) == Cell(Occupied, Some(Mountain))
    ensures Submitted(b, c, Some(Mountain), bypass).humanMovesPerTurn == b.humanMovesPerTurn
    ensures forall i :: 0 <= i < |Adjacencies| ==>
              CellAt(Submitted(b, c, Some(Mountain), bypass), c.Plus(Adjacencies[i])) == Reclaimed(b, c.Plus(Adjacencies[i]))
    ensures forall x :: x != c && x !in Around(c, Adjacencies) ==>
              CellAt(Submitted(b, c, Some(Mountain), bypass), x) == CellAt(b, x)
  {
    var b1 := Place(b, c, Mountain);
    assert Submitted(b, c, Some(Mountain), bypass) == MountainCascade(b1, c, Adjacencies);
    MountainCascadeEffect(b1, c, Adjacencies);
    forall x | x != c ensures CellAt(b1, x) == CellAt(b, x) {
      PlaceElsewhere(b, c, Mountain, x);
    }
    forall i | 0 <= i < |Adjacencies| ensures Reclaimed(b1, c.Plus(Adjacencies[i])) == Reclaimed(b, c.Plus(Adjacencies[i])) {
      assert c.Plus(Adjacencies[i]) != c;
    }
  }

  // ---------------------------------------------------------------------
  // The City cascade.

  /** A Forest neighbour that the City cascade converts when it reaches it:
      tracked, and with at least two City neighbours. */
  predicate Qualifies(b: Board, n: Coord) {
    TerrainAt(b, n) == Some(Forest) && Tracked(b, n) && CountAt(b, n, Adjacencies, {City}) >= 2
  }

  /** More Cities never lower a City count. */
  lemma {:induction false} CountGrows(b: Board, b': Board, n: Coord, offs: seq<Coord>)
    requires forall x :: Grown(b, b', x)
    ensures CountAt(b', n, offs, {City}) >= CountAt(b, n, offs, {City})
  {
    if offs != [] {
      assert Grown(b, b', n.Plus(offs[0]));
      CountGrows(b, b', n, offs[1..]);
    }
  }

  /** A qualifying Forest next to a City is converted when submitted. */
  lemma ConvertsQualifying(b: Board, c: Coord, d: Coord)
    requires TerrainAt(b, c) == Some(City)
    requires d in Adjacencies
    requires Qualifies(b, c.Plus(d))
    ensures TerrainAt(Submitted(b, c.Plus(d), Some(City), true), c.Plus(d)) == Some(City)
  {
    var n := c.Plus(d);
    var k :| 0 <= k < |Adjacencies| && Adjacencies[k] == d;
    AdjacenciesSymmetric(k);
    var j :| 0 <= j < |Adjacencies| && Adjacencies[j] == d.Neg();
    assert n.Plus(Adjacencies[j]) == c;
    AnyAtIff(b, n, Adjacencies, HumanKinds);
    assert Validate(b, n, Some(City), true);
  }

  /** A qualifying Forest that has not yet been converted still qualifies
      after other cells grew into Cities. */
  lemma QualifiesPersists(b: Board, b': Board, m: Coord)
    requires forall x :: Grown(b, b', x)
    requires Qualifies(b, m)
    requires TerrainAt(b', m) != Some(City)
    ensures Qualifies(b', m)
  {
    assert Grown(b, b', m);
    CountGrows(b, b', m, Adjacencies);
  }

  lemma {:induction false} CityCascadeGrows(b: Board, c: Coord, dirs: seq<Coord>)
    requires TerrainAt(b, c) == Some(City)
    requires forall i :: 0 <= i < |dirs| ==> dirs[i] in Adjacencies
    decreases |dirs|
    ensures forall i :: 0 <= i < |dirs| && Qualifies(b, c.Plus(dirs[i])) ==>
              TerrainAt(CityCascade(b, c, dirs), c.Plus(dirs[i])) == Some(City)
  {
    if dirs != [] {
      var n := c.Plus(dirs[0]);
      var b' := if TerrainAt(b, n) == Some(Forest) && CountAt(b, n, Adjacencies, {City}) >= 2
                then Submitted(b, n, Some(City), true) else b;
      var tail := dirs[1..];
      var r := CityCascade(b, c, dirs);
      assert r == CityCascade(b', c, tail);
      GrownStep(b, n, b');
      if Qualifies(b, n) {
        ConvertsQualifying(b, c, dirs[0]);
      }
      assert Grown(b, b', c);
      assert forall i :: 0 <= i < |tail| ==> tail[i] in Adjacencies by {
        forall i | 0 <= i < |tail| ensures tail[i] in Adjacencies {
          assert tail[i] == dirs[i + 1];
        }
      }
      CityCascadeGrows(b', c, tail);
      forall i | 0 <= i < |dirs| && Qualifies(b, c.Plus(dirs[i])) ensures TerrainAt(r, c.Plus(dirs[i])) == Some(City) {
        var m := c.Plus(dirs[i]);
        assert Grown(b', r, m);
        if TerrainAt(b', m) != Some(City) {
          QualifiesPersists(b, b', m);
          assert tail[i - 1] == dirs[i];
        }
      }
    }
  }

  /** A City converts every orthogonal Forest neighbour that is tracked and
      has at least two City neighbours once the new City stands (the new
      City counts); besides those, only Forest cells ever become City, and
      nothing else changes. */
  lemma SubmitCityGrows(b: Board, c: Coord, bypass: bool)
    requires Validate(b, c, Some(City), bypass)
    ensures CellAt(Submitted(b, c, Some(City), bypass), c) == Cell(Occupied, Some(City))
    ensures forall i :: 0 <= i < |Adjacencies| && Qualifies(Place(b, c, City), c.Plus(Adjacencies[i])) ==>
              TerrainAt(Submitted(b, c, Some(City), bypass), c.Plus(Adjacencies[i])) == Some(City)
    ensures forall x :: x != c ==> Grown(b, Submitted(b, c, Some(City), bypass), x)
  {
    var b1 := Place(b, c, City);
    assert Submitted(b, c, Some(City), bypass) == CityCascade(b1, c, Adjacencies);
    CityCascadeGrows(b1, c, Adjacencies);
  }
}
