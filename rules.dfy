/** The board rule engine as values: the two layers of a board, the
    placement predicate `Validate` and the result of a placement with its
    cascades, `Submitted`.

    Points where this model keeps the code's behaviour as written:
    - reading `.terrain` of a null graphics tile throws in the code
      (GameBoard.cs:141, 148, 154, 217); here an absent tile does not match;
    - the Mine and Farm rules (GameBoard.cs:147-156) only look for a Mountain
      or a Water tile among twelve offsets;
    - GameBoard.cs:236 computes `Mathf.Max(2, HumanMovesPerTurn - 1)` when a
      Mine or a Farm is overwritten with Plains, but the test at line 232
      reads the cell after line 188 has already written Plains into it, so
      the budget is never decremented. */
module Rules {

  import opened Tiles

  /** The claim layer (`_logic`; a missing key is the null tile), the terrain
      layer (`_graphics`; a missing key is the null tile) and the move budget. */
  datatype Board = Board(logic: map<Coord, TileType>, graphics: map<Coord, Terrain>, humanMovesPerTurn: int)

  datatype Cell = Cell(claim: TileType, terrain: Option<Terrain>)

  function ClaimAt(b: Board, c: Coord): TileType {
    if c in b.logic then b.logic[c] else Empty
  }

  function TerrainAt(b: Board, c: Coord): Option<Terrain> {
    if c in b.graphics then Some(b.graphics[c]) else None
  }

  function CellAt(b: Board, c: Coord): Cell {
    Cell(ClaimAt(b, c), TerrainAt(b, c))
  }

  /** The logic tile is not null. */
  predicate Tracked(b: Board, c: Coord) {
    ClaimAt(b, c) != Empty
  }

  /** The claim test shared by every non-Plains rule: an unclaimed cell
      always passes, a null one never does, and a claimed one only with the
      bypass flag. */
  predicate ClaimOk(b: Board, c: Coord, bypass: bool): (ok: bool)
    ensures ClaimAt(b, c) == Unclaimed ==> ok
    ensures ok ==> Tracked(b, c)
    ensures ok && !bypass ==> ClaimAt(b, c) == Unclaimed
  {
    ClaimAt(b, c) == Unclaimed || (bypass && Tracked(b, c))
  }

  /** The claim marker written for a placed terrain. */
  function ClaimFor(t: Terrain): TileType {
    if t != Plains then Occupied else Unclaimed
  }

  /** `offs.Any(dir => kinds contains terrain at c + dir)`. */
  predicate AnyAt(b: Board, c: Coord, offs: seq<Coord>, kinds: set<Terrain>): (r: bool)
    decreases |offs|
    ensures r ==> offs != []
  {
    |offs| > 0 && (Matches(TerrainAt(b, c.Plus(offs[0])), kinds) || AnyAt(b, c, offs[1..], kinds))
  }

  /** `offs.Count(dir => kinds contains terrain at c + dir)`. */
  function CountAt(b: Board, c: Coord, offs: seq<Coord>, kinds: set<Terrain>): (r: nat)
    decreases |offs|
    ensures r <= |offs|
  {
    if offs == [] then 0
    else (if Matches(TerrainAt(b, c.Plus(offs[0])), kinds) then 1 else 0) + CountAt(b, c, offs[1..], kinds)
  }

  /** The placement predicate of GameBoard.Validate; `None` is a null tile. */
  function Validate(b: Board, c: Coord, tile: Option<Terrain>, bypass: bool): (ok: bool)
    ensures tile == None ==> !ok
    ensures tile == Some(Plains) ==> ok
    ensures ok && tile != Some(Plains) ==> ClaimOk(b, c, bypass)
  {
    match tile
    case None => false
    case Some(t) =>
      match t
      case Forest | Mountain | Water => ClaimOk(b, c, bypass)
      case City => ClaimOk(b, c, bypass) && AnyAt(b, c, Adjacencies, HumanKinds)
      case Mine => ClaimOk(b, c, bypass) && AnyAt(b, c, BoardRange2, {Mountain})
      case Farm => ClaimOk(b, c, bypass) && AnyAt(b, c, BoardRange2, {Water})
      case Plains => true
  }

  /** Writes both layers of one cell: the terrain and its claim marker. */
  function Place(b: Board, c: Coord, t: Terrain): (r: Board)
    ensures CellAt(r, c) == Cell(ClaimFor(t), Some(t))
    ensures r.humanMovesPerTurn == b.humanMovesPerTurn
  {
    b.(logic := b.logic[c := ClaimFor(t)], graphics := b.graphics[c := t])
  }

  function ForestCells(b: Board): set<Coord> {
    set x | x in b.graphics && b.graphics[x] == Forest
  }

  /** The number of Forest cells: the cascade's termination measure. */
  function ForestCount(b: Board): nat {
    |ForestCells(b)|
  }

  /** Plains (and a null tile) never cascade; every other terrain may. */
  function Rank(tile: Option<Terrain>): nat {
    if tile == None || tile == Some(Plains) then 0 else 1
  }

  /** A cell whose claim agrees with its terrain: Occupied exactly when a
      non-Plains terrain is present. */
  predicate ConsistentCell(x: Cell) {
    x.claim == Occupied <==> x.terrain.Some? && x.terrain != Some(Plains)
  }

  /** Every cell of the board agrees with itself in this sense. */
  ghost predicate Consistent(b: Board) {
    forall x :: ConsistentCell(CellAt(b, x))
  }

  /** Between b and r the cell x is untouched or went from Forest to an
      occupied City. */
  predicate Grown(b: Board, r: Board, x: Coord) {
    CellAt(r, x) == CellAt(b, x) || (TerrainAt(b, x) == Some(Forest) && CellAt(r, x) == Cell(Occupied, Some(City)))
  }

  /** GameBoard.Submit: a failed validation changes nothing; otherwise the
      cell is written and the terrain's side effect runs. */
  function Submitted(b: Board, c: Coord, tile: Option<Terrain>, bypass: bool): (r: Board)
    decreases Rank(tile), ForestCount(b) + (if TerrainAt(b, c) == Some(Forest) then 0 else 1), 0, 0
    ensures tile != Some(Forest) ==> ForestCount(r) <= ForestCount(b)
    ensures !Validate(b, c, tile, bypass) ==> r == b
    ensures Validate(b, c, tile, bypass) ==> tile.Some? && CellAt(r, c) == Cell(ClaimFor(tile.value), tile)
    ensures r.humanMovesPerTurn ==
            b.humanMovesPerTurn + (if Validate(b, c, tile, bypass) && (tile == Some(Mine) || tile == Some(Farm)) then 1 else 0)
    ensures tile == Some(Plains) ==> r == Place(b, c, Plains)
    ensures tile == Some(City) ==> forall x :: x != c ==> Grown(b, r, x)
    ensures Consistent(b) ==> Consistent(r)
  {
    if !Validate(b, c, tile, bypass) then b
    else
      var t := tile.value;
      ForestCountPlace(b, c, t);
      PlaceConsistent(b, c, t);
      var b1 := Place(b, c, t);
      match t
      case Mountain =>
        var r := MountainCascade(b1, c, Adjacencies);
        r
      case City =>
        var r := CityCascade(b1, c, Adjacencies);
        CityPlaced(b, c, r);
        r
      case Mine | Farm => ConsistentMoves(b1, b1.humanMovesPerTurn + 1); b1.(humanMovesPerTurn := b1.humanMovesPerTurn + 1)
      case Plains =>
        // As written: the terrain is read back after the cell became Plains.
        var current := TerrainAt(b1, c);
        if current == Some(Mine) || current == Some(Farm) then
          b1.(humanMovesPerTurn := if b1.humanMovesPerTurn - 1 < 2 then 2 else b1.humanMovesPerTurn - 1)
        else b1
      case Forest | Water => b1
  }

  /** Mountain side effect: each orthogonal neighbour holding a human terrain
      is submitted as Plains (without bypass). */
  function MountainCascade(b: Board, c: Coord, dirs: seq<Coord>): (r: Board)
    requires forall i :: 0 <= i < |dirs| ==> dirs[i] != Coord(0, 0)
    decreases 1, ForestCount(b), 1, |dirs|
    ensures ForestCount(r) <= ForestCount(b)
    ensures r.humanMovesPerTurn == b.humanMovesPerTurn
    ensures CellAt(r, c) == CellAt(b, c)
    ensures Consistent(b) ==> Consistent(r)
  {
    if dirs == [] then b
    else
      var n := c.Plus(dirs[0]);
      var b' := if Matches(TerrainAt(b, n), HumanKinds) then Submitted(b, n, Some(Plains), false) else b;
      assert CellAt(b', c) == CellAt(b, c) by {
        if Matches(TerrainAt(b, n), HumanKinds) { PlaceElsewhere(b, n, Plains, c); }
      }
      MountainCascade(b', c, dirs[1..])
  }

  /** City side effect: each orthogonal Forest neighbour with at least two
      City neighbours, counted on the current board, is submitted as City
      with the claim bypassed. */
  function CityCascade(b: Board, c: Coord, dirs: seq<Coord>): (r: Board)
    decreases 1, ForestCount(b), 1, |dirs|
    ensures ForestCount(r) <= ForestCount(b)
    ensures r.humanMovesPerTurn == b.humanMovesPerTurn
    ensures forall x :: Grown(b, r, x)
    ensures Consistent(b) ==> Consistent(r)
  {
    if dirs == [] then
      GrownRefl(b);
      b
    else
      var n := c.Plus(dirs[0]);
      var b' := if TerrainAt(b, n) == Some(Forest) && CountAt(b, n, Adjacencies, {City}) >= 2
                then Submitted(b, n, Some(City), true) else b;
      GrownStep(b, n, b');
      var r := CityCascade(b', c, dirs[1..]);
      GrownTrans(b, b', r);
      r
  }

  // ---------------------------------------------------------------------
  // Helper lemmas used inside the definitions above.

  lemma ForestCountPlace(b: Board, c: Coord, t: Terrain)
    ensures t == Forest ==> ForestCount(Place(b, c, t)) <= ForestCount(b) + 1
    ensures t != Forest ==>
              ForestCount(Place(b, c, t)) + (if TerrainAt(b, c) == Some(Forest) then 1 else 0) == ForestCount(b)
  {
    var a := ForestCells(b);
    ForestCellsPlace(b, c, t);
    if t != Forest && c in a {
      assert a == (a - {c}) + {c};
    }
  }

  lemma ForestCellsPlace(b: Board, c: Coord, t: Terrain)
    ensures ForestCells(Place(b, c, t)) == if t == Forest then ForestCells(b) + {c} else ForestCells(b) - {c}
  {
  }

  lemma PlaceElsewhere(b: Board, c: Coord, t: Terrain, x: Coord)
    requires x != c
    ensures CellAt(Place(b, c, t), x) == CellAt(b, x)
  {
  }

  lemma PlaceConsistent(b: Board, c: Coord, t: Terrain)
    ensures Consistent(b) ==> Consistent(Place(b, c, t))
  {
    if Consistent(b) {
      forall x ensures ConsistentCell(CellAt(Place(b, c, t), x)) {
        if x != c {
          PlaceElsewhere(b, c, t, x);
          assert ConsistentCell(CellAt(b, x));
        }
      }
    }
  }

  lemma ConsistentMoves(b: Board, m: int)
    ensures Consistent(b) ==> Consistent(b.(humanMovesPerTurn := m))
  {
    if Consistent(b) {
      forall x ensures ConsistentCell(CellAt(b.(humanMovesPerTurn := m), x)) {
        assert CellAt(b.(humanMovesPerTurn := m), x) == CellAt(b, x);
      }
    }
  }

  lemma GrownRefl(b: Board)
    ensures forall x :: Grown(b, b, x)
  {
  }

  lemma GrownStep(b: Board, n: Coord, b': Board)
    requires b' == b || TerrainAt(b, n) == Some(Forest)
    requires b' == b || forall x :: x != n ==> Grown(b, b', x)
    requires b' == b || CellAt(b', n) == Cell(Occupied, Some(City))
    ensures forall x :: Grown(b, b', x)
  {
  }

  lemma GrownTrans(b: Board, m: Board, r: Board)
    requires forall x :: Grown(b, m, x)
    requires forall x :: Grown(m, r, x)
    ensures forall x :: Grown(b, r, x)
  {
    forall x ensures Grown(b, r, x) {
      assert Grown(b, m, x);
      assert Grown(m, r, x);
    }
  }

  lemma CityPlaced(b: Board, c: Coord, r: Board)
    requires forall x :: Grown(Place(b, c, City), r, x)
    ensures CellAt(r, c) == Cell(Occupied, Some(City))
    ensures forall x :: x != c ==> Grown(b, r, x)
  {
    assert Grown(Place(b, c, City), r, c);
    forall x | x != c ensures Grown(b, r, x) {
      assert Grown(Place(b, c, City), r, x);
      PlaceElsewhere(b, c, City, x);
    }
  }
}
