/** Terrain kinds, claim markers, cell coordinates and the fixed offset tables
    that the board and the opponent use to look around a cell. */
module Tiles {

  datatype Option<+T> = None | Some(value: T)

  /** The terrain a graphics tile carries (TerrainTile.terrain). */
  datatype Terrain = Plains | Forest | Mountain | Water | City | Mine | Farm

  /** The marker tiles of the logic layer.  `Empty` stands for the null tile,
      which is what an untracked cell holds; `Available` exists in the enum but
      is only ever drawn on the preview layer. */
  datatype TileType = Empty | Unclaimed | Available | Occupied

  /** A cell position; world and cell positions coincide in this model. */
  datatype Coord = Coord(x: int, y: int) {
    function Plus(d: Coord): Coord { Coord(x + d.x, y + d.y) }
    function Neg(): Coord { Coord(-x, -y) }
  }

  const Up: Coord := Coord(0, 1)
  const Right: Coord := Coord(1, 0)
  const Down: Coord := Coord(0, -1)
  const Left: Coord := Coord(-1, 0)

  /** The four orthogonal directions, in the order up, right, down, left. */
  const Adjacencies: seq<Coord> := [Up, Right, Down, Left]

  /** The board's twelve-offset table used by the Mine and Farm rules:
      the four orthogonal steps, the four diagonals and the four double steps. */
  const BoardRange2: seq<Coord> :=
    [Up, Right, Down, Left,
     Coord(1, 1), Coord(-1, -1), Coord(-1, 1), Coord(1, -1),
     Coord(0, 2), Coord(2, 0), Coord(0, -2), Coord(-2, 0)]

  /** The opponent's eight range-2 offsets: diagonals first, then double steps. */
  const AIRange2: seq<Coord> :=
    [Coord(1, 1), Coord(-1, -1), Coord(-1, 1), Coord(1, -1),
     Coord(0, 2), Coord(2, 0), Coord(0, -2), Coord(-2, 0)]

  function Abs(n: int): nat { if n < 0 then -n else n }

  function Manhattan(d: Coord): nat { Abs(d.x) + Abs(d.y) }

  /** Manhattan distance between two cells. */
  function Dist(a: Coord, b: Coord): nat { Manhattan(Coord(a.x - b.x, a.y - b.y)) }

  /** The human terrains. */
  const HumanKinds: set<Terrain> := {City, Mine, Farm}

  /** True when an optional terrain is present and one of `kinds`; an absent
      tile never matches. */
  predicate Matches(o: Option<Terrain>, kinds: set<Terrain>) {
    o.Some? && o.value in kinds
  }

  /** The orthogonal table holds exactly the unit steps. */
  lemma AdjacenciesAreUnitSteps(d: Coord)
    ensures d in Adjacencies <==> Manhattan(d) == 1
  {
    if Manhattan(d) == 1 {
      if d.x == 0 && d.y == 1 { assert Adjacencies[0] == d; }
      else if d.x == 1 { assert d.y == 0; assert Adjacencies[1] == d; }
      else if d.x == 0 { assert d.y == -1; assert Adjacencies[2] == d; }
      else { assert d.x == -1 && d.y == 0; assert Adjacencies[3] == d; }
    }
  }

  /** Each orthogonal direction has its opposite in the table. */
  lemma AdjacenciesSymmetric(i: nat)
    requires i < |Adjacencies|
    ensures Adjacencies[i].Neg() in Adjacencies
  {
  }

  /** The opponent's eight offsets are pairwise distinct and each has
      Manhattan length 2. */
  lemma AIRange2Shape()
    ensures |AIRange2| == 8
    ensures forall i :: 0 <= i < |AIRange2| ==> Manhattan(AIRange2[i]) == 2
    ensures forall i, j :: 0 <= i < j < |AIRange2| ==> AIRange2[i] != AIRange2[j]
  {
  }

  /** The board's twelve offsets are the orthogonal table followed by the
      opponent's eight, in the same order. */
  lemma BoardRange2Split()
    ensures BoardRange2 == Adjacencies + AIRange2
  {
  }

  /** The board's twelve offsets are exactly the non-zero displacements of
      Manhattan length at most 2. */
  lemma BoardRange2IsBall(d: Coord)
    ensures d in BoardRange2 <==> 0 < Manhattan(d) <= 2
  {
    if 0 < Manhattan(d) <= 2 {
      var x, y := d.x, d.y;
      assert d == Coord(x, y);
      if x == 0 {
        if y == 2 { assert BoardRange2[8] == d; }
        else if y == 1 { assert BoardRange2[0] == d; }
        else if y == -1 { assert BoardRange2[2] == d; }
        else { assert y == -2; assert BoardRange2[10] == d; }
      } else if y == 0 {
        if x == 2 { assert BoardRange2[9] == d; }
        else if x == 1 { assert BoardRange2[1] == d; }
        else if x == -1 { assert BoardRange2[3] == d; }
        else { assert x == -2; assert BoardRange2[11] == d; }
      } else {
        assert Abs(x) == 1 && Abs(y) == 1;
        if x == 1 && y == 1 { assert BoardRange2[4] == d; }
        else if x == -1 && y == -1 { assert BoardRange2[5] == d; }
        else if x == -1 { assert BoardRange2[6] == d; }
        else { assert BoardRange2[7] == d; }
      }
    }
  }
}
