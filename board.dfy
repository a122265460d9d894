/** The board object: both tile layers and the move budget as fields that
    Submit overwrites in place, recursing from inside its loops over the
    orthogonal directions. */
module GameBoards {

  import opened Tiles
  import opened Rules

  class GameBoard {
    var logic: map<Coord, TileType>
    var graphics: map<Coord, Terrain>
    var humanMovesPerTurn: int

    /** The board's layers and budget as a value. */
    function State(): Board
      reads this
    {
      Board(logic, graphics, humanMovesPerTurn)
    }

    /** The layers come from the scene; Start sets the budget to 2. */
    constructor (logic0: map<Coord, TileType>, graphics0: map<Coord, Terrain>)
      ensures State() == Board(logic0, graphics0, 2)
    {
      logic := logic0;
      graphics := graphics0;
      humanMovesPerTurn := 2;
    }

    /** Places `tile` at c when Validate allows it, then runs the terrain's
        side effect; the result is exactly Rules.Submitted. */
    method Submit(c: Coord, tile: Option<Terrain>, bypass: bool)
      modifies this
      decreases Rank(tile), ForestCount(State()) + (if TerrainAt(State(), c) == Some(Forest) then 0 else 1), 0
      ensures State() == Submitted(old(State()), c, tile, bypass)
    {
      if !Validate(State(), c, tile, bypass) {
        return;
      }
      ghost var b0 := State();
      var t := tile.value;
      if t != Plains {
        logic := logic[c := Occupied];
      } else {
        logic := logic[c := Unclaimed];
      }
      graphics := graphics[c := t];
      assert State() == Place(b0, c, t);
      ForestCountPlace(b0, c, t);
      match t {
        case Mountain =>
          ClearAround(c);
        case City =>
          GrowAround(c);
        case Mine | Farm =>
          humanMovesPerTurn := humanMovesPerTurn + 1;
        case Plains =>
          // As written: the cell already holds Plains here, so this never fires.
          var current := TerrainAt(State(), c);
          var lowered := if humanMovesPerTurn - 1 < 2 then 2 else humanMovesPerTurn - 1;
          humanMovesPerTurn := if current == Some(Mine) || current == Some(Farm) then lowered else humanMovesPerTurn;
        case Forest | Water =>
      }
    }

    /** The Mountain side effect: every orthogonal neighbour holding a human
        terrain is submitted as Plains. */
    method ClearAround(c: Coord)
      modifies this
      decreases 1, ForestCount(State()), 1
      ensures State() == MountainCascade(old(State()), c, Adjacencies)
    {
      ghost var b1 := State();
      var i := 0;
      while i < |Adjacencies|
        invariant 0 <= i <= |Adjacencies|
        invariant MountainCascade(State(), c, Adjacencies[i..]) == MountainCascade(b1, c, Adjacencies)
      {
        var n := c.Plus(Adjacencies[i]);
        var current := TerrainAt(State(), n);
        assert Adjacencies[i..][1..] == Adjacencies[i + 1..];
        if Matches(current, HumanKinds) {
          Submit(n, Some(Plains), false);
        }
        i := i + 1;
      }
    }

    /** The City side effect: every orthogonal Forest neighbour that sees at
        least two Cities on the current board is submitted as City with the
        claim bypassed. */
    method GrowAround(c: Coord)
      modifies this
      decreases 1, ForestCount(State()), 1
      ensures State() == CityCascade(old(State()), c, Adjacencies)
    {
      ghost var b1 := State();
      var i := 0;
      while i < |Adjacencies|
        invariant 0 <= i <= |Adjacencies|
        invariant CityCascade(State(), c, Adjacencies[i..]) == CityCascade(b1, c, Adjacencies)
        invariant ForestCount(State()) <= ForestCount(b1)
      {
        var n := c.Plus(Adjacencies[i]);
        var current := TerrainAt(State(), n);
        assert Adjacencies[i..][1..] == Adjacencies[i + 1..];
        if current.Some? && current.value == Forest {
          var adjacentCities := CountAt(State(), n, Adjacencies, {City});
          if adjacentCities >= 2 {
            Submit(n, Some(City), true);
          }
        }
        i := i + 1;
      }
    }
  }
}
