/** The CPU opponent: four coordinate lists that its methods update in place,
    the frontier cull with its in-place removal, resource notification, the
    random placement of one tile and the body of one CPU turn. */
module Opponent {

  import opened Tiles
  import opened Lists
  import opened Rules
  import opened Cache
  import opened CacheFacts
  import opened GameBoards
  import opened Turns

  class EnemyAI {
    const board: GameBoard
    const manager: GameManager
    /** GameBoard.TileIsSurrounded: the opponent calls it, but its definition
        is not part of this model, so it is an arbitrary predicate of the
        board and the cell. */
    const surrounded: (Board, Coord) -> bool
    /** The opponent's own copies of the orthogonal steps and of the eight
        range-2 offsets, filled in by Awake. */
    const adjacencies: seq<Coord>
    const range2Adjacencies: seq<Coord>

    var frontier: seq<Coord>
    var cityReach: seq<Coord>
    var mineReach: seq<Coord>
    var farmReach: seq<Coord>
    var movesLeft: int

    /** The four lists as a value. */
    function Candidates(): Cache
      reads this
    {
      Cache(frontier, cityReach, mineReach, farmReach)
    }

    /** Wires the opponent to the board, the manager and the surrounded test. */
    constructor (board0: GameBoard, manager0: GameManager, surrounded0: (Board, Coord) -> bool)
      ensures board == board0 && manager == manager0 && surrounded == surrounded0
      ensures adjacencies == Adjacencies && range2Adjacencies == AIRange2
      ensures Candidates() == Cache([], [], [], []) && movesLeft == 0
    {
      board := board0;
      manager := manager0;
      surrounded := surrounded0;
      adjacencies := Adjacencies;
      range2Adjacencies := AIRange2;
      frontier, cityReach, mineReach, farmReach := [], [], [], [];
      movesLeft := 0;
    }

    /** Guarded additions of the cells x + d, d in offs, that validate for t:
        one `foreach` of OnResourceAdded. */
    method AddValidAround(l: seq<Coord>, x: Coord, offs: seq<Coord>, t: Terrain) returns (r: seq<Coord>)
      ensures r == AddValid(l, board.State(), Shifted(x, offs), t)
    {
      r := l;
      var d := 0;
      while d < |offs|
        invariant 0 <= d <= |offs|
        invariant r == AddValid(l, board.State(), Shifted(x, offs[..d]), t)
      {
        var probe := x.Plus(offs[d]);
        assert Shifted(x, offs[..d + 1]) == Shifted(x, offs[..d]) + [probe];
        assert (Shifted(x, offs[..d]) + [probe])[..d] == Shifted(x, offs[..d]);
        if Validate(board.State(), probe, Some(t), false) && probe !in r {
          r := r + [probe];
        }
        d := d + 1;
      }
      assert offs[..|offs|] == offs;
    }

    /** `if (!l.Contains(x) && Validate(x, t)) l.Add(x)` on the cell itself. */
    method AddIfValid(l: seq<Coord>, x: Coord, t: Terrain) returns (r: seq<Coord>)
      ensures r == AddValid(l, board.State(), [x], t)
    {
      AddValidOne(l, board.State(), x, t);
      if Validate(board.State(), x, Some(t), false) && x !in l {
        r := l + [x];
      } else {
        r := l;
      }
    }

    /** The orthogonal probe loop around one tile: each neighbour is offered
        to the City, Mine and Farm lists in turn. */
    method ProbeNear(b: Board, tile: Coord, city0: seq<Coord>, mine0: seq<Coord>, farm0: seq<Coord>)
      returns (city: seq<Coord>, mine: seq<Coord>, farm: seq<Coord>)
      ensures city == AddValid(city0, b, Shifted(tile, adjacencies), City)
      ensures mine == AddValid(mine0, b, Shifted(tile, adjacencies), Mine)
      ensures farm == AddValid(farm0, b, Shifted(tile, adjacencies), Farm)
    {
      city, mine, farm := city0, mine0, farm0;
      var d := 0;
      while d < |adjacencies|
        invariant 0 <= d <= |adjacencies|
        invariant city == AddValid(city0, b, Shifted(tile, adjacencies[..d]), City)
        invariant mine == AddValid(mine0, b, Shifted(tile, adjacencies[..d]), Mine)
        invariant farm == AddValid(farm0, b, Shifted(tile, adjacencies[..d]), Farm)
      {
        var prospect := tile.Plus(adjacencies[d]);
        assert Shifted(tile, adjacencies[..d + 1]) == Shifted(tile, adjacencies[..d]) + [prospect];
        assert (Shifted(tile, adjacencies[..d]) + [prospect])[..d] == Shifted(tile, adjacencies[..d]);
        if Validate(b, prospect, Some(City), false) && prospect !in city {
          city := city + [prospect];
        }
        if Validate(b, prospect, Some(Mine), false) && prospect !in mine {
          mine := mine + [prospect];
        }
        if Validate(b, prospect, Some(Farm), false) && prospect !in farm {
          farm := farm + [prospect];
        }
        d := d + 1;
      }
      assert adjacencies[..|adjacencies|] == adjacencies;
    }

    /** The range-2 probe loop around one tile: each of the eight cells is
        offered to the Mine and Farm lists in turn. */
    method ProbeFar(b: Board, tile: Coord, mine0: seq<Coord>, farm0: seq<Coord>) returns (mine: seq<Coord>, farm: seq<Coord>)
      ensures mine == AddValid(mine0, b, Shifted(tile, range2Adjacencies), Mine)
      ensures farm == AddValid(farm0, b, Shifted(tile, range2Adjacencies), Farm)
    {
      mine, farm := mine0, farm0;
      var d := 0;
      while d < |range2Adjacencies|
        invariant 0 <= d <= |range2Adjacencies|
        invariant mine == AddValid(mine0, b, Shifted(tile, range2Adjacencies[..d]), Mine)
        invariant farm == AddValid(farm0, b, Shifted(tile, range2Adjacencies[..d]), Farm)
      {
        var prospect := tile.Plus(range2Adjacencies[d]);
        assert Shifted(tile, range2Adjacencies[..d + 1]) == Shifted(tile, range2Adjacencies[..d]) + [prospect];
        assert (Shifted(tile, range2Adjacencies[..d]) + [prospect])[..d] == Shifted(tile, range2Adjacencies[..d]);
        if Validate(b, prospect, Some(Mine), false) && prospect !in mine {
          mine := mine + [prospect];
        }
        if Validate(b, prospect, Some(Farm), false) && prospect !in farm {
          farm := farm + [prospect];
        }
        d := d + 1;
      }
      assert range2Adjacencies[..|range2Adjacencies|] == range2Adjacencies;
    }

    /** The body of ExploreAndCullFrontier for one kept tile: City, Mine and
        Farm candidates at the orthogonal steps, then Mine and Farm
        candidates at the eight range-2 offsets. */
    method ExploreAround(tile: Coord)
      modifies this
      ensures Candidates() == ExploredAt(old(Candidates()), board.State(), tile, adjacencies, range2Adjacencies)
      ensures movesLeft == old(movesLeft)
    {
      var b := board.State();
      var city, mine1, farm1 := ProbeNear(b, tile, cityReach, mineReach, farmReach);
      var mine, farm := ProbeFar(b, tile, mine1, farm1);
      assert Shifted(tile, adjacencies + range2Adjacencies) == Shifted(tile, adjacencies) + Shifted(tile, range2Adjacencies);
      AddValidAppend(mineReach, b, Shifted(tile, adjacencies), Shifted(tile, range2Adjacencies), Mine);
      AddValidAppend(farmReach, b, Shifted(tile, adjacencies), Shifted(tile, range2Adjacencies), Farm);
      cityReach, mineReach, farmReach := city, mine, farm;
    }

    /** Walks the frontier once: a surrounded tile is removed in place and
        the index stays put (the code's `i--` cancels the loop's `i++`);
        every other tile is explored. */
    method ExploreAndCullFrontier()
      modifies this
      ensures Candidates() == Explored(old(Candidates()), board.State(), surrounded, adjacencies, range2Adjacencies)
      ensures movesLeft == old(movesLeft)
      ensures old(Wellformed(Candidates())) ==> Wellformed(Candidates())
    {
      ghost var k0 := Candidates();
      ghost var f0 := frontier;
      ghost var b := board.State();
      var i := 0;
      ghost var j := 0;
      ghost var kept: seq<Coord> := [];
      ProgressStart(k0, b, adjacencies, range2Adjacencies);
      while i < |frontier|
        invariant 0 <= j <= |f0|
        invariant board.State() == b
        invariant kept == Kept(f0[..j], b, surrounded)
        invariant Candidates() == Progress(k0, b, adjacencies, range2Adjacencies, kept, f0[j..])
        invariant i == |kept|
        invariant movesLeft == old(movesLeft)
        decreases |f0| - j
      {
        var tile := frontier[i];
        assert f0[j..][0] == tile == f0[j];
        KeptStep(f0, j, b, surrounded);
        if surrounded(board.State(), tile) {
          assert tile !in kept by {
            KeptMembers(f0[..j], b, surrounded);
          }
          ProgressCull(k0, b, adjacencies, range2Adjacencies, kept, f0[j..]);
          frontier := RemoveFirst(frontier, tile);
        } else {
          ProgressKeep(k0, b, adjacencies, range2Adjacencies, kept, f0[j..]);
          ExploreAround(tile);
          kept := kept + [tile];
          i := i + 1;
        }
        assert f0[j..][1..] == f0[j + 1..];
        j := j + 1;
      }
      assert f0[..j] == f0;
      assert f0[j..] == [];
      ProgressEnd(k0, b, surrounded, adjacencies, range2Adjacencies);
      if Wellformed(k0) {
        ExploredWellformed(k0, b, surrounded, adjacencies, range2Adjacencies);
      }
    }

    /** Starts the opponent at the beginning of the game: empty candidate
        lists, the board's City tiles as the frontier, then one exploration. */
    method Initialise(cityTiles: seq<Coord>)
      modifies this
      ensures Candidates() == Explored(Cache(cityTiles, [], [], []), board.State(), surrounded, adjacencies, range2Adjacencies)
      ensures Distinct(cityTiles) ==> Wellformed(Candidates())
      ensures Sound(Candidates(), board.State())
      ensures forall x :: x in frontier <==> x in cityTiles && !surrounded(board.State(), x)
      ensures movesLeft == old(movesLeft)
    {
      cityReach := [];
      mineReach := [];
      farmReach := [];
      frontier := cityTiles;
      ExploreAndCullFrontier();
      ExploredSound(Cache(cityTiles, [], [], []), board.State(), surrounded, adjacencies, range2Adjacencies);
      ExploredFrontier(Cache(cityTiles, [], [], []), board.State(), surrounded, adjacencies, range2Adjacencies);
    }

    /** The first part of OnResourceAdded: c leaves the three candidate
        lists, then the placed terrain decides what is probed. */
    method Note(c: Coord, t: Terrain)
      modifies this
      ensures Candidates() == Noted(old(Candidates()), board.State(), c, t, adjacencies)
      ensures movesLeft == old(movesLeft)
    {
      var front := frontier;
      var city := RemoveFirst(cityReach, c);
      var mine := RemoveFirst(mineReach, c);
      var farm := RemoveFirst(farmReach, c);
      match t {
        case Mountain =>
          mine := AddValidAround(mine, c, adjacencies, Mine);
        case Water =>
          farm := AddValidAround(farm, c, adjacencies, Farm);
        case Farm | Mine | City =>
          front := AddNew(front, c);
          city := AddValidAround(city, c, adjacencies, City);
        case _ =>
          farm := AddIfValid(farm, c, Farm);
          mine := AddIfValid(mine, c, Mine);
          city := AddIfValid(city, c, City);
      }
      frontier, cityReach, mineReach, farmReach := front, city, mine, farm;
    }

    /** Brings the lists up to date after t was placed at c, then explores
        the frontier again. */
    method OnResourceAdded(c: Coord, t: Terrain)
      modifies this
      ensures Candidates() == Explored(Noted(old(Candidates()), board.State(), c, t, adjacencies), board.State(), surrounded, adjacencies, range2Adjacencies)
      ensures movesLeft == old(movesLeft)
      ensures old(Wellformed(Candidates())) ==> Wellformed(Candidates())
      ensures old(Sound(Candidates(), board.State())) ==> Sound(Candidates(), board.State())
    {
      ghost var k0 := Candidates();
      Note(c, t);
      ghost var n := Candidates();
      ExploreAndCullFrontier();
      if Wellformed(k0) {
        NotedWellformed(k0, board.State(), c, t, adjacencies);
      }
      if Sound(k0, board.State()) {
        NotedSound(k0, board.State(), c, t, adjacencies);
        ExploredSound(n, board.State(), surrounded, adjacencies, range2Adjacencies);
      }
    }

    /** Places one tile of kind t at an arbitrary entry of its candidate
        list, if that list is non-empty; any other kind is refused. The lists
        themselves are left alone. */
    method TryPlaceTile(t: Terrain) returns (placed: bool, ghost at: Coord)
      modifies board
      ensures placed <==> Reach(Candidates(), t) != []
      ensures placed <==> (t == Farm || t == Mine || t == City) && Reach(Candidates(), t) != []
      ensures placed ==> at in Reach(Candidates(), t) && board.State() == Submitted(old(board.State()), at, Some(t), false)
      ensures !placed ==> board.State() == old(board.State())
      ensures Candidates() == old(Candidates())
    {
      at := Coord(0, 0);  // meaningful only when a tile is placed
      match t {
        case Mine =>
          if |mineReach| > 0 {
            var index :| 0 <= index < |mineReach|;
            at := mineReach[index];
            board.Submit(mineReach[index], Some(Mine), false);
            placed := true;
          } else {
            placed := false;
          }
        case Farm =>
          if |farmReach| > 0 {
            var index :| 0 <= index < |farmReach|;
            at := farmReach[index];
            board.Submit(farmReach[index], Some(Farm), false);
            placed := true;
          } else {
            placed := false;
          }
        case City =>
          if |cityReach| > 0 {
            var index :| 0 <= index < |cityReach|;
            at := cityReach[index];
            board.Submit(cityReach[index], Some(City), false);
            placed := true;
          } else {
            placed := false;
          }
        case _ =>
          placed := false;
      }
    }

    /** `TryPlaceTile(Farm) || TryPlaceTile(Mine) || TryPlaceTile(City)`:
        the first kind with a non-empty list is placed, the others are not
        tried. */
    method TryPlaceBest() returns (placed: bool, ghost at: Coord)
      modifies board
      ensures placed <==> Priority(Candidates()).Some?
      ensures placed ==> at in Reach(Candidates(), Priority(Candidates()).value) &&
                         board.State() == Submitted(old(board.State()), at, Priority(Candidates()), false)
      ensures !placed ==> board.State() == old(board.State())
      ensures Candidates() == old(Candidates())
    {
      placed, at := TryPlaceTile(Farm);
      if !placed {
        placed, at := TryPlaceTile(Mine);
      }
      if !placed {
        placed, at := TryPlaceTile(City);
      }
    }

    /** One pass of the CPU's turn loop, entered once the wait for the CPU's
        turn is over: nothing happens after the game has ended; otherwise
        the budget is read, the frontier explored, and up to that many tiles
        placed, Farm before Mine before City, before the turn passes back. */
    method TakeTurn() returns (ghost moves: seq<Coord>, ghost kind: Option<Terrain>)
      requires manager.gameState == TurnCPU || manager.gameState == GameEnded
      modifies this, board, manager
      ensures old(manager.gameState) == GameEnded ==>
                manager.gameState == GameEnded && board.State() == old(board.State()) &&
                Candidates() == old(Candidates()) && movesLeft == old(movesLeft) && moves == []
      ensures old(manager.gameState) == TurnCPU ==>
                manager.gameState == TurnPlayer &&
                Candidates() == Explored(old(Candidates()), old(board.State()), surrounded, adjacencies, range2Adjacencies) &&
                kind == Priority(Candidates())
      ensures old(manager.gameState) == TurnCPU && kind == None ==>
                moves == [] && board.State() == old(board.State()) && movesLeft == old(board.humanMovesPerTurn)
      ensures old(manager.gameState) == TurnCPU && kind.Some? ==>
                |moves| == (if old(board.humanMovesPerTurn) > 0 then old(board.humanMovesPerTurn) else 0) &&
                movesLeft == (if old(board.humanMovesPerTurn) > 0 then 0 else old(board.humanMovesPerTurn)) &&
                (forall m :: m in moves ==> m in Reach(Candidates(), kind.value)) &&
                board.State() == Replay(old(board.State()), moves, kind.value)
    {
      moves := [];
      kind := None;
      if manager.gameState == GameEnded {
        return;
      }
      var budget := board.humanMovesPerTurn;
      movesLeft := budget;
      ExploreAndCullFrontier();
      ghost var b0 := board.State();
      ghost var k := Candidates();
      kind := Priority(k);
      while movesLeft > 0
        invariant manager.gameState == TurnCPU
        invariant Candidates() == k
        invariant movesLeft + |moves| == budget
        invariant moves != [] ==> movesLeft >= 0 && kind.Some?
        invariant kind.Some? ==> (forall m :: m in moves ==> m in Reach(k, kind.value)) && board.State() == Replay(b0, moves, kind.value)
        invariant kind == None ==> board.State() == b0
        decreases movesLeft
      {
        var placed;
        ghost var at;
        placed, at := TryPlaceBest();
        if placed {
          movesLeft := movesLeft - 1;
          assert (moves + [at])[..|moves|] == moves;
          moves := moves + [at];
        } else {
          break;
        }
      }
      if manager.gameState != GameEnded {
        manager.AdvanceTurn();
      }
    }
  }
}
