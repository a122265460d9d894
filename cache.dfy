/** The opponent's candidate cache as values: the City frontier and the
    three "reachable" lists, and what exploring the frontier and noting a
    placed resource do to them.  Every list operation is the list's own
    `Remove` or a `Contains`-guarded `Add`, so every definition here keeps
    list order. */
module Cache {

  import opened Tiles
  import opened Lists
  import opened Rules

  /** The frontier, then the City, Mine and Farm candidate lists. */
  datatype Cache = Cache(frontier: seq<Coord>, city: seq<Coord>, mine: seq<Coord>, farm: seq<Coord>)

  /** None of the four lists holds a coordinate twice. */
  predicate Wellformed(k: Cache) {
    Distinct(k.frontier) && Distinct(k.city) && Distinct(k.mine) && Distinct(k.farm)
  }

  /** The candidate list kept for a placeable kind; other kinds have none. */
  function Reach(k: Cache, t: Terrain): seq<Coord> {
    match t
    case City => k.city
    case Mine => k.mine
    case Farm => k.farm
    case _ => []
  }

  /** The frontier with its surrounded tiles dropped, in order. */
  function Kept(f: seq<Coord>, b: Board, surrounded: (Board, Coord) -> bool): (r: seq<Coord>)
    ensures |r| <= |f|
  {
    if f == [] then []
    else
      var rest := Kept(f[..|f| - 1], b, surrounded);
      if surrounded(b, f[|f| - 1]) then rest else rest + [f[|f| - 1]]
  }

  /** The cells `t + d` for the offsets d, in table order. */
  function Shifted(t: Coord, offs: seq<Coord>): (r: seq<Coord>)
    ensures |r| == |offs|
    ensures forall i :: 0 <= i < |offs| ==> r[i] == t.Plus(offs[i])
  {
    seq(|offs|, i requires 0 <= i < |offs| => t.Plus(offs[i]))
  }

  /** The cells probed around each tile in turn. */
  function Probes(tiles: seq<Coord>, offs: seq<Coord>): (r: seq<Coord>)
    ensures |r| == |tiles| * |offs|
  {
    if tiles == [] then []
    else Probes(tiles[..|tiles| - 1], offs) + Shifted(tiles[|tiles| - 1], offs)
  }

  /** The probed cells visited in order, each appended to l when it validates
      for kind t (without bypass) and is not yet in l. */
  function AddValid(l: seq<Coord>, b: Board, probes: seq<Coord>, t: Terrain): (r: seq<Coord>)
    ensures |l| <= |r| <= |l| + |probes|
  {
    if probes == [] then l
    else
      var before := AddValid(l, b, probes[..|probes| - 1], t);
      var x := probes[|probes| - 1];
      if Validate(b, x, Some(t), false) then AddNew(before, x) else before
  }

  /** ExploreAndCullFrontier with the opponent's orthogonal table `near` and
      range-2 table `far`: the frontier loses its surrounded tiles; around
      each kept tile, City candidates are probed at the `near` offsets,
      Mine and Farm candidates at those and then at the `far` offsets. */
  function Explored(k: Cache, b: Board, surrounded: (Board, Coord) -> bool, near: seq<Coord>, far: seq<Coord>): (r: Cache)
    ensures |r.frontier| <= |k.frontier|
    ensures |k.city| <= |r.city| <= |k.city| + |r.frontier| * |near|
    ensures |k.mine| <= |r.mine| && |k.farm| <= |r.farm|
  {
    var kept := Kept(k.frontier, b, surrounded);
    Cache(kept,
          AddValid(k.city, b, Probes(kept, near), City),
          AddValid(k.mine, b, Probes(kept, near + far), Mine),
          AddValid(k.farm, b, Probes(kept, near + far), Farm))
  }

  /** The lists part-way through the frontier walk: the tiles kept so far
      have been explored, the rest of the frontier is still to be visited. */
  function Progress(k: Cache, b: Board, near: seq<Coord>, far: seq<Coord>, kept: seq<Coord>, rest: seq<Coord>): Cache {
    Cache(kept + rest,
          AddValid(k.city, b, Probes(kept, near), City),
          AddValid(k.mine, b, Probes(kept, near + far), Mine),
          AddValid(k.farm, b, Probes(kept, near + far), Farm))
  }

  /** The candidates found around one tile, added to the three lists. */
  function ExploredAt(k: Cache, b: Board, tile: Coord, near: seq<Coord>, far: seq<Coord>): (r: Cache)
    ensures r.frontier == k.frontier
    ensures |k.city| <= |r.city| <= |k.city| + |near|
    ensures |k.mine| <= |r.mine| <= |k.mine| + |near| + |far|
    ensures |k.farm| <= |r.farm| <= |k.farm| + |near| + |far|
  {
    Cache(k.frontier,
          AddValid(k.city, b, Shifted(tile, near), City),
          AddValid(k.mine, b, Shifted(tile, near + far), Mine),
          AddValid(k.farm, b, Shifted(tile, near + far), Farm))
  }

  /** OnResourceAdded before its final exploration, with the orthogonal
      table `near`: x leaves the three candidate lists, then the placed
      terrain t decides what is probed. */
  function Noted(k: Cache, b: Board, x: Coord, t: Terrain, near: seq<Coord>): (r: Cache)
    ensures t !in HumanKinds ==> r.frontier == k.frontier
    ensures |k.frontier| <= |r.frontier| <= |k.frontier| + 1
  {
    var city := RemoveFirst(k.city, x);
    var mine := RemoveFirst(k.mine, x);
    var farm := RemoveFirst(k.farm, x);
    match t
    case Mountain => Cache(k.frontier, city, AddValid(mine, b, Shifted(x, near), Mine), farm)
    case Water => Cache(k.frontier, city, mine, AddValid(farm, b, Shifted(x, near), Farm))
    case Farm | Mine | City => Cache(AddNew(k.frontier, x), AddValid(city, b, Shifted(x, near), City), mine, farm)
    case _ => Cache(k.frontier, AddValid(city, b, [x], City), AddValid(mine, b, [x], Mine), AddValid(farm, b, [x], Farm))
  }

  /** The kind a CPU move places: Farm before Mine before City, the first
      whose list is non-empty.  The chosen kind has a non-empty list, every
      kind preferred over it has an empty one, and no kind is chosen only
      when all three lists are empty. */
  function Priority(k: Cache): (r: Option<Terrain>)
    ensures r == None <==> k.city == [] && k.mine == [] && k.farm == []
    ensures r.Some? ==> Reach(k, r.value) != []
    ensures r == Some(Mine) ==> k.farm == []
    ensures r == Some(City) ==> k.farm == [] && k.mine == []
  {
    if k.farm != [] then Some(Farm)
    else if k.mine != [] then Some(Mine)
    else if k.city != [] then Some(City)
    else None
  }

  /** The board after `moves` are submitted in order as kind t, without
      bypass.  Each move raises the budget by at most one and never lowers
      it; City moves leave it alone. */
  function Replay(b: Board, moves: seq<Coord>, t: Terrain): (r: Board)
    ensures b.humanMovesPerTurn <= r.humanMovesPerTurn <= b.humanMovesPerTurn + |moves|
    ensures t == City ==> r.humanMovesPerTurn == b.humanMovesPerTurn
  {
    if moves == [] then b
    else Submitted(Replay(b, moves[..|moves| - 1], t), moves[|moves| - 1], Some(t), false)
  }
}
