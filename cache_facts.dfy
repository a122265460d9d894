/** What the cache operations promise: the frontier cull is an
    order-keeping filter, the candidate lists only grow during exploration,
    every added candidate validated when it was added, no list ever holds a
    duplicate, and each branch of noting a resource touches only its list. */
module CacheFacts {

  import opened Tiles
  import opened Lists
  import opened Rules
  import opened Cache

  // ---------------------------------------------------------------------
  // The frontier cull.

  /** The kept frontier holds exactly the old frontier's unsurrounded tiles. */
  lemma {:induction false} KeptMembers(f: seq<Coord>, b: Board, surrounded: (Board, Coord) -> bool)
    ensures forall x :: x in Kept(f, b, surrounded) <==> x in f && !surrounded(b, x)
  {
    if f != [] {
      KeptMembers(f[..|f| - 1], b, surrounded);
      assert f == f[..|f| - 1] + [f[|f| - 1]];
    }
  }

  /** Culling a concatenation culls each part: the filter keeps order. */
  lemma {:induction false} KeptAppend(f: seq<Coord>, g: seq<Coord>, b: Board, surrounded: (Board, Coord) -> bool)
    ensures Kept(f + g, b, surrounded) == Kept(f, b, surrounded) + Kept(g, b, surrounded)
  {
    if g == [] {
      assert f + g == f;
    } else {
      assert (f + g)[..|f + g| - 1] == f + g[..|g| - 1];
      assert (f + g)[|f + g| - 1] == g[|g| - 1];
      KeptAppend(f, g[..|g| - 1], b, surrounded);
    }
  }

  /** A frontier with no surrounded tile is kept whole. */
  lemma {:induction false} KeptNothingToCull(f: seq<Coord>, b: Board, surrounded: (Board, Coord) -> bool)
    requires forall x :: x in f ==> !surrounded(b, x)
    ensures Kept(f, b, surrounded) == f
  {
    if f != [] {
      KeptNothingToCull(f[..|f| - 1], b, surrounded);
      assert f == f[..|f| - 1] + [f[|f| - 1]];
    }
  }

  /** Culling never creates a duplicate. */
  lemma {:induction false} KeptDistinct(f: seq<Coord>, b: Board, surrounded: (Board, Coord) -> bool)
    requires Distinct(f)
    ensures Distinct(Kept(f, b, surrounded))
  {
    if f != [] {
      DistinctInit(f);
      KeptDistinct(f[..|f| - 1], b, surrounded);
      KeptMembers(f[..|f| - 1], b, surrounded);
      if !surrounded(b, f[|f| - 1]) {
        DistinctSnoc(Kept(f[..|f| - 1], b, surrounded), f[|f| - 1]);
      }
    }
  }

  /** One more frontier tile either is culled or joins the kept tiles. */
  lemma KeptStep(f: seq<Coord>, j: nat, b: Board, surrounded: (Board, Coord) -> bool)
    requires j < |f|
    ensures Kept(f[..j + 1], b, surrounded) ==
            if surrounded(b, f[j]) then Kept(f[..j], b, surrounded) else Kept(f[..j], b, surrounded) + [f[j]]
  {
    assert f[..j + 1][..j] == f[..j];
  }

  /** Removing a surrounded tile that follows the kept prefix cuts out
      exactly that tile: no earlier copy of it survived the cull. */
  lemma CullRemoves(f: seq<Coord>, j: nat, b: Board, surrounded: (Board, Coord) -> bool)
    requires j < |f|
    requires surrounded(b, f[j])
    ensures RemoveFirst(Kept(f[..j], b, surrounded) + f[j..], f[j]) == Kept(f[..j], b, surrounded) + f[j + 1..]
  {
    var kept := Kept(f[..j], b, surrounded);
    var s := kept + f[j..];
    KeptMembers(f[..j], b, surrounded);
    assert s[..|kept|] == kept;
    assert s[|kept|] == f[j];
    RemoveFirstAt(s, |kept|);
    assert s[|kept| + 1..] == f[j + 1..];
  }

  // ---------------------------------------------------------------------
  // Guarded additions of validated probes.

  /** A candidate list after the probes holds its old entries and exactly
      the probes that validate for the kind. */
  lemma {:induction false} AddValidMembers(l: seq<Coord>, b: Board, probes: seq<Coord>, t: Terrain)
    ensures forall y :: y in AddValid(l, b, probes, t) <==> y in l || (y in probes && Validate(b, y, Some(t), false))
  {
    if probes != [] {
      AddValidMembers(l, b, probes[..|probes| - 1], t);
      assert probes == probes[..|probes| - 1] + [probes[|probes| - 1]];
    }
  }

  /** Additions only append: the old list is a prefix of the new one. */
  lemma {:induction false} AddValidPrefix(l: seq<Coord>, b: Board, probes: seq<Coord>, t: Terrain)
    ensures l <= AddValid(l, b, probes, t)
  {
    if probes != [] {
      AddValidPrefix(l, b, probes[..|probes| - 1], t);
    }
  }

  /** Additions never create a duplicate. */
  lemma {:induction false} AddValidDistinct(l: seq<Coord>, b: Board, probes: seq<Coord>, t: Terrain)
    requires Distinct(l)
    ensures Distinct(AddValid(l, b, probes, t))
  {
    if probes != [] {
      AddValidDistinct(l, b, probes[..|probes| - 1], t);
      AddNewDistinct(AddValid(l, b, probes[..|probes| - 1], t), probes[|probes| - 1]);
    }
  }

  /** Probing p and then q is probing p + q. */
  lemma {:induction false} AddValidAppend(l: seq<Coord>, b: Board, p: seq<Coord>, q: seq<Coord>, t: Terrain)
    ensures AddValid(l, b, p + q, t) == AddValid(AddValid(l, b, p, t), b, q, t)
  {
    if q == [] {
      assert p + q == p;
    } else {
      assert (p + q)[..|p + q| - 1] == p + q[..|q| - 1];
      assert (p + q)[|p + q| - 1] == q[|q| - 1];
      AddValidAppend(l, b, p, q[..|q| - 1], t);
    }
  }

  /** A single probe is one guarded addition. */
  lemma AddValidOne(l: seq<Coord>, b: Board, x: Coord, t: Terrain)
    ensures AddValid(l, b, [x], t) == if Validate(b, x, Some(t), false) && x !in l then l + [x] else l
  {
    assert [x][..0] == [];
  }

  /** Probes whose valid cells are all listed already change nothing. */
  lemma {:induction false} AddValidSaturated(l: seq<Coord>, b: Board, probes: seq<Coord>, t: Terrain)
    requires forall y :: y in probes && Validate(b, y, Some(t), false) ==> y in l
    ensures AddValid(l, b, probes, t) == l
  {
    if probes != [] {
      assert forall y :: y in probes[..|probes| - 1] ==> y in probes;
      AddValidSaturated(l, b, probes[..|probes| - 1], t);
    }
  }

  // ---------------------------------------------------------------------
  // Which cells are probed.

  ghost predicate Near(tiles: seq<Coord>, y: Coord, lo: nat, hi: nat) {
    exists t :: t in tiles && lo <= Dist(y, t) <= hi
  }

  /** The probes are exactly the cells one offset away from one of the tiles. */
  lemma {:induction false} ProbesMembers(tiles: seq<Coord>, offs: seq<Coord>)
    ensures forall y :: y in Probes(tiles, offs) <==> exists t, d :: t in tiles && d in offs && y == t.Plus(d)
  {
    if tiles != [] {
      var init, last := tiles[..|tiles| - 1], tiles[|tiles| - 1];
      ProbesMembers(init, offs);
      assert tiles == init + [last];
      forall y ensures y in Probes(tiles, offs) <==> exists t, d :: t in tiles && d in offs && y == t.Plus(d) {
        if y in Shifted(last, offs) {
          var j :| 0 <= j < |offs| && Shifted(last, offs)[j] == y;
          assert last in tiles && offs[j] in offs && y == last.Plus(offs[j]);
        }
        if exists t, d :: t in tiles && d in offs && y == t.Plus(d) {
          var t, d :| t in tiles && d in offs && y == t.Plus(d);
          if t == last {
            var j :| 0 <= j < |offs| && offs[j] == d;
            assert Shifted(last, offs)[j] == y;
          } else {
            assert t in init;
          }
        }
      }
    }
  }

  /** When the offset table is a distance band, the probes are the cells in
      that band around one of the tiles. */
  lemma ProbesBand(tiles: seq<Coord>, offs: seq<Coord>, lo: nat, hi: nat)
    requires forall d :: d in offs <==> lo <= Manhattan(d) <= hi
    ensures forall y :: y in Probes(tiles, offs) <==> Near(tiles, y, lo, hi)
  {
    ProbesMembers(tiles, offs);
    forall y ensures y in Probes(tiles, offs) <==> Near(tiles, y, lo, hi) {
      if y in Probes(tiles, offs) {
        var t, d :| t in tiles && d in offs && y == t.Plus(d);
        assert Coord(y.x - t.x, y.y - t.y) == d;
      }
      if Near(tiles, y, lo, hi) {
        var t :| t in tiles && lo <= Dist(y, t) <= hi;
        var d := Coord(y.x - t.x, y.y - t.y);
        assert d in offs && y == t.Plus(d);
      }
    }
  }

  lemma ProbesAdjacent(tiles: seq<Coord>)
    ensures forall y :: y in Probes(tiles, Adjacencies) <==> Near(tiles, y, 1, 1)
  {
    forall d ensures d in Adjacencies <==> 1 <= Manhattan(d) <= 1 {
      AdjacenciesAreUnitSteps(d);
    }
    ProbesBand(tiles, Adjacencies, 1, 1);
  }

  lemma ProbesRange2(tiles: seq<Coord>)
    ensures forall y :: y in Probes(tiles, Adjacencies + AIRange2) <==> Near(tiles, y, 1, 2)
  {
    BoardRange2Split();
    forall d ensures d in Adjacencies + AIRange2 <==> 1 <= Manhattan(d) <= 2 {
      BoardRange2IsBall(d);
    }
    ProbesBand(tiles, Adjacencies + AIRange2, 1, 2);
  }

  /** The cells probed around one tile at the orthogonal steps are its four
      neighbours. */
  lemma ShiftedAdjacent(x: Coord)
    ensures forall y :: y in Shifted(x, Adjacencies) <==> Dist(y, x) == 1
  {
    forall y ensures y in Shifted(x, Adjacencies) <==> Dist(y, x) == 1 {
      var d := Coord(y.x - x.x, y.y - x.y);
      AdjacenciesAreUnitSteps(d);
      if Dist(y, x) == 1 {
        var j :| 0 <= j < |Adjacencies| && Adjacencies[j] == d;
        assert Shifted(x, Adjacencies)[j] == y;
      }
    }
  }

  /** Exploring around one more kept tile extends the probe sequence. */
  lemma ProbeStep(l: seq<Coord>, b: Board, kept: seq<Coord>, tile: Coord, offs: seq<Coord>, t: Terrain)
    ensures AddValid(AddValid(l, b, Probes(kept, offs), t), b, Shifted(tile, offs), t) ==
            AddValid(l, b, Probes(kept + [tile], offs), t)
  {
    assert (kept + [tile])[..|kept|] == kept;
    AddValidAppend(l, b, Probes(kept, offs), Shifted(tile, offs), t);
  }

  /** The walk starts with nothing explored. */
  lemma ProgressStart(k: Cache, b: Board, near: seq<Coord>, far: seq<Coord>)
    ensures Progress(k, b, near, far, [], k.frontier) == k
  {
  }

  /** Exploring the next tile moves it from the rest to the kept tiles. */
  lemma ProgressKeep(k: Cache, b: Board, near: seq<Coord>, far: seq<Coord>, kept: seq<Coord>, rest: seq<Coord>)
    requires rest != []
    ensures ExploredAt(Progress(k, b, near, far, kept, rest), b, rest[0], near, far) == Progress(k, b, near, far, kept + [rest[0]], rest[1..])
  {
    assert kept + rest == (kept + [rest[0]]) + rest[1..];
    ProbeStep(k.city, b, kept, rest[0], near, City);
    ProbeStep(k.mine, b, kept, rest[0], near + far, Mine);
    ProbeStep(k.farm, b, kept, rest[0], near + far, Farm);
  }

  /** Removing the next tile, which is not among the kept ones, drops it
      from the rest. */
  lemma ProgressCull(k: Cache, b: Board, near: seq<Coord>, far: seq<Coord>, kept: seq<Coord>, rest: seq<Coord>)
    requires rest != [] && rest[0] !in kept
    ensures Progress(k, b, near, far, kept, rest).(frontier := RemoveFirst(kept + rest, rest[0])) == Progress(k, b, near, far, kept, rest[1..])
  {
    var s := kept + rest;
    assert s[..|kept|] == kept && s[|kept|] == rest[0];
    RemoveFirstAt(s, |kept|);
    assert s[|kept| + 1..] == rest[1..];
  }

  /** The walk ends in the explored cache. */
  lemma ProgressEnd(k: Cache, b: Board, surrounded: (Board, Coord) -> bool, near: seq<Coord>, far: seq<Coord>)
    ensures Progress(k, b, near, far, Kept(k.frontier, b, surrounded), []) == Explored(k, b, surrounded, near, far)
  {
    assert Kept(k.frontier, b, surrounded) + [] == Kept(k.frontier, b, surrounded);
  }

  // ---------------------------------------------------------------------
  // ExploreAndCullFrontier.

  /** After exploring, the frontier is the old frontier's unsurrounded tiles;
      none of them is surrounded. */
  lemma ExploredFrontier(k: Cache, b: Board, surrounded: (Board, Coord) -> bool, near: seq<Coord>, far: seq<Coord>)
    ensures forall x :: x in Explored(k, b, surrounded, near, far).frontier <==> x in k.frontier && !surrounded(b, x)
    ensures |Explored(k, b, surrounded, near, far).frontier| <= |k.frontier|
  {
    KeptMembers(k.frontier, b, surrounded);
  }

  /** Exploring only appends to the candidate lists. */
  lemma ExploredOnlyAdds(k: Cache, b: Board, surrounded: (Board, Coord) -> bool, near: seq<Coord>, far: seq<Coord>)
    ensures k.city <= Explored(k, b, surrounded, near, far).city
    ensures k.mine <= Explored(k, b, surrounded, near, far).mine
    ensures k.farm <= Explored(k, b, surrounded, near, far).farm
  {
    var kept := Kept(k.frontier, b, surrounded);
    AddValidPrefix(k.city, b, Probes(kept, near), City);
    AddValidPrefix(k.mine, b, Probes(kept, near + far), Mine);
    AddValidPrefix(k.farm, b, Probes(kept, near + far), Farm);
  }

  /** A City candidate is new after exploring exactly when it validates for
      City and neighbours a kept frontier tile. */
  lemma ExploredCity(k: Cache, b: Board, surrounded: (Board, Coord) -> bool)
    ensures forall y :: y in Explored(k, b, surrounded, Adjacencies, AIRange2).city <==>
              y in k.city || (Validate(b, y, Some(City), false) && Near(Explored(k, b, surrounded, Adjacencies, AIRange2).frontier, y, 1, 1))
  {
    var kept := Kept(k.frontier, b, surrounded);
    AddValidMembers(k.city, b, Probes(kept, Adjacencies), City);
    ProbesAdjacent(kept);
  }

  /** A Mine candidate is new after exploring exactly when it validates for
      Mine and lies within distance 2 of a kept frontier tile. */
  lemma ExploredMine(k: Cache, b: Board, surrounded: (Board, Coord) -> bool)
    ensures forall y :: y in Explored(k, b, surrounded, Adjacencies, AIRange2).mine <==>
              y in k.mine || (Validate(b, y, Some(Mine), false) && Near(Explored(k, b, surrounded, Adjacencies, AIRange2).frontier, y, 1, 2))
  {
    var kept := Kept(k.frontier, b, surrounded);
    AddValidMembers(k.mine, b, Probes(kept, Adjacencies + AIRange2), Mine);
    ProbesRange2(kept);
  }

  /** A Farm candidate is new after exploring exactly when it validates for
      Farm and lies within distance 2 of a kept frontier tile. */
  lemma ExploredFarm(k: Cache, b: Board, surrounded: (Board, Coord) -> bool)
    ensures forall y :: y in Explored(k, b, surrounded, Adjacencies, AIRange2).farm <==>
              y in k.farm || (Validate(b, y, Some(Farm), false) && Near(Explored(k, b, surrounded, Adjacencies, AIRange2).frontier, y, 1, 2))
  {
    var kept := Kept(k.frontier, b, surrounded);
    AddValidMembers(k.farm, b, Probes(kept, Adjacencies + AIRange2), Farm);
    ProbesRange2(kept);
  }

  /** Exploring keeps every list duplicate-free. */
  lemma ExploredWellformed(k: Cache, b: Board, surrounded: (Board, Coord) -> bool, near: seq<Coord>, far: seq<Coord>)
    requires Wellformed(k)
    ensures Wellformed(Explored(k, b, surrounded, near, far))
  {
    var kept := Kept(k.frontier, b, surrounded);
    KeptDistinct(k.frontier, b, surrounded);
    AddValidDistinct(k.city, b, Probes(kept, near), City);
    AddValidDistinct(k.mine, b, Probes(kept, near + far), Mine);
    AddValidDistinct(k.farm, b, Probes(kept, near + far), Farm);
  }

  /** On an unchanged board a second exploration changes nothing. */
  lemma ExploredIdempotent(k: Cache, b: Board, surrounded: (Board, Coord) -> bool, near: seq<Coord>, far: seq<Coord>)
    ensures Explored(Explored(k, b, surrounded, near, far), b, surrounded, near, far) == Explored(k, b, surrounded, near, far)
  {
    var r := Explored(k, b, surrounded, near, far);
    var kept := r.frontier;
    KeptMembers(k.frontier, b, surrounded);
    KeptNothingToCull(kept, b, surrounded);
    AddValidMembers(k.city, b, Probes(kept, near), City);
    AddValidMembers(k.mine, b, Probes(kept, near + far), Mine);
    AddValidMembers(k.farm, b, Probes(kept, near + far), Farm);
    AddValidSaturated(r.city, b, Probes(kept, near), City);
    AddValidSaturated(r.mine, b, Probes(kept, near + far), Mine);
    AddValidSaturated(r.farm, b, Probes(kept, near + far), Farm);
  }

  // ---------------------------------------------------------------------
  // OnResourceAdded, branch by branch.

  /** A Mountain only adds Mine candidates: the neighbours that validate. */
  lemma NotedMountain(k: Cache, b: Board, x: Coord)
    requires Wellformed(k)
    ensures Noted(k, b, x, Mountain, Adjacencies).frontier == k.frontier
    ensures forall y :: y in Noted(k, b, x, Mountain, Adjacencies).city <==> y in k.city && y != x
    ensures forall y :: y in Noted(k, b, x, Mountain, Adjacencies).farm <==> y in k.farm && y != x
    ensures forall y :: y in Noted(k, b, x, Mountain, Adjacencies).mine <==>
              (y in k.mine && y != x) || (Dist(y, x) == 1 && Validate(b, y, Some(Mine), false))
  {
    RemoveFirstDistinct(k.city, x);
    RemoveFirstDistinct(k.mine, x);
    RemoveFirstDistinct(k.farm, x);
    AddValidMembers(RemoveFirst(k.mine, x), b, Shifted(x, Adjacencies), Mine);
    ShiftedAdjacent(x);
  }

  /** A Water tile only adds Farm candidates: the neighbours that validate. */
  lemma NotedWater(k: Cache, b: Board, x: Coord)
    requires Wellformed(k)
    ensures Noted(k, b, x, Water, Adjacencies).frontier == k.frontier
    ensures forall y :: y in Noted(k, b, x, Water, Adjacencies).city <==> y in k.city && y != x
    ensures forall y :: y in Noted(k, b, x, Water, Adjacencies).mine <==> y in k.mine && y != x
    ensures forall y :: y in Noted(k, b, x, Water, Adjacencies).farm <==>
              (y in k.farm && y != x) || (Dist(y, x) == 1 && Validate(b, y, Some(Farm), false))
  {
    var farm := RemoveFirst(k.farm, x);
    assert Noted(k, b, x, Water, Adjacencies) == Cache(k.frontier, RemoveFirst(k.city, x), RemoveFirst(k.mine, x), AddValid(farm, b, Shifted(x, Adjacencies), Farm));
    RemoveFirstDistinct(k.city, x);
    RemoveFirstDistinct(k.mine, x);
    RemoveFirstDistinct(k.farm, x);
    AddValidMembers(farm, b, Shifted(x, Adjacencies), Farm);
    ShiftedAdjacent(x);
  }

  /** A human tile joins the frontier and adds the neighbours that validate
      for City. */
  lemma NotedHuman(k: Cache, b: Board, x: Coord, t: Terrain)
    requires Wellformed(k)
    requires t in HumanKinds
    ensures forall y :: y in Noted(k, b, x, t, Adjacencies).frontier <==> y in k.frontier || y == x
    ensures k.frontier <= Noted(k, b, x, t, Adjacencies).frontier
    ensures forall y :: y in Noted(k, b, x, t, Adjacencies).mine <==> y in k.mine && y != x
    ensures forall y :: y in Noted(k, b, x, t, Adjacencies).farm <==> y in k.farm && y != x
    ensures forall y :: y in Noted(k, b, x, t, Adjacencies).city <==>
              (y in k.city && y != x) || (Dist(y, x) == 1 && Validate(b, y, Some(City), false))
  {
    var city := RemoveFirst(k.city, x);
    assert Noted(k, b, x, t, Adjacencies) == Cache(AddNew(k.frontier, x), AddValid(city, b, Shifted(x, Adjacencies), City), RemoveFirst(k.mine, x), RemoveFirst(k.farm, x));
    RemoveFirstDistinct(k.city, x);
    RemoveFirstDistinct(k.mine, x);
    RemoveFirstDistinct(k.farm, x);
    AddValidMembers(city, b, Shifted(x, Adjacencies), City);
    ShiftedAdjacent(x);
  }

  /** Plains or Forest re-validates only the cell itself, for all three kinds. */
  lemma NotedOther(k: Cache, b: Board, x: Coord, t: Terrain, near: seq<Coord>)
    requires Wellformed(k)
    requires t == Plains || t == Forest
    ensures Noted(k, b, x, t, near).frontier == k.frontier
    ensures forall y :: y in Noted(k, b, x, t, near).city <==> (y in k.city && y != x) || (y == x && Validate(b, x, Some(City), false))
    ensures forall y :: y in Noted(k, b, x, t, near).mine <==> (y in k.mine && y != x) || (y == x && Validate(b, x, Some(Mine), false))
    ensures forall y :: y in Noted(k, b, x, t, near).farm <==> (y in k.farm && y != x) || (y == x && Validate(b, x, Some(Farm), false))
  {
    var city, mine, farm := RemoveFirst(k.city, x), RemoveFirst(k.mine, x), RemoveFirst(k.farm, x);
    assert Noted(k, b, x, t, near) == Cache(k.frontier, AddValid(city, b, [x], City), AddValid(mine, b, [x], Mine), AddValid(farm, b, [x], Farm));
    RemoveFirstDistinct(k.city, x);
    RemoveFirstDistinct(k.mine, x);
    RemoveFirstDistinct(k.farm, x);
    AddValidMembers(city, b, [x], City);
    AddValidMembers(mine, b, [x], Mine);
    AddValidMembers(farm, b, [x], Farm);
  }

  /** Noting a resource keeps every list duplicate-free. */
  lemma NotedWellformed(k: Cache, b: Board, x: Coord, t: Terrain, near: seq<Coord>)
    requires Wellformed(k)
    ensures Wellformed(Noted(k, b, x, t, near))
  {
    var city, mine, farm := RemoveFirst(k.city, x), RemoveFirst(k.mine, x), RemoveFirst(k.farm, x);
    RemoveFirstDistinct(k.city, x);
    RemoveFirstDistinct(k.mine, x);
    RemoveFirstDistinct(k.farm, x);
    match t {
      case Mountain => AddValidDistinct(mine, b, Shifted(x, near), Mine);
      case Water => AddValidDistinct(farm, b, Shifted(x, near), Farm);
      case Farm | Mine | City => AddNewDistinct(k.frontier, x); AddValidDistinct(city, b, Shifted(x, near), City);
      case Plains | Forest =>
        AddValidDistinct(city, b, [x], City);
        AddValidDistinct(mine, b, [x], Mine);
        AddValidDistinct(farm, b, [x], Farm);
    }
  }

  /** One cell's membership after guarded additions. */
  lemma AddValidHas(l: seq<Coord>, b: Board, probes: seq<Coord>, t: Terrain, y: Coord)
    ensures y in AddValid(l, b, probes, t) <==> y in l || (y in probes && Validate(b, y, Some(t), false))
  {
    AddValidMembers(l, b, probes, t);
  }

  /** A claimed cell is never a valid candidate, so a guarded addition of
      any probes leaves it out of a list that did not hold it. */
  lemma AddValidSkipsClaimed(l: seq<Coord>, b: Board, probes: seq<Coord>, t: Terrain, x: Coord)
    requires t != Plains
    requires ClaimAt(b, x) != Unclaimed
    requires x !in l
    ensures x !in AddValid(l, b, probes, t)
  {
    AddValidHas(l, b, probes, t, x);
  }

  /** Noting leaves a claimed cell out of every candidate list. */
  lemma NotedDropsClaimed(k: Cache, b: Board, x: Coord, t: Terrain, near: seq<Coord>)
    requires Wellformed(k)
    requires ClaimAt(b, x) != Unclaimed
    ensures x !in Noted(k, b, x, t, near).city
    ensures x !in Noted(k, b, x, t, near).mine
    ensures x !in Noted(k, b, x, t, near).farm
  {
    var city, mine, farm := RemoveFirst(k.city, x), RemoveFirst(k.mine, x), RemoveFirst(k.farm, x);
    RemoveFirstDistinct(k.city, x);
    RemoveFirstDistinct(k.mine, x);
    RemoveFirstDistinct(k.farm, x);
    assert x !in city && x !in mine && x !in farm;
    AddValidSkipsClaimed(city, b, Shifted(x, near), City, x);
    AddValidSkipsClaimed(mine, b, Shifted(x, near), Mine, x);
    AddValidSkipsClaimed(farm, b, Shifted(x, near), Farm, x);
    AddValidSkipsClaimed(city, b, [x], City, x);
    AddValidSkipsClaimed(mine, b, [x], Mine, x);
    AddValidSkipsClaimed(farm, b, [x], Farm, x);
  }

  /** After a full OnResourceAdded, a cell that is no longer Unclaimed is in
      no candidate list. */
  lemma ResourceAddedDropsClaimed(k: Cache, b: Board, x: Coord, t: Terrain, surrounded: (Board, Coord) -> bool, near: seq<Coord>, far: seq<Coord>)
    requires Wellformed(k)
    requires ClaimAt(b, x) != Unclaimed
    ensures x !in Explored(Noted(k, b, x, t, near), b, surrounded, near, far).city
    ensures x !in Explored(Noted(k, b, x, t, near), b, surrounded, near, far).mine
    ensures x !in Explored(Noted(k, b, x, t, near), b, surrounded, near, far).farm
  {
    var n := Noted(k, b, x, t, near);
    NotedDropsClaimed(k, b, x, t, near);
    var kept := Kept(n.frontier, b, surrounded);
    AddValidSkipsClaimed(n.city, b, Probes(kept, near), City, x);
    AddValidSkipsClaimed(n.mine, b, Probes(kept, near + far), Mine, x);
    AddValidSkipsClaimed(n.farm, b, Probes(kept, near + far), Farm, x);
  }

  // ---------------------------------------------------------------------
  // Soundness of the cache on a fixed board.

  /** Every listed candidate validates for its kind on b. */
  ghost predicate Sound(k: Cache, b: Board) {
    (forall y :: y in k.city ==> Validate(b, y, Some(City), false)) &&
    (forall y :: y in k.mine ==> Validate(b, y, Some(Mine), false)) &&
    (forall y :: y in k.farm ==> Validate(b, y, Some(Farm), false))
  }

  /** Exploring adds only candidates that validate. */
  lemma ExploredSound(k: Cache, b: Board, surrounded: (Board, Coord) -> bool, near: seq<Coord>, far: seq<Coord>)
    requires Sound(k, b)
    ensures Sound(Explored(k, b, surrounded, near, far), b)
  {
    var kept := Kept(k.frontier, b, surrounded);
    AddValidMembers(k.city, b, Probes(kept, near), City);
    AddValidMembers(k.mine, b, Probes(kept, near + far), Mine);
    AddValidMembers(k.farm, b, Probes(kept, near + far), Farm);
  }

  /** A guarded addition to a sound list stays sound. */
  lemma AddValidSound(l: seq<Coord>, b: Board, probes: seq<Coord>, t: Terrain)
    requires forall y :: y in l ==> Validate(b, y, Some(t), false)
    ensures forall y :: y in AddValid(l, b, probes, t) ==> Validate(b, y, Some(t), false)
  {
    AddValidMembers(l, b, probes, t);
  }

  /** Noting a resource adds only candidates that validate. */
  lemma NotedSound(k: Cache, b: Board, x: Coord, t: Terrain, near: seq<Coord>)
    requires Sound(k, b)
    ensures Sound(Noted(k, b, x, t, near), b)
  {
    var city, mine, farm := RemoveFirst(k.city, x), RemoveFirst(k.mine, x), RemoveFirst(k.farm, x);
    RemoveFirstSubset(k.city, x);
    RemoveFirstSubset(k.mine, x);
    RemoveFirstSubset(k.farm, x);
    AddValidSound(city, b, Shifted(x, near), City);
    AddValidSound(mine, b, Shifted(x, near), Mine);
    AddValidSound(farm, b, Shifted(x, near), Farm);
    AddValidSound(city, b, [x], City);
    AddValidSound(mine, b, [x], Mine);
    AddValidSound(farm, b, [x], Farm);
  }

  // ---------------------------------------------------------------------
  // The CPU's moves.

  /** A candidate the CPU already placed stays in the lists, since nothing
      raises OnResourceAdded; submitting it again changes nothing. */
  lemma StaleCandidateIgnored(b: Board, x: Coord, t: Terrain)
    requires t != Plains
    ensures Submitted(Submitted(b, x, Some(t), false), x, Some(t), false) == Submitted(b, x, Some(t), false)
  {
    var r := Submitted(b, x, Some(t), false);
    if Validate(b, x, Some(t), false) {
      assert ClaimAt(r, x) == Occupied;
    }
  }
}
