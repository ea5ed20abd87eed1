/** Forest generation of `GameMapGenerator`: `grow_trees` grows a branch of
    TREES over grass in one direction, now and then turning by 90 degrees,
    and `gen_forests` starts four branches from each of a number of grass
    cells of every island of at least 30 cells. */
module Forests {
  import opened Tiles
  import opened TileMap
  import opened Islands
  import opened IslandScan
  import opened IntRoots

  datatype Direction = Up | Down | Left | Right

  /** The two directions a branch heading `d` may turn into: left/right for
      a vertical branch, up/down for a horizontal one. */
  function Turn(d: Direction, second: bool): (t: Direction)
    ensures (d == Up || d == Down) <==> (t == Left || t == Right)
  {
    match d
    case Up | Down => if second then Right else Left
    case Left | Right => if second then Down else Up
  }

  /** The neighbour of `loc` in direction `d` (y grows downwards). */
  function Step(loc: Loc, d: Direction): (n: Loc)
    ensures Adjacent(loc, n)
  {
    match d
    case Up => (loc.0, loc.1 - 1)
    case Down => (loc.0, loc.1 + 1)
    case Left => (loc.0 - 1, loc.1)
    case Right => (loc.0 + 1, loc.1)
  }

  predicate Wooded(t: Tile) {
    t == UiEmpty || t == Trees
  }

  /** A cell a branch may cover: on the grid, GRASS, and its overlay empty or
      already trees. */
  predicate Plantable(b: Board, loc: Loc)
    requires b.Valid()
  {
    b.InGrid(loc) && b.Ground(loc) == Grass && Wooded(b.Overlay(loc))
  }

  /** From overlay `a` to overlay `c` over the ground `g`, the only change is
      TREES written on grass cells whose overlay was empty or trees. */
  ghost predicate TreesOnly(a: Grid, c: Grid, g: Grid) {
    |c| == |a| && |g| == |a| &&
    forall y :: 0 <= y < |a| ==>
      |c[y]| == |a[y]| && |g[y]| == |a[y]| &&
      forall x :: 0 <= x < |a[y]| ==>
        c[y][x] == a[y][x] || (c[y][x] == Trees && g[y][x] == Grass && Wooded(a[y][x]))
  }

  lemma TreesOnlyRefl(a: Grid, g: Grid)
    requires |g| == |a| && forall y :: 0 <= y < |a| ==> |g[y]| == |a[y]|
    ensures TreesOnly(a, a, g)
  {
  }

  lemma TreesOnlyTrans(a: Grid, b: Grid, c: Grid, g: Grid)
    requires TreesOnly(a, b, g) && TreesOnly(b, c, g)
    ensures TreesOnly(a, c, g)
  {
    forall y, x | 0 <= y < |a| && 0 <= x < |a[y]|
      ensures c[y][x] == a[y][x] || (c[y][x] == Trees && g[y][x] == Grass && Wooded(a[y][x]))
    {
    }
  }

  /** Planting one plantable cell is such a change. */
  lemma TreesOnlyPlant(b: Board, loc: Loc)
    requires b.Valid() && Plantable(b, loc)
    ensures TreesOnly(b.layer1, Put(b.layer1, loc, Trees), b.layer0)
  {
  }

  /** `grow_trees`: covers `loc` with TREES when it is plantable and, unless
      `weight` is 1, grows up to two further branches of weight `weight - 1`
      from it; each goes in the current direction, which may first turn 90
      degrees from `direction`. */
  method GrowTrees(m: GameMap, loc: Loc, direction: Direction, weight: int)
    requires m.Valid() && weight >= 1
    modifies m
    ensures m.Valid() && m.layer0 == old(m.layer0) && m.Others() == old(m.Others())
    ensures TreesOnly(old(m.layer1), m.layer1, m.layer0)
    ensures !Plantable(old(m.Snapshot()), loc) ==> m.layer1 == old(m.layer1)
    ensures Plantable(old(m.Snapshot()), loc) ==> m.layer1[loc.1][loc.0] == Trees
    ensures weight == 1 ==>
              m.layer1 == if Plantable(old(m.Snapshot()), loc) then Put(old(m.layer1), loc, Trees) else old(m.layer1)
    decreases weight
  {
    var (x, y) := loc;
    if x < 0 || y < 0 || x > m.width - 1 || y > m.height - 1 {
      return;
    }
    if m.layer0[y][x] != Grass || !Wooded(m.layer1[y][x]) {
      return;
    }
    TreesOnlyPlant(m.Snapshot(), loc);
    m.Set(loc, Layer1, Trees);
    if weight == 1 {
      return;
    }
    ghost var start := old(m.layer1);
    var newDirection := direction;
    var branches: int :| 1 <= branches <= 3;
    for i := 1 to branches
      invariant m.Valid() && m.layer0 == old(m.layer0) && m.Others() == old(m.Others())
      invariant TreesOnly(start, m.layer1, m.layer0)
      invariant m.layer1[y][x] == Trees
    {
      var turn: bool :| true;
      if turn {
        var second: bool :| true;
        newDirection := Turn(direction, second);
      }
      ghost var before := m.layer1;
      GrowTrees(m, Step(loc, newDirection), newDirection, weight - 1);
      TreesOnlyTrans(start, before, m.layer1, m.layer0);
    }
  }

  /** The bounds `(i_min, i_max)` of the forest count of an island of `n`
      cells: `i_min` is the integer fourth root, at least 1; `i_max` is
      `int(n ** (1/3) * 1.5)`, the largest `r` with `(2r/3)^3 <= n`, at least
      `i_min + 2`. */
  function ForestBounds(n: nat): (r: (int, int))
    ensures r.0 >= 1 && r.1 >= r.0 + 2
    ensures r.0 == 1 || Pow(r.0, 4) <= n < Pow(r.0 + 1, 4)
    ensures r.1 == r.0 + 2 || 8 * Pow(r.1, 3) <= 27 * n < 8 * Pow(r.1 + 1, 3)
  {
    var lo := if IRoot(n, 4) > 1 then IRoot(n, 4) else 1;
    var q := IRoot(27 * n / 8, 3);
    assert Pow(q, 3) <= 27 * n / 8 < Pow(q + 1, 3);
    (lo, if q > lo + 2 then q else lo + 2)
  }

  /** One forest: four branches from `loc`, up, down, left and right, each
      with a weight drawn from `8 + rainfall .. 12 + rainfall`. */
  method Forest(m: GameMap, loc: Loc, rainfall: int)
    requires m.Valid() && rainfall >= -7
    modifies m
    ensures m.Valid() && m.layer0 == old(m.layer0) && m.Others() == old(m.Others())
    ensures TreesOnly(old(m.layer1), m.layer1, m.layer0)
  {
    var w1: int :| 8 + rainfall <= w1 <= 12 + rainfall;
    var w2: int :| 8 + rainfall <= w2 <= 12 + rainfall;
    var w3: int :| 8 + rainfall <= w3 <= 12 + rainfall;
    var w4: int :| 8 + rainfall <= w4 <= 12 + rainfall;
    GrowTrees(m, loc, Up, w1);
    ghost var l1 := m.layer1;
    GrowTrees(m, loc, Down, w2);
    TreesOnlyTrans(old(m.layer1), l1, m.layer1, m.layer0);
    ghost var l2 := m.layer1;
    GrowTrees(m, loc, Left, w3);
    TreesOnlyTrans(old(m.layer1), l2, m.layer1, m.layer0);
    ghost var l3 := m.layer1;
    GrowTrees(m, loc, Right, w4);
    TreesOnlyTrans(old(m.layer1), l3, m.layer1, m.layer0);
  }

  /** No cell of the island is GRASS, on the ground layer of `b`. */
  ghost predicate NoGrass(b: Board, island: seq<Loc>)
    requires b.Valid()
  {
    forall c :: c in island ==> b.InGrid(c) && b.Ground(c) != Grass
  }

  /** The loop of `gen_forests` on one island: random picks among the
      island's cells; a pick not on grass is remembered and skipped, a grass
      pick grows a forest. At most `attempts` picks are made (the source
      repeats until `count` forests have grown, so on an island without
      grass it never stops). `b` is any board with the map's ground layer. */
  method ForestsOnIsland(m: GameMap, island: seq<Loc>, count: int, rainfall: int, attempts: nat, ghost b: Board)
    returns (planted: nat)
    requires m.Valid() && |island| > 0 && rainfall >= -7
    requires b.Valid() && b.width == m.width && b.height == m.height && b.layer0 == m.layer0
    requires forall c :: c in island ==> b.InGrid(c)
    modifies m
    ensures m.Valid() && m.layer0 == old(m.layer0) && m.Others() == old(m.Others())
    ensures TreesOnly(old(m.layer1), m.layer1, m.layer0)
    ensures planted <= if count < 0 then 0 else count
    ensures NoGrass(b, island) ==> planted == 0 && m.layer1 == old(m.layer1)
  {
    var left := count;
    var counted: seq<Loc> := [];
    var tries := 0;
    planted := 0;
    TreesOnlyRefl(m.layer1, m.layer0);
    while left > 0 && tries < attempts
      invariant m.Valid() && m.layer0 == b.layer0 && m.Others() == old(m.Others())
      invariant TreesOnly(old(m.layer1), m.layer1, m.layer0)
      invariant left == count - planted && planted <= if count < 0 then 0 else count
      invariant NoGrass(b, island) ==> planted == 0 && m.layer1 == old(m.layer1)
      decreases attempts - tries
    {
      tries := tries + 1;
      var k :| 0 <= k < |island|;
      var loc := island[k];
      if loc in counted {
        continue;
      }
      assert b.InGrid(loc);
      if m.layer0[loc.1][loc.0] != Grass {
        counted := counted + [loc];
        continue;
      }
      if |counted| >= |island| {
        break;
      }
      ghost var before := m.layer1;
      Forest(m, loc, rainfall);
      TreesOnlyTrans(old(m.layer1), before, m.layer1, m.layer0);
      left := left - 1;
      planted := planted + 1;
    }
  }

  /** `gen_forests`: on every island of at least 30 cells, a forest count
      drawn between the bounds and shifted by `3 * (rainfall - 1)`. Only the
      overlay layer changes, and only by TREES on grass. */
  method ForestsOnIslands(m: GameMap, rainfall: int, attempts: nat, ghost b: Board)
    requires m.Valid() && rainfall >= -7
    requires b.Valid() && b.width == m.width && b.height == m.height && b.layer0 == m.layer0
    requires IslandsOnGrid(b, m.islands)
    modifies m
    ensures m.Valid() && m.layer0 == old(m.layer0) && m.Others() == old(m.Others())
    ensures TreesOnly(old(m.layer1), m.layer1, m.layer0)
  {
    var islands := m.islands;
    TreesOnlyRefl(m.layer1, m.layer0);
    for i := 0 to |islands|
      invariant m.Valid() && m.layer0 == b.layer0 && m.Others() == old(m.Others())
      invariant TreesOnly(old(m.layer1), m.layer1, m.layer0)
    {
      var island := islands[i];
      if |island| < 30 {
        continue;
      }
      var (iMin, iMax) := ForestBounds(|island|);
      var k :| iMin <= k <= iMax;
      ghost var before := m.layer1;
      var _ := ForestsOnIsland(m, island, k + (rainfall - 1) * 3, rainfall, attempts, b);
      TreesOnlyTrans(old(m.layer1), before, m.layer1, m.layer0);
    }
  }

  /** `gen_forests`: defines the islands first when there are none. */
  method GenForests(m: GameMap, rainfall: int, attempts: nat)
    requires m.Valid() && rainfall >= -7
    requires |m.islands| == 0 ==> m.width <= m.height
    requires IslandsOnGrid(m.Snapshot(), m.islands)
    modifies m
    ensures m.Valid() && m.layer0 == old(m.layer0) && m.width == old(m.width) && m.height == old(m.height)
    ensures m.startLoc == old(m.startLoc) && m.posAt == old(m.posAt)
    ensures old(m.islands) != [] ==> m.islands == old(m.islands) && m.playableIslands == old(m.playableIslands)
    ensures old(m.islands) == [] ==> IslandsOf(old(m.Snapshot()), m.impassable, m.islands)
    ensures IslandsOnGrid(old(m.Snapshot()), m.islands)
    ensures TreesOnly(old(m.layer1), m.layer1, m.layer0)
  {
    IslandsFirst(m);
    ForestsOnIslands(m, rainfall, attempts, m.Snapshot());
  }
}
