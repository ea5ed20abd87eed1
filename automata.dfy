/** The two cellular-automaton passes of `GameMapGenerator`: `gen_beaches`
    turns land next to water into SHORE or SAND, and `gen_snow` grows snow
    where it has three snowy neighbours and melts isolated snow. Each reads
    the map as it was before the pass (the source writes into a deep copy)
    and looks at the 3 x 3 window of a cell; a cell off the map, and the
    centre cell itself when it is passable, are not counted. */
module Automata {
  import opened Tiles
  import opened TileMap
  import opened Wrappers

  /** The cell `n` of the window of `c` is left out of the tally. */
  predicate Skipped(b: Board, impassable: set<Tile>, c: Loc, n: Loc)
    requires b.Valid()
  {
    !b.InGrid(n) || (b.Ground(n) !in impassable && n == c)
  }

  /** What one counted cell adds to the beach score. */
  function BeachValue(t: Tile, impassable: set<Tile>): int {
    if t == Ocean then -2
    else if t == Shore then -1
    else if t !in impassable then 1
    else 0
  }

  /** `(tiles, count)` over the first `j` cells of window column `nx`. */
  function BeachColumn(b: Board, impassable: set<Tile>, c: Loc, nx: int, j: nat): (s: (int, nat))
    requires b.Valid() && j <= 3
  {
    if j == 0 then (0, 0)
    else
      var s := BeachColumn(b, impassable, c, nx, j - 1);
      var n := (nx, c.1 - 1 + (j - 1));
      if Skipped(b, impassable, c, n) then s
      else (s.0 + BeachValue(b.Ground(n), impassable), s.1 + 1)
  }

  /** `(tiles, count)` over the first `i` columns of the window of `c`. */
  function BeachWindow(b: Board, impassable: set<Tile>, c: Loc, i: nat): (s: (int, nat))
    requires b.Valid() && i <= 3
  {
    if i == 0 then (0, 0)
    else
      var s := BeachWindow(b, impassable, c, i - 1);
      var col := BeachColumn(b, impassable, c, c.0 - 1 + (i - 1), 3);
      (s.0 + col.0, s.1 + col.1)
  }

  /** The beach score of `c`: its tally over the whole window. */
  function BeachScore(b: Board, impassable: set<Tile>, c: Loc): (s: (int, nat))
    requires b.Valid()
  {
    BeachWindow(b, impassable, c, 3)
  }

  /** A column counts at most its cells, each scoring between -2 and 1. */
  lemma {:induction false} BeachColumnBounds(b: Board, impassable: set<Tile>, c: Loc, nx: int, j: nat)
    requires b.Valid() && j <= 3
    ensures var s := BeachColumn(b, impassable, c, nx, j); s.1 <= j && -2 * s.1 <= s.0 <= s.1
  {
    if j > 0 {
      BeachColumnBounds(b, impassable, c, nx, j - 1);
    }
  }

  /** The window counts at most its nine cells, each scoring between -2 and 1. */
  lemma {:induction false} BeachWindowBounds(b: Board, impassable: set<Tile>, c: Loc, i: nat)
    requires b.Valid() && i <= 3
    ensures var s := BeachWindow(b, impassable, c, i); s.1 <= 3 * i && -2 * s.1 <= s.0 <= s.1
  {
    if i > 0 {
      BeachWindowBounds(b, impassable, c, i - 1);
      BeachColumnBounds(b, impassable, c, c.0 - 1 + (i - 1), 3);
    }
  }

  /** A cell whose score lies strictly inside `(-(count / 2), count / 2)` becomes SAND. */
  predicate SandBand(b: Board, impassable: set<Tile>, c: Loc)
    requires b.Valid()
  {
    var s := BeachScore(b, impassable, c);
    -(s.1 / 2) < s.0 < s.1 / 2
  }

  /** The ground of `c` after `gen_beaches`. */
  function BeachCell(b: Board, impassable: set<Tile>, c: Loc): (t: Tile)
    requires b.Valid() && b.InGrid(c)
    ensures t == b.Ground(c) || t == Shore || t == Sand
    ensures b.Ground(c) == Ocean ==> t == Ocean || t == Sand
  {
    var s := BeachScore(b, impassable, c);
    if s.0 <= -(s.1 / 2) && b.Ground(c) != Ocean then Shore
    else if SandBand(b, impassable, c) then Sand
    else b.Ground(c)
  }

  /** The ground layer after `gen_beaches`. */
  function BeachGrid(b: Board, impassable: set<Tile>): (g: Grid)
    requires b.Valid()
    ensures Shaped(g, b.width, b.height)
  {
    seq(b.height, y requires 0 <= y < b.height =>
      seq(b.width, x requires 0 <= x < b.width => BeachCell(b, impassable, (x, y))))
  }

  /** Two grids of one shape with the same cells are equal. */
  lemma GridsEqual(g: Grid, h: Grid, width: nat, height: nat)
    requires Shaped(g, width, height) && Shaped(h, width, height)
    requires forall y, x :: 0 <= y < height && 0 <= x < width ==> g[y][x] == h[y][x]
    ensures g == h
  {
    forall y | 0 <= y < height
      ensures g[y] == h[y]
    {
    }
  }

  /** The inner loop over window column `nx` in `gen_beaches`. */
  method BeachColumnCount(b: Board, impassable: set<Tile>, c: Loc, nx: int) returns (tiles: int, count: nat)
    requires b.Valid()
    ensures (tiles, count) == BeachColumn(b, impassable, c, nx, 3)
  {
    tiles, count := 0, 0;
    for j := 0 to 3
      invariant (tiles, count) == BeachColumn(b, impassable, c, nx, j)
    {
      var n := (nx, c.1 - 1 + j);
      var tileAt := b.Get(n);
      if tileAt == None || (tileAt.value.layer0 !in impassable && n == c) {
        continue;
      }
      var t := tileAt.value.layer0;
      if t == Ocean {
        tiles := tiles - 2;
      } else if t == Shore {
        tiles := tiles - 1;
      } else if t !in impassable {
        tiles := tiles + 1;
      }
      count := count + 1;
    }
  }

  /** The double loop over the window in `gen_beaches`. */
  method BeachCount(b: Board, impassable: set<Tile>, c: Loc) returns (tiles: int, count: nat)
    requires b.Valid()
    ensures (tiles, count) == BeachScore(b, impassable, c)
  {
    tiles, count := 0, 0;
    for i := 0 to 3
      invariant (tiles, count) == BeachWindow(b, impassable, c, i)
    {
      var t, n := BeachColumnCount(b, impassable, c, c.0 - 1 + i);
      tiles, count := tiles + t, count + n;
    }
  }

  /** Cells of `g` before column `x` (and before row `y` in column `x`) are
      those of `target`; the rest are those of `orig`. */
  ghost predicate FilledTo(g: Grid, target: Grid, orig: Grid, width: nat, height: nat, x: int, y: int)
    requires Shaped(target, width, height) && Shaped(orig, width, height)
  {
    Shaped(g, width, height) &&
    forall row, col :: 0 <= row < height && 0 <= col < width ==>
      g[row][col] == if col < x || (col == x && row < y) then target[row][col] else orig[row][col]
  }

  /** Settling cell `(x, y)` moves the frontier one row on. */
  lemma FilledStep(g: Grid, n: Grid, target: Grid, orig: Grid, width: nat, height: nat, x: int, y: int)
    requires Shaped(target, width, height) && Shaped(orig, width, height)
    requires FilledTo(g, target, orig, width, height, x, y)
    requires 0 <= x < width && 0 <= y < height && n == Put(g, (x, y), target[y][x])
    ensures FilledTo(n, target, orig, width, height, x, y + 1)
  {
  }

  /** A finished column moves the frontier to the next column. */
  lemma FilledColumn(g: Grid, target: Grid, orig: Grid, width: nat, height: nat, x: int)
    requires Shaped(target, width, height) && Shaped(orig, width, height)
    requires FilledTo(g, target, orig, width, height, x, height)
    ensures FilledTo(g, target, orig, width, height, x + 1, 0)
  {
  }

  /** Each overlay cell of `g` is kept from `orig` or is a palm tree on a new SAND cell. */
  ghost predicate PalmsOnly(g: Grid, b: Board, impassable: set<Tile>)
    requires b.Valid()
  {
    Shaped(g, b.width, b.height) &&
    forall row, col :: 0 <= row < b.height && 0 <= col < b.width ==>
      g[row][col] == b.layer1[row][col] || (g[row][col] == PalmTree && SandBand(b, impassable, (col, row)))
  }

  /** Rewriting a cell with the value it holds changes nothing. */
  lemma PutSame(g: Grid, loc: Loc, width: nat, height: nat)
    requires Shaped(g, width, height) && 0 <= loc.0 < width && 0 <= loc.1 < height
    ensures Put(g, loc, g[loc.1][loc.0]) == g
  {
    GridsEqual(Put(g, loc, g[loc.1][loc.0]), g, width, height);
  }

  /** The body of the `gen_beaches` sweep for the cell `c`, still unvisited in `g0`. */
  method BeachStep(b: Board, impassable: set<Tile>, c: Loc, g0: Grid, g1: Grid) returns (n0: Grid, n1: Grid)
    requires b.Valid() && b.InGrid(c) && Shaped(g0, b.width, b.height)
    requires g0[c.1][c.0] == b.Ground(c) && PalmsOnly(g1, b, impassable)
    ensures n0 == Put(g0, c, BeachCell(b, impassable, c))
    ensures PalmsOnly(n1, b, impassable)
  {
    var tiles, count := BeachCount(b, impassable, c);
    n0, n1 := g0, g1;
    if tiles <= -(count / 2) && b.layer0[c.1][c.0] != Ocean {
      n0 := Put(n0, c, Shore);
    }
    if -(count / 2) < tiles < count / 2 {
      n0 := Put(n0, c, Sand);
      var roll: int :| 0 <= roll <= 100;
      if roll < 5 {
        n1 := Put(n1, c, PalmTree);
      }
    }
    if n0 == g0 {
      PutSame(g0, c, b.width, b.height);
    }
  }

  /** One column `x` of the `gen_beaches` sweep. */
  method BeachSweepColumn(b: Board, impassable: set<Tile>, x: nat, g0: Grid, g1: Grid) returns (n0: Grid, n1: Grid)
    requires b.Valid() && x < b.width
    requires FilledTo(g0, BeachGrid(b, impassable), b.layer0, b.width, b.height, x, 0)
    requires PalmsOnly(g1, b, impassable)
    ensures FilledTo(n0, BeachGrid(b, impassable), b.layer0, b.width, b.height, x + 1, 0)
    ensures PalmsOnly(n1, b, impassable)
  {
    ghost var target := BeachGrid(b, impassable);
    n0, n1 := g0, g1;
    for y := 0 to b.height
      invariant FilledTo(n0, target, b.layer0, b.width, b.height, x, y)
      invariant PalmsOnly(n1, b, impassable)
    {
      ghost var before := n0;
      n0, n1 := BeachStep(b, impassable, (x, y), n0, n1);
      assert target[y][x] == BeachCell(b, impassable, (x, y));
      FilledStep(before, n0, target, b.layer0, b.width, b.height, x, y);
    }
    FilledColumn(n0, target, b.layer0, b.width, b.height, x);
  }

  /** The sweep of `gen_beaches` over every column of the old map `b`. */
  method BeachLayers(b: Board, impassable: set<Tile>) returns (g0: Grid, g1: Grid)
    requires b.Valid()
    ensures g0 == BeachGrid(b, impassable)
    ensures PalmsOnly(g1, b, impassable)
  {
    g0, g1 := b.layer0, b.layer1;
    for x := 0 to b.width
      invariant FilledTo(g0, BeachGrid(b, impassable), b.layer0, b.width, b.height, x, 0)
      invariant PalmsOnly(g1, b, impassable)
    {
      g0, g1 := BeachSweepColumn(b, impassable, x, g0, g1);
    }
    GridsEqual(g0, BeachGrid(b, impassable), b.width, b.height);
  }

  /** `gen_beaches`: the new ground layer is `BeachGrid` of the old map; the
      overlay gains palm trees on SAND-band cells (chance 5 in 101) and is
      otherwise kept. */
  method GenBeaches(m: GameMap)
    requires m.Valid()
    modifies m
    ensures m.Valid() && m.Others() == old(m.Others())
    ensures m.layer0 == BeachGrid(old(m.Snapshot()), m.impassable)
    ensures PalmsOnly(m.layer1, old(m.Snapshot()), m.impassable)
  {
    var g0, g1 := BeachLayers(m.Snapshot(), m.impassable);
    m.layer0, m.layer1 := g0, g1;
  }

  /** `n` lies in the 3 x 3 window centred on `c`. */
  predicate InWindow(c: Loc, n: Loc) {
    -1 <= n.0 - c.0 <= 1 && -1 <= n.1 - c.1 <= 1
  }

  /** Every cell of the window of `c` on the map, `c` aside, is passable. */
  ghost predicate LandAround(b: Board, impassable: set<Tile>, c: Loc)
    requires b.Valid()
  {
    forall n :: InWindow(c, n) && b.InGrid(n) && n != c ==> b.Ground(n) !in impassable
  }

  /** Every cell of the window of `c` on the map, `c` aside, is OCEAN or SHORE. */
  ghost predicate WaterAround(b: Board, c: Loc)
    requires b.Valid()
  {
    forall n :: InWindow(c, n) && b.InGrid(n) && n != c ==> b.Ground(n) == Ocean || b.Ground(n) == Shore
  }

  /** Around passable land every counted cell scores one point. */
  lemma {:induction false} LandColumn(b: Board, impassable: set<Tile>, c: Loc, nx: int, j: nat)
    requires b.Valid() && j <= 3 && HoldsWater(impassable) && -1 <= nx - c.0 <= 1
    requires LandAround(b, impassable, c) && b.InGrid(c) && b.Ground(c) !in impassable
    ensures BeachColumn(b, impassable, c, nx, j).0 == BeachColumn(b, impassable, c, nx, j).1
  {
    if j > 0 {
      LandColumn(b, impassable, c, nx, j - 1);
      var n := (nx, c.1 - 1 + (j - 1));
      assert InWindow(c, n);
    }
  }

  lemma {:induction false} LandWindow(b: Board, impassable: set<Tile>, c: Loc, i: nat)
    requires b.Valid() && i <= 3 && HoldsWater(impassable)
    requires LandAround(b, impassable, c) && b.InGrid(c) && b.Ground(c) !in impassable
    ensures BeachWindow(b, impassable, c, i).0 == BeachWindow(b, impassable, c, i).1
  {
    if i > 0 {
      LandWindow(b, impassable, c, i - 1);
      LandColumn(b, impassable, c, c.0 - 1 + (i - 1), 3);
    }
  }

  /** Inland ground stays as it is: a passable cell whose window holds only
      passable ground keeps its tile, unless no other cell of the window is
      on the map (a one-cell map), where it becomes SHORE. */
  lemma InlandKept(b: Board, impassable: set<Tile>, c: Loc)
    requires b.Valid() && b.InGrid(c) && b.Ground(c) !in impassable && HoldsWater(impassable)
    requires LandAround(b, impassable, c)
    ensures BeachScore(b, impassable, c).1 > 0 ==> BeachCell(b, impassable, c) == b.Ground(c)
    ensures BeachScore(b, impassable, c).1 == 0 ==> BeachCell(b, impassable, c) == Shore
  {
    LandWindow(b, impassable, c, 3);
  }

  /** Around land surrounded by water every counted cell scores at most minus one. */
  lemma {:induction false} WaterColumn(b: Board, impassable: set<Tile>, c: Loc, nx: int, j: nat)
    requires b.Valid() && j <= 3 && -1 <= nx - c.0 <= 1
    requires b.InGrid(c) && b.Ground(c) !in impassable && WaterAround(b, c)
    ensures BeachColumn(b, impassable, c, nx, j).0 + BeachColumn(b, impassable, c, nx, j).1 <= 0
  {
    if j > 0 {
      WaterColumn(b, impassable, c, nx, j - 1);
      var n := (nx, c.1 - 1 + (j - 1));
      assert InWindow(c, n);
    }
  }

  lemma {:induction false} WaterWindow(b: Board, impassable: set<Tile>, c: Loc, i: nat)
    requires b.Valid() && i <= 3
    requires b.InGrid(c) && b.Ground(c) !in impassable && WaterAround(b, c)
    ensures BeachWindow(b, impassable, c, i).0 + BeachWindow(b, impassable, c, i).1 <= 0
  {
    if i > 0 {
      WaterWindow(b, impassable, c, i - 1);
      WaterColumn(b, impassable, c, c.0 - 1 + (i - 1), 3);
    }
  }

  /** Land with nothing but OCEAN and SHORE around it becomes SHORE. */
  lemma IslandOfOneIsShore(b: Board, impassable: set<Tile>, c: Loc)
    requires b.Valid() && b.InGrid(c) && b.Ground(c) !in impassable && HoldsWater(impassable)
    requires WaterAround(b, c)
    ensures BeachCell(b, impassable, c) == Shore
  {
    WaterWindow(b, impassable, c, 3);
  }

  /** `(snow, ground, grass)` over the first `j` cells of window column `nx`. */
  function SnowColumn(b: Board, impassable: set<Tile>, c: Loc, nx: int, j: nat): (s: (nat, nat, nat))
    requires b.Valid() && j <= 3
  {
    if j == 0 then (0, 0, 0)
    else
      var s := SnowColumn(b, impassable, c, nx, j - 1);
      var n := (nx, c.1 - 1 + (j - 1));
      if Skipped(b, impassable, c, n) then s
      else if b.Ground(n) == Snow then (s.0 + 1, s.1, s.2)
      else if b.Ground(n) == Ground then (s.0, s.1 + 1, s.2)
      else if b.Ground(n) == Grass then (s.0, s.1, s.2 + 1)
      else s
  }

  /** `(snow, ground, grass)` over the first `i` columns of the window of `c`. */
  function SnowWindow(b: Board, impassable: set<Tile>, c: Loc, i: nat): (s: (nat, nat, nat))
    requires b.Valid() && i <= 3
  {
    if i == 0 then (0, 0, 0)
    else
      var s := SnowWindow(b, impassable, c, i - 1);
      var col := SnowColumn(b, impassable, c, c.0 - 1 + (i - 1), 3);
      (s.0 + col.0, s.1 + col.1, s.2 + col.2)
  }

  /** A column's three tallies together count at most its cells. */
  lemma {:induction false} SnowColumnBounds(b: Board, impassable: set<Tile>, c: Loc, nx: int, j: nat)
    requires b.Valid() && j <= 3
    ensures var s := SnowColumn(b, impassable, c, nx, j); s.0 + s.1 + s.2 <= j
  {
    if j > 0 {
      SnowColumnBounds(b, impassable, c, nx, j - 1);
    }
  }

  /** The window's three tallies together count at most its nine cells. */
  lemma {:induction false} SnowWindowBounds(b: Board, impassable: set<Tile>, c: Loc, i: nat)
    requires b.Valid() && i <= 3
    ensures var s := SnowWindow(b, impassable, c, i); s.0 + s.1 + s.2 <= 3 * i
  {
    if i > 0 {
      SnowWindowBounds(b, impassable, c, i - 1);
      SnowColumnBounds(b, impassable, c, c.0 - 1 + (i - 1), 3);
    }
  }

  function SnowCounts(b: Board, impassable: set<Tile>, c: Loc): (s: (nat, nat, nat))
    requires b.Valid()
  {
    SnowWindow(b, impassable, c, 3)
  }

  /** The ground of `c` after `gen_snow`. */
  function SnowCell(b: Board, impassable: set<Tile>, c: Loc): (t: Tile)
    requires b.Valid() && b.InGrid(c)
    ensures t == Snow || t == b.Ground(c) || (b.Ground(c) == Snow && (t == Ground || t == Grass))
    ensures b.Ground(c) != Snow ==> t == Snow || t == b.Ground(c)
  {
    var s := SnowCounts(b, impassable, c);
    if s.0 > 2 then Snow
    else if b.Ground(c) == Snow then (if s.1 > s.2 then Ground else Grass)
    else b.Ground(c)
  }

  /** The ground layer after `gen_snow`. */
  function SnowGrid(b: Board, impassable: set<Tile>): (g: Grid)
    requires b.Valid()
    ensures Shaped(g, b.width, b.height)
  {
    seq(b.height, y requires 0 <= y < b.height =>
      seq(b.width, x requires 0 <= x < b.width => SnowCell(b, impassable, (x, y))))
  }

  /** The inner loop over window column `nx` in `gen_snow`. */
  method SnowColumnCount(b: Board, impassable: set<Tile>, c: Loc, nx: int) returns (snow: nat, ground: nat, grass: nat)
    requires b.Valid()
    ensures (snow, ground, grass) == SnowColumn(b, impassable, c, nx, 3)
  {
    snow, ground, grass := 0, 0, 0;
    for j := 0 to 3
      invariant (snow, ground, grass) == SnowColumn(b, impassable, c, nx, j)
    {
      var n := (nx, c.1 - 1 + j);
      var tileAt := b.Get(n);
      if tileAt == None || (tileAt.value.layer0 !in impassable && n == c) {
        continue;
      } else if tileAt.value.layer0 == Snow {
        snow := snow + 1;
      } else if tileAt.value.layer0 == Ground {
        ground := ground + 1;
      } else if tileAt.value.layer0 == Grass {
        grass := grass + 1;
      }
    }
  }

  /** The double loop over the window in `gen_snow`. */
  method SnowCount(b: Board, impassable: set<Tile>, c: Loc) returns (snow: nat, ground: nat, grass: nat)
    requires b.Valid()
    ensures (snow, ground, grass) == SnowCounts(b, impassable, c)
  {
    snow, ground, grass := 0, 0, 0;
    for i := 0 to 3
      invariant (snow, ground, grass) == SnowWindow(b, impassable, c, i)
    {
      var s, d, g := SnowColumnCount(b, impassable, c, c.0 - 1 + i);
      snow, ground, grass := snow + s, ground + d, grass + g;
    }
  }

  /** The body of the `gen_snow` sweep for the cell `c`, still unvisited in `g0`. */
  method SnowStep(b: Board, impassable: set<Tile>, c: Loc, g0: Grid) returns (n0: Grid)
    requires b.Valid() && b.InGrid(c) && Shaped(g0, b.width, b.height)
    requires g0[c.1][c.0] == b.Ground(c)
    ensures n0 == Put(g0, c, SnowCell(b, impassable, c))
  {
    var snow, ground, grass := SnowCount(b, impassable, c);
    n0 := g0;
    if snow > 2 {
      n0 := Put(n0, c, Snow);
    } else if b.layer0[c.1][c.0] == Snow {
      n0 := Put(n0, c, if ground > grass then Ground else Grass);
    } else {
      PutSame(g0, c, b.width, b.height);
    }
  }

  /** One column `x` of the `gen_snow` sweep. */
  method SnowSweepColumn(b: Board, impassable: set<Tile>, x: nat, g0: Grid) returns (n0: Grid)
    requires b.Valid() && x < b.width
    requires FilledTo(g0, SnowGrid(b, impassable), b.layer0, b.width, b.height, x, 0)
    ensures FilledTo(n0, SnowGrid(b, impassable), b.layer0, b.width, b.height, x + 1, 0)
  {
    ghost var target := SnowGrid(b, impassable);
    n0 := g0;
    for y := 0 to b.height
      invariant FilledTo(n0, target, b.layer0, b.width, b.height, x, y)
    {
      ghost var before := n0;
      n0 := SnowStep(b, impassable, (x, y), n0);
      assert target[y][x] == SnowCell(b, impassable, (x, y));
      FilledStep(before, n0, target, b.layer0, b.width, b.height, x, y);
    }
    FilledColumn(n0, target, b.layer0, b.width, b.height, x);
  }

  /** The sweep of `gen_snow` over every column of the old map `b`. */
  method SnowLayer(b: Board, impassable: set<Tile>) returns (g0: Grid)
    requires b.Valid()
    ensures g0 == SnowGrid(b, impassable)
  {
    g0 := b.layer0;
    for x := 0 to b.width
      invariant FilledTo(g0, SnowGrid(b, impassable), b.layer0, b.width, b.height, x, 0)
    {
      g0 := SnowSweepColumn(b, impassable, x, g0);
    }
    GridsEqual(g0, SnowGrid(b, impassable), b.width, b.height);
  }

  /** `gen_snow`: the new ground layer is `SnowGrid` of the old map; the
      overlay is kept. */
  method GenSnow(m: GameMap)
    requires m.Valid()
    modifies m
    ensures m.Valid() && m.Others() == old(m.Others()) && m.layer1 == old(m.layer1)
    ensures m.layer0 == SnowGrid(old(m.Snapshot()), m.impassable)
  {
    var g0 := SnowLayer(m.Snapshot(), m.impassable);
    m.layer0 := g0;
  }

  /** Besides snow growing, only snow changes: it melts to GROUND or GRASS;
      and a cell turns to snow exactly when more than two of its counted
      cells are snow. */
  lemma SnowChanges(b: Board, impassable: set<Tile>, c: Loc)
    requires b.Valid() && b.InGrid(c)
    ensures var t := SnowCell(b, impassable, c);
      t == b.Ground(c) || t == Snow || (b.Ground(c) == Snow && (t == Ground || t == Grass))
    ensures b.Ground(c) != Snow ==> (SnowCell(b, impassable, c) == Snow <==> SnowCounts(b, impassable, c).0 > 2)
  {
  }

  /** No cell of the window of `c` on the map, `c` aside, is snow. */
  ghost predicate NoSnowAround(b: Board, c: Loc)
    requires b.Valid()
  {
    forall n :: InWindow(c, n) && b.InGrid(n) && n != c ==> b.Ground(n) != Snow
  }

  lemma {:induction false} LoneSnowColumn(b: Board, impassable: set<Tile>, c: Loc, nx: int, j: nat)
    requires b.Valid() && j <= 3 && -1 <= nx - c.0 <= 1 && NoSnowAround(b, c)
    ensures SnowColumn(b, impassable, c, nx, j).0 <= if nx == c.0 && j >= 2 then 1 else 0
  {
    if j > 0 {
      LoneSnowColumn(b, impassable, c, nx, j - 1);
      var n := (nx, c.1 - 1 + (j - 1));
      assert InWindow(c, n);
    }
  }

  lemma {:induction false} LoneSnowWindow(b: Board, impassable: set<Tile>, c: Loc, i: nat)
    requires b.Valid() && i <= 3 && NoSnowAround(b, c)
    ensures SnowWindow(b, impassable, c, i).0 <= if i >= 2 then 1 else 0
  {
    if i > 0 {
      LoneSnowWindow(b, impassable, c, i - 1);
      LoneSnowColumn(b, impassable, c, c.0 - 1 + (i - 1), 3);
    }
  }

  /** Isolated snow melts, to GROUND when more ground than grass is around it, else to GRASS. */
  lemma LoneSnowMelts(b: Board, impassable: set<Tile>, c: Loc)
    requires b.Valid() && b.InGrid(c) && b.Ground(c) == Snow && NoSnowAround(b, c)
    ensures var s := SnowCounts(b, impassable, c);
      SnowCell(b, impassable, c) == if s.1 > s.2 then Ground else Grass
  {
    LoneSnowWindow(b, impassable, c, 3);
  }

  /** Every cell of the window of `c`, `c` aside, is on the map and snow. */
  ghost predicate SnowAround(b: Board, c: Loc)
    requires b.Valid()
  {
    forall n :: InWindow(c, n) && n != c ==> b.InGrid(n) && b.Ground(n) == Snow
  }

  lemma {:induction false} SnowyColumn(b: Board, impassable: set<Tile>, c: Loc, nx: int, j: nat)
    requires b.Valid() && j <= 3 && -1 <= nx - c.0 <= 1 && SnowAround(b, c)
    ensures SnowColumn(b, impassable, c, nx, j).0 + (if nx == c.0 && j >= 2 then 1 else 0) >= j
  {
    if j > 0 {
      SnowyColumn(b, impassable, c, nx, j - 1);
      var n := (nx, c.1 - 1 + (j - 1));
      assert InWindow(c, n);
    }
  }

  lemma {:induction false} SnowyWindow(b: Board, impassable: set<Tile>, c: Loc, i: nat)
    requires b.Valid() && i <= 3 && SnowAround(b, c)
    ensures SnowWindow(b, impassable, c, i).0 + (if i >= 2 then 1 else 0) >= 3 * i
  {
    if i > 0 {
      SnowyWindow(b, impassable, c, i - 1);
      SnowyColumn(b, impassable, c, c.0 - 1 + (i - 1), 3);
    }
  }

  /** A cell ringed by snow on all eight sides becomes or stays snow. */
  lemma SnowFillsIn(b: Board, impassable: set<Tile>, c: Loc)
    requires b.Valid() && b.InGrid(c) && SnowAround(b, c)
    ensures SnowCell(b, impassable, c) == Snow
  {
    SnowyWindow(b, impassable, c, 3);
  }
}
