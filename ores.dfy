/** Ore generation of `GameMapGenerator`: `gen_coal_veins` turns a roughly
    diagonal line of land into its coal-bearing variant, `gen_oil_field`
    scatters oil-bearing cells two steps apart, and `gen_ore_veins` starts a
    few of either on every island of at least 30 cells. Only the ground
    layer changes. */
module Ores {
  import opened Tiles
  import opened TileMap
  import opened Wrappers
  import opened Islands
  import opened IslandScan
  import opened IntRoots

  /** The coal-bearing variant of a land tile. */
  function CoalOf(t: Tile): (r: Option<Tile>)
    ensures r.Some? <==> t == Grass || t == Sand || t == Ground
    ensures r.Some? ==> r.value in Coal
  {
    match t
    case Grass => Some(GrassCoal)
    case Sand => Some(SandCoal)
    case Ground => Some(GroundCoal)
    case _ => None
  }

  /** The oil-bearing variant of a land or shore tile. */
  function OilOf(t: Tile): (r: Option<Tile>)
    ensures r.Some? <==> t == Grass || t == Sand || t == Ground || t == Shore
    ensures r.Some? ==> r.value in Oil
  {
    match t
    case Grass => Some(GrassOil)
    case Sand => Some(SandOil)
    case Ground => Some(GroundOil)
    case Shore => Some(WaterOil)
    case _ => None
  }

  /** A mineral tile has no further variant, so a cell is mineralised at most once. */
  lemma MineralsAreFinal(t: Tile)
    requires t in Coal || t in Oil
    ensures CoalOf(t) == None && OilOf(t) == None
  {
  }

  /** From ground layer `a` to `c` each cell is kept or replaced by its
      coal variant (when `coal`) or its oil variant (when `oil`). */
  ghost predicate Mined(a: Grid, c: Grid, coal: bool, oil: bool) {
    |c| == |a| &&
    forall y :: 0 <= y < |a| ==>
      |c[y]| == |a[y]| &&
      forall x :: 0 <= x < |a[y]| ==>
        c[y][x] == a[y][x] || (coal && CoalOf(a[y][x]) == Some(c[y][x])) ||
        (oil && OilOf(a[y][x]) == Some(c[y][x]))
  }

  lemma MinedRefl(a: Grid, coal: bool, oil: bool)
    ensures Mined(a, a, coal, oil)
  {
  }

  lemma MinedTrans(a: Grid, b: Grid, c: Grid, coal: bool, oil: bool)
    requires Mined(a, b, coal, oil) && Mined(b, c, coal, oil)
    ensures Mined(a, c, coal, oil)
  {
    forall y, x | 0 <= y < |a| && 0 <= x < |a[y]|
      ensures c[y][x] == a[y][x] || (coal && CoalOf(a[y][x]) == Some(c[y][x])) ||
              (oil && OilOf(a[y][x]) == Some(c[y][x]))
    {
      if b[y][x] != a[y][x] {
        MineralsAreFinal(b[y][x]);
      }
    }
  }

  lemma MinedWiden(a: Grid, c: Grid, coal: bool, oil: bool)
    requires Mined(a, c, coal, oil)
    ensures Mined(a, c, true, true)
  {
  }

  /** Replacing one cell by its coal or oil variant is a mining step. */
  lemma MinedPut(a: Grid, loc: Loc, v: Tile, coal: bool, oil: bool)
    requires 0 <= loc.1 < |a| && 0 <= loc.0 < |a[loc.1]|
    requires (coal && CoalOf(a[loc.1][loc.0]) == Some(v)) || (oil && OilOf(a[loc.1][loc.0]) == Some(v))
    ensures Mined(a, Put(a, loc, v), coal, oil)
  {
  }

  /** The cell step of `gen_coal_veins`: `go` tells whether the vein goes on
      from `loc` (land or coal on the map); land becomes its coal variant. */
  method MarkCoal(m: GameMap, loc: Loc) returns (go: bool)
    requires m.Valid()
    modifies m
    ensures m.Valid() && m.layer1 == old(m.layer1) && m.Others() == old(m.Others())
    ensures go <==> m.Snapshot().InGrid(loc) &&
                    (CoalOf(old(m.layer0)[loc.1][loc.0]).Some? || old(m.layer0)[loc.1][loc.0] in Coal)
    ensures !go ==> m.layer0 == old(m.layer0)
    ensures go ==> m.layer0 == (match CoalOf(old(m.layer0)[loc.1][loc.0])
                                case Some(v) => Put(old(m.layer0), loc, v)
                                case None => old(m.layer0))
  {
    var tile := m.Snapshot().Get(loc);
    if tile == None {
      return false;
    }
    var t := tile.value.layer0;
    assert t == m.layer0[loc.1][loc.0];
    var v := CoalOf(t);
    if v.Some? {
      m.Set(loc, Layer0, v.value);
      return true;
    }
    return t in Coal;
  }

  /** The cell step of `gen_oil_field`, like `MarkCoal` with SHORE as oil ground too. */
  method MarkOil(m: GameMap, loc: Loc) returns (go: bool)
    requires m.Valid()
    modifies m
    ensures m.Valid() && m.layer1 == old(m.layer1) && m.Others() == old(m.Others())
    ensures go <==> m.Snapshot().InGrid(loc) &&
                    (OilOf(old(m.layer0)[loc.1][loc.0]).Some? || old(m.layer0)[loc.1][loc.0] in Oil)
    ensures !go ==> m.layer0 == old(m.layer0)
    ensures go ==> m.layer0 == (match OilOf(old(m.layer0)[loc.1][loc.0])
                                case Some(v) => Put(old(m.layer0), loc, v)
                                case None => old(m.layer0))
  {
    var tile := m.Snapshot().Get(loc);
    if tile == None {
      return false;
    }
    var t := tile.value.layer0;
    assert t == m.layer0[loc.1][loc.0];
    var v := OilOf(t);
    if v.Some? {
      m.Set(loc, Layer0, v.value);
      return true;
    }
    return t in Oil;
  }

  /** `gen_coal_veins`: stops on a negative weight, off the map, or on a tile
      that is neither land nor coal; otherwise makes the cell coal-bearing
      (coal stays as it is) and continues at `(x - a, y - b)` and
      `(x + c, y + d)` with `a, b, c, d` drawn from 0..1 and weight
      `weight - 1`. */
  method GenCoalVeins(m: GameMap, loc: Loc, weight: int)
    requires m.Valid()
    modifies m
    ensures m.Valid() && m.layer1 == old(m.layer1) && m.Others() == old(m.Others())
    ensures Mined(old(m.layer0), m.layer0, true, false)
    ensures weight < 0 || !m.Snapshot().InGrid(loc) ==> m.layer0 == old(m.layer0)
    ensures weight >= 0 && m.Snapshot().InGrid(loc) ==>
              var t := old(m.layer0)[loc.1][loc.0];
              (CoalOf(t).Some? ==> m.layer0[loc.1][loc.0] == CoalOf(t).value) &&
              (CoalOf(t).None? && t !in Coal ==> m.layer0 == old(m.layer0))
    decreases weight + 1
  {
    if weight < 0 {
      MinedRefl(m.layer0, true, false);
      return;
    }
    var go := MarkCoal(m, loc);
    if !go {
      MinedRefl(m.layer0, true, false);
      return;
    }
    ghost var l1 := m.layer0;
    if CoalOf(old(m.layer0)[loc.1][loc.0]).Some? {
      MinedPut(old(m.layer0), loc, CoalOf(old(m.layer0)[loc.1][loc.0]).value, true, false);
    } else {
      MinedRefl(m.layer0, true, false);
    }
    assert l1[loc.1][loc.0] in Coal;
    var a: int :| 0 <= a <= 1;
    var b: int :| 0 <= b <= 1;
    GenCoalVeins(m, (loc.0 - a, loc.1 - b), weight - 1);
    MinedTrans(old(m.layer0), l1, m.layer0, true, false);
    ghost var l2 := m.layer0;
    MineralsAreFinal(l1[loc.1][loc.0]);
    assert l2[loc.1][loc.0] == l1[loc.1][loc.0];
    var c: int :| 0 <= c <= 1;
    var d: int :| 0 <= d <= 1;
    GenCoalVeins(m, (loc.0 + c, loc.1 + d), weight - 1);
    MinedTrans(old(m.layer0), l2, m.layer0, true, false);
    assert m.layer0[loc.1][loc.0] == l1[loc.1][loc.0];
  }

  /** One optional branch of an oil field (`if random.randint(0, 1) == 1`). */
  method MaybeOil(m: GameMap, loc: Loc, weight: int)
    requires m.Valid() && weight >= -1
    modifies m
    ensures m.Valid() && m.layer1 == old(m.layer1) && m.Others() == old(m.Others())
    ensures Mined(old(m.layer0), m.layer0, false, true)
    decreases weight + 2, 0
  {
    var go: bool :| true;
    if go {
      GenOilField(m, loc, weight);
    } else {
      MinedRefl(m.layer0, false, true);
    }
  }

  /** `gen_oil_field`: like a coal vein but for oil, SHORE becoming WATEROIL
      too, and with up to four branches two cells away diagonally. */
  method GenOilField(m: GameMap, loc: Loc, weight: int)
    requires m.Valid() && weight >= -1
    modifies m
    ensures m.Valid() && m.layer1 == old(m.layer1) && m.Others() == old(m.Others())
    ensures Mined(old(m.layer0), m.layer0, false, true)
    ensures weight < 0 || !m.Snapshot().InGrid(loc) ==> m.layer0 == old(m.layer0)
    ensures weight >= 0 && m.Snapshot().InGrid(loc) ==>
              var t := old(m.layer0)[loc.1][loc.0];
              (OilOf(t).Some? ==> m.layer0[loc.1][loc.0] == OilOf(t).value) &&
              (OilOf(t).None? && t !in Oil ==> m.layer0 == old(m.layer0))
    decreases weight + 1, 2
  {
    if weight < 0 {
      MinedRefl(m.layer0, false, true);
      return;
    }
    var go := MarkOil(m, loc);
    if !go {
      MinedRefl(m.layer0, false, true);
      return;
    }
    ghost var l1 := m.layer0;
    if OilOf(old(m.layer0)[loc.1][loc.0]).Some? {
      MinedPut(old(m.layer0), loc, OilOf(old(m.layer0)[loc.1][loc.0]).value, false, true);
    } else {
      MinedRefl(m.layer0, false, true);
    }
    assert l1[loc.1][loc.0] in Oil;
    MineralsAreFinal(l1[loc.1][loc.0]);
    OilBranches(m, loc, weight - 1);
    MinedTrans(old(m.layer0), l1, m.layer0, false, true);
    assert m.layer0[loc.1][loc.0] == l1[loc.1][loc.0];
  }

  /** The four diagonal branches of an oil field. */
  method OilBranches(m: GameMap, loc: Loc, weight: int)
    requires m.Valid() && weight >= -1
    modifies m
    ensures m.Valid() && m.layer1 == old(m.layer1) && m.Others() == old(m.Others())
    ensures Mined(old(m.layer0), m.layer0, false, true)
    decreases weight + 2, 1
  {
    ghost var l0 := m.layer0;
    MaybeOil(m, (loc.0 - 2, loc.1 - 2), weight);
    ghost var l1 := m.layer0;
    MaybeOil(m, (loc.0 - 2, loc.1 + 2), weight);
    MinedTrans(l0, l1, m.layer0, false, true);
    ghost var l2 := m.layer0;
    MaybeOil(m, (loc.0 + 2, loc.1 - 2), weight);
    MinedTrans(l0, l2, m.layer0, false, true);
    ghost var l3 := m.layer0;
    MaybeOil(m, (loc.0 + 2, loc.1 + 2), weight);
    MinedTrans(l0, l3, m.layer0, false, true);
  }

  /** `i_max` of `gen_ore_veins` for an island of `n` cells:
      `min(4, int(sqrt(n) / 3)) + resources - 1`, where `int(sqrt(n) / 3)`
      is the largest `r` with `9 r^2 <= n`. */
  function OreBound(n: nat, resources: int): (r: int)
    ensures var q := r - (resources - 1); 0 <= q <= 4 && (q == 4 || 9 * Pow(q, 2) <= n < 9 * Pow(q + 1, 2))
  {
    var q := IRoot(n / 9, 2);
    assert Pow(q, 2) <= n / 9 < Pow(q + 1, 2);
    (if q < 4 then q else 4) + (resources - 1)
  }

  /** The veins of one island: `i_max - 1` picks (none when `i_max <= 1`);
      each pick is a coal vein of weight 4..8 with chance 2/3, or an oil
      field of weight 2..3. */
  method OresOnIsland(m: GameMap, island: seq<Loc>, resources: int)
    requires m.Valid() && |island| > 0
    modifies m
    ensures m.Valid() && m.layer1 == old(m.layer1) && m.Others() == old(m.Others())
    ensures Mined(old(m.layer0), m.layer0, true, true)
  {
    var iMax := OreBound(|island|, resources);
    var picks := if iMax > 1 then iMax - 1 else 0;
    MinedRefl(m.layer0, true, true);
    for i := 0 to picks
      invariant m.Valid() && m.layer1 == old(m.layer1) && m.Others() == old(m.Others())
      invariant Mined(old(m.layer0), m.layer0, true, true)
    {
      var k :| 0 <= k < |island|;
      var coords := island[k];
      var draw: int :| 0 <= draw <= 2;
      ghost var before := m.layer0;
      if draw > 0 {
        var w: int :| 4 <= w <= 8;
        GenCoalVeins(m, coords, w);
        MinedWiden(before, m.layer0, true, false);
      } else {
        var w: int :| 2 <= w <= 3;
        GenOilField(m, coords, w);
        MinedWiden(before, m.layer0, false, true);
      }
      MinedTrans(old(m.layer0), before, m.layer0, true, true);
    }
  }

  /** `gen_ore_veins`: defines the islands first when there are none, then
      mines every island of at least 30 cells. */
  method GenOreVeins(m: GameMap, resources: int)
    requires m.Valid() && (|m.islands| == 0 ==> m.width <= m.height)
    requires IslandsOnGrid(m.Snapshot(), m.islands)
    modifies m
    ensures m.Valid() && m.layer1 == old(m.layer1) && m.width == old(m.width) && m.height == old(m.height)
    ensures m.startLoc == old(m.startLoc) && m.posAt == old(m.posAt)
    ensures old(m.islands) != [] ==> m.islands == old(m.islands) && m.playableIslands == old(m.playableIslands)
    ensures old(m.islands) == [] ==> IslandsOf(old(m.Snapshot()), m.impassable, m.islands)
    ensures Mined(old(m.layer0), m.layer0, true, true)
    ensures IslandsOnGrid(m.Snapshot(), m.islands)
  {
    IslandsFirst(m);
    var islands := m.islands;
    ghost var start := m.layer0;
    ghost var b1 := m.Snapshot();
    MinedRefl(m.layer0, true, true);
    for i := 0 to |islands|
      invariant m.Valid() && m.layer1 == old(m.layer1) && m.islands == islands
      invariant m.width == old(m.width) && m.height == old(m.height)
      invariant m.startLoc == old(m.startLoc) && m.posAt == old(m.posAt)
      invariant old(m.islands) != [] ==> m.playableIslands == old(m.playableIslands)
      invariant Mined(start, m.layer0, true, true)
    {
      if |islands[i]| >= 30 {
        ghost var before := m.layer0;
        OresOnIsland(m, islands[i], resources);
        MinedTrans(start, before, m.layer0, true, true);
      }
    }
    OnGridSameSize(b1, m.Snapshot(), m.islands);
  }
}
