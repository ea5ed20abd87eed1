/** The map object the generators of generators.py read and write: two
    equal-sized layers of tile tokens, `get(loc)` giving both layers of a cell
    or None off the grid, and `set(loc, layer, value)`. Layers are lists of
    rows, indexed `[y][x]` as in the source. */
module TileMap {
  import opened Tiles
  import opened Wrappers

  type Grid = seq<seq<Tile>>

  datatype Layer = Layer0 | Layer1

  /** What `get` returns for an on-grid cell: `{'layer_0': .., 'layer_1': ..}`. */
  datatype Cell = Cell(layer0: Tile, layer1: Tile)

  /** `g` has `height` rows of `width` tiles each. */
  predicate Shaped(g: Grid, width: nat, height: nat) {
    |g| == height && forall y :: 0 <= y < height ==> |g[y]| == width
  }

  /** `g` with the tile at `loc` replaced by `v`; unchanged when `loc` is off the grid. */
  function Put(g: Grid, loc: Loc, v: Tile): (r: Grid)
    ensures |r| == |g|
    ensures forall y :: 0 <= y < |g| ==> |r[y]| == |g[y]|
    ensures forall y, x :: 0 <= y < |g| && 0 <= x < |g[y]| ==>
              r[y][x] == if (x, y) == loc then v else g[y][x]
  {
    if 0 <= loc.1 < |g| && 0 <= loc.0 < |g[loc.1]| then g[loc.1 := g[loc.1][loc.0 := v]] else g
  }

  /** Writing the same value twice is the same as writing it once. */
  lemma PutIdempotent(g: Grid, loc: Loc, v: Tile)
    ensures Put(Put(g, loc, v), loc, v) == Put(g, loc, v)
  {
    if 0 <= loc.1 < |g| && 0 <= loc.0 < |g[loc.1]| {
      var row := g[loc.1][loc.0 := v];
      assert row[loc.0 := v] == row;
    }
  }

  /** A write off the grid changes nothing. */
  lemma PutOffGrid(g: Grid, loc: Loc, v: Tile, width: nat, height: nat)
    requires Shaped(g, width, height)
    requires !(0 <= loc.0 < width && 0 <= loc.1 < height)
    ensures Put(g, loc, v) == g
  {
  }

  /** `g` with `v` written at each cell of `cells`, in order. */
  function PutAll(g: Grid, cells: seq<Loc>, v: Tile): Grid {
    if cells == [] then g else Put(PutAll(g, cells[..|cells| - 1], v), cells[|cells| - 1], v)
  }

  /** Writing a list of cells keeps the shape and writes `v` exactly at its on-grid cells. */
  lemma {:induction false} PutAllCells(g: Grid, cells: seq<Loc>, v: Tile)
    ensures |PutAll(g, cells, v)| == |g|
    ensures forall y :: 0 <= y < |g| ==> |PutAll(g, cells, v)[y]| == |g[y]|
    ensures forall y, x :: 0 <= y < |g| && 0 <= x < |g[y]| ==>
              PutAll(g, cells, v)[y][x] == if (x, y) in cells then v else g[y][x]
  {
    if cells != [] {
      var init := cells[..|cells| - 1];
      PutAllCells(g, init, v);
      assert cells == init + [cells[|cells| - 1]];
    }
  }

  /** A read-only view of the map: its size and both layers. */
  datatype Board = Board(width: nat, height: nat, layer0: Grid, layer1: Grid) {
    predicate Valid() {
      Shaped(layer0, width, height) && Shaped(layer1, width, height)
    }

    predicate InGrid(loc: Loc) {
      0 <= loc.0 < width && 0 <= loc.1 < height
    }

    /** `get(loc)`: both layers of an on-grid cell, None off the grid. */
    function Get(loc: Loc): (c: Option<Cell>)
      requires Valid()
      ensures c.Some? <==> InGrid(loc)
      ensures c.Some? ==> c.value.layer0 == layer0[loc.1][loc.0] && c.value.layer1 == layer1[loc.1][loc.0]
    {
      if InGrid(loc) then Some(Cell(layer0[loc.1][loc.0], layer1[loc.1][loc.0])) else None
    }

    function Ground(loc: Loc): Tile
      requires Valid() && InGrid(loc)
    {
      layer0[loc.1][loc.0]
    }

    function Overlay(loc: Loc): Tile
      requires Valid() && InGrid(loc)
    {
      layer1[loc.1][loc.0]
    }

    /** An on-grid cell whose ground is not in `impassable`. */
    predicate Passable(loc: Loc, impassable: set<Tile>)
      requires Valid()
    {
      InGrid(loc) && Ground(loc) !in impassable
    }
  }

  class GameMap {
    var width: nat
    var height: nat
    var layer0: Grid
    var layer1: Grid
    var islands: seq<seq<Loc>>
    var playableIslands: seq<seq<Loc>>
    var startLoc: Loc
    var posAt: Loc
    /** The ground tiles flood fills, beaches and start sites treat as water. */
    const impassable: set<Tile>

    ghost predicate Valid()
      reads this
    {
      Shaped(layer0, width, height) && Shaped(layer1, width, height) && HoldsWater(impassable)
    }

    function Snapshot(): (b: Board)
      reads this
      ensures Valid() ==> b.Valid()
    {
      Board(width, height, layer0, layer1)
    }

    constructor (impassable: set<Tile>)
      requires HoldsWater(impassable)
      ensures Valid() && this.impassable == impassable
      ensures width == 0 && height == 0 && islands == [] && playableIslands == []
    {
      this.impassable := impassable;
      width, height := 0, 0;
      layer0, layer1 := [], [];
      islands, playableIslands := [], [];
      startLoc, posAt := (-1, -1), (0, 0);
    }

    /** Every field but the two layers. */
    ghost function Others(): (nat, nat, seq<seq<Loc>>, seq<seq<Loc>>, Loc, Loc)
      reads this
    {
      (width, height, islands, playableIslands, startLoc, posAt)
    }

    /** `set(loc, layer, value)`: one tile of one layer; a no-op off the grid. */
    method Set(loc: Loc, layer: Layer, v: Tile)
      requires Valid()
      modifies this
      ensures Valid()
      ensures layer0 == if layer == Layer0 then Put(old(layer0), loc, v) else old(layer0)
      ensures layer1 == if layer == Layer1 then Put(old(layer1), loc, v) else old(layer1)
      ensures width == old(width) && height == old(height)
      ensures islands == old(islands) && playableIslands == old(playableIslands)
      ensures startLoc == old(startLoc) && posAt == old(posAt)
    {
      if layer == Layer0 {
        layer0 := Put(layer0, loc, v);
      } else {
        layer1 := Put(layer1, loc, v);
      }
    }

    /** `set_size`: records the new size; the layers are rebuilt by `GenEmpty`. */
    method SetSize(w: nat, h: nat)
      modifies this
      ensures width == w && height == h
      ensures layer0 == old(layer0) && layer1 == old(layer1)
      ensures islands == old(islands) && playableIslands == old(playableIslands)
      ensures startLoc == old(startLoc) && posAt == old(posAt)
    {
      width, height := w, h;
    }
  }

  /** The loop `for loc in cells: self.map.set(loc, 'layer_1', v)`. */
  method PaintOverlay(m: GameMap, cells: seq<Loc>, v: Tile)
    requires m.Valid()
    modifies m
    ensures m.Valid() && m.layer1 == PutAll(old(m.layer1), cells, v)
    ensures m.layer0 == old(m.layer0) && m.Others() == old(m.Others())
  {
    for j := 0 to |cells|
      invariant m.Valid() && m.layer1 == PutAll(old(m.layer1), cells[..j], v)
      invariant m.layer0 == old(m.layer0) && m.Others() == old(m.Others())
    {
      assert cells[..j + 1][..j] == cells[..j];
      m.Set(cells[j], Layer1, v);
    }
    assert cells[..|cells|] == cells;
  }
}
