/** The `Map` of map.py: the scrolling window onto the tile grid (`size`,
    `maxPos`, `posAt`), the empty grid and the image classifier that fill its
    two layers, `get`, and the table that picks the joined sprite of a river
    or road cell from its connected sides. */
module Viewport {
  import opened Tiles
  import opened Wrappers
  import opened Config
  import opened TileMap
  import FromImage
  import HeightField

  /** `maxPos` for a map of `size`: the largest window origin that still
      shows the last column and row, or 0 when the map fits on the screen. */
  function MaxPosFor(size: (nat, nat)): (p: (nat, nat))
    ensures p.0 + SCREEN_X >= size.0 && (p.0 == 0 || p.0 + SCREEN_X == size.0)
    ensures p.1 + SCREEN_Y >= size.1 && (p.1 == 0 || p.1 + SCREEN_Y == size.1)
    ensures p.0 == 0 <==> size.0 <= SCREEN_X
    ensures p.1 == 0 <==> size.1 <= SCREEN_Y
  {
    (if size.0 > SCREEN_X then size.0 - SCREEN_X else 0,
     if size.1 > SCREEN_Y then size.1 - SCREEN_Y else 0)
  }

  /** The window origin after one `move(dir)` on a map of `size`. Only the
      four direction words move it, each by one step along its own axis:
      up and left while the coordinate is positive, down and right while it
      is below `size - SCREEN - 1`. */
  function Step(pos: (int, int), dir: string, size: (nat, nat)): (q: (int, int))
    ensures dir !in {"up", "down", "left", "right"} ==> q == pos
    ensures dir == "up" ==> q.0 == pos.0 && (q != pos <==> pos.1 > 0) && (q != pos ==> q.1 == pos.1 - 1)
    ensures dir == "down" ==> q.0 == pos.0 && (q != pos <==> pos.1 < size.1 - SCREEN_Y - 1) && (q != pos ==> q.1 == pos.1 + 1)
    ensures dir == "left" ==> q.1 == pos.1 && (q != pos <==> pos.0 > 0) && (q != pos ==> q.0 == pos.0 - 1)
    ensures dir == "right" ==> q.1 == pos.1 && (q != pos <==> pos.0 < size.0 - SCREEN_X - 1) && (q != pos ==> q.0 == pos.0 + 1)
    ensures 0 <= pos.0 && 0 <= pos.1 ==> 0 <= q.0 && 0 <= q.1
  {
    var (x, y) := pos;
    if dir == "up" then (if y > 0 then (x, y - 1) else (x, y))
    else if dir == "down" then (if y < size.1 - SCREEN_Y - 1 then (x, y + 1) else (x, y))
    else if dir == "left" then (if x > 0 then (x - 1, y) else (x, y))
    else if dir == "right" then (if x < size.0 - SCREEN_X - 1 then (x + 1, y) else (x, y))
    else (x, y)
  }

  /** A window origin between (0, 0) and `maxPos`. */
  predicate InView(pos: (int, int), maxPos: (nat, nat)) {
    0 <= pos.0 <= maxPos.0 && 0 <= pos.1 <= maxPos.1
  }

  /** Moving never leaves the range `draw` accepts without clamping. */
  lemma StepStaysInView(pos: (int, int), dir: string, size: (nat, nat))
    requires InView(pos, MaxPosFor(size))
    ensures InView(Step(pos, dir, size), MaxPosFor(size))
  {
  }

  /** `n` presses of the same direction key. */
  function Presses(pos: (int, int), dir: string, size: (nat, nat), n: nat): (int, int) {
    if n == 0 then pos else Step(Presses(pos, dir, size, n - 1), dir, size)
  }

  /** Pressing down `n` times walks one row per press and stops for good at
      `size.1 - SCREEN_Y - 1`. */
  lemma {:induction false} DownPresses(pos: (int, int), size: (nat, nat), n: nat)
    ensures Presses(pos, "down", size, n) ==
              (pos.0, if pos.1 >= size.1 - SCREEN_Y - 1 then pos.1 else HeightField.Clamp(pos.1 + n, pos.1, size.1 - SCREEN_Y - 1))
  {
    if n > 0 {
      DownPresses(pos, size, n - 1);
    }
  }

  /** Scrolling down stops one row short of `maxPos`: from any origin above
      it, the bottom row of a map taller than the screen never comes into
      view by key presses (only the clamp in `draw` reaches `maxPos`). */
  lemma BottomRowNotReachedByScrolling(pos: (int, int), size: (nat, nat), n: nat)
    requires size.1 > SCREEN_Y && pos.1 < MaxPosFor(size).1
    ensures Presses(pos, "down", size, n).1 < MaxPosFor(size).1
    ensures Presses(pos, "down", size, n).1 + SCREEN_Y - 1 < size.1 - 1
  {
    DownPresses(pos, size, n);
  }

  /** The clamp at the start of `draw`: each coordinate cut down to `maxPos`. */
  function ClampToMax(pos: (int, int), maxPos: (nat, nat)): (q: (int, int))
    ensures q.0 <= maxPos.0 && q.1 <= maxPos.1
    ensures q.0 <= pos.0 && q.1 <= pos.1
    ensures (q.0 == pos.0 <==> pos.0 <= maxPos.0) && (q.1 == pos.1 <==> pos.1 <= maxPos.1)
    ensures q.0 == pos.0 || q.0 == maxPos.0
    ensures q.1 == pos.1 || q.1 == maxPos.1
  {
    (if pos.0 > maxPos.0 then maxPos.0 else pos.0, if pos.1 > maxPos.1 then maxPos.1 else pos.1)
  }

  /** A non-negative origin is in view once clamped, and clamping again changes nothing. */
  lemma ClampInView(pos: (int, int), maxPos: (nat, nat))
    requires 0 <= pos.0 && 0 <= pos.1
    ensures InView(ClampToMax(pos, maxPos), maxPos)
    ensures ClampToMax(ClampToMax(pos, maxPos), maxPos) == ClampToMax(pos, maxPos)
  {
  }

  /** The ground tile `genFromImage` gives a pixel of brightness `avg`. */
  function Terrain(avg: int): (t: Tile)
    ensures t == Ocean <==> avg < 50
    ensures t == Shore <==> 50 <= avg < 70
    ensures t == Sand <==> 70 <= avg < 80
    ensures t == Grass <==> 80 <= avg < 200
    ensures t == Ground <==> 200 <= avg
  {
    if avg < 50 then Ocean
    else if avg < 70 then Shore
    else if avg < 80 then Sand
    else if avg < 200 then Grass
    else Ground
  }

  /** A brighter pixel never gives a lower tile. */
  lemma TerrainMonotone(a: int, b: int)
    requires a <= b
    ensures FromImage.Rank(Terrain(a)) <= FromImage.Rank(Terrain(b))
  {
  }

  /** What `get(loc)` does: None off the map; on the map it reads
      `self.tilemap`, an attribute no code assigns, and raises. */
  datatype Lookup = NoTile | MissingTilemap

  /** The tiles a river or road cell joins with: its own kind, and for a
      river also the water tiles. */
  function Accepted(kind: Tile): (acc: set<Tile>)
    ensures kind in acc
    ensures Shore in acc <==> kind in {River, Shore}
    ensures Ocean in acc <==> kind in {River, Ocean}
  {
    if kind == River then {River, Shore, Ocean} else {kind}
  }

  /** Cell (x, y) of either layer holds a tile in `acc`. */
  predicate Joins(l0: Grid, l1: Grid, x: nat, y: nat, acc: set<Tile>)
    requires y < |l0| && y < |l1| && x < |l0[y]| && x < |l1[y]|
  {
    l0[y][x] in acc || l1[y][x] in acc
  }

  /** The sides a cell links to, as the letters `t`, `b`, `l`, `r` in that order. */
  function Sides(t: bool, b: bool, l: bool, r: bool): (s: string)
    ensures ('t' in s <==> t) && ('b' in s <==> b) && ('l' in s <==> l) && ('r' in s <==> r)
    ensures s == [] <==> !(t || b || l || r)
  {
    (if t then "t" else "") + (if b then "b" else "") + (if l then "l" else "") + (if r then "r" else "")
  }

  /** The connection string `draw` builds for a river or road overlay at
      (x, y), in t, b, l, r order. The top row always links up and the left
      column always links left. The bottom and right checks compare with
      `size` itself, which no cell reaches, so on the last row or column the
      neighbour read runs off the lists and drawing fails: None. */
  function Links(l0: Grid, l1: Grid, width: nat, height: nat, x: nat, y: nat): (s: Option<string>)
    requires Shaped(l0, width, height) && Shaped(l1, width, height)
    requires x < width && y < height
    ensures s.None? <==> y == height - 1 || x == width - 1
    ensures s.Some? ==>
              var acc := Accepted(l1[y][x]);
              ('t' in s.value <==> y == 0 || Joins(l0, l1, x, y - 1, acc)) &&
              ('b' in s.value <==> Joins(l0, l1, x, y + 1, acc)) &&
              ('l' in s.value <==> x == 0 || Joins(l0, l1, x - 1, y, acc)) &&
              ('r' in s.value <==> Joins(l0, l1, x + 1, y, acc))
  {
    if y == height - 1 || x == width - 1 then None
    else
      var acc := Accepted(l1[y][x]);
      Some(Sides(y == 0 || Joins(l0, l1, x, y - 1, acc), Joins(l0, l1, x, y + 1, acc),
                 x == 0 || Joins(l0, l1, x - 1, y, acc), Joins(l0, l1, x + 1, y, acc)))
  }

  /** `value_table`: the sprite variant of each connection string. */
  const ValueTable: map<string, int> := map[
    "t" := 1, "l" := 0, "b" := 1, "r" := 0, "lr" := 0, "tb" := 1,
    "tl" := 2, "tr" := 3, "bl" := 4, "br" := 5,
    "tbr" := 6, "tbl" := 7, "tlr" := 8, "blr" := 9, "tblr" := 10]

  /** The variant suffix a connection string selects, None when the table
      has no entry for it. */
  function Variant(s: string): (v: Option<int>)
    ensures v.Some? <==> s in ValueTable
    ensures v.Some? ==> v.value == ValueTable[s] && 0 <= v.value <= 10
  {
    if s in ValueTable then Some(ValueTable[s]) else None
  }

  /** Every combination of linked sides has a table entry except the one
      with no side at all; a purely vertical link selects variant 1 and a
      purely horizontal one variant 0. */
  lemma VariantOfSides(t: bool, b: bool, l: bool, r: bool)
    ensures Variant(Sides(t, b, l, r)).Some? <==> t || b || l || r
    ensures Variant(Sides(t, b, l, r)) == Some(1) <==> (t || b) && !l && !r
    ensures Variant(Sides(t, b, l, r)) == Some(0) <==> (l || r) && !t && !b
  {
    if t {
      VariantWithTop(b, l, r);
    } else {
      VariantWithoutTop(b, l, r);
    }
  }

  /** The eight link strings that start with a top neighbour. */
  lemma VariantWithTop(b: bool, l: bool, r: bool)
    ensures Variant(Sides(true, b, l, r)).Some?
    ensures Variant(Sides(true, b, l, r)) == Some(1) <==> !l && !r
    ensures Variant(Sides(true, b, l, r)) != Some(0)
  {
    var s := Sides(true, b, l, r);
    if b && l && r {
      assert s == "tblr";
    } else if b && l && !r {
      assert s == "tbl";
    } else if b && !l && r {
      assert s == "tbr";
    } else if b && !l && !r {
      assert s == "tb";
    } else if !b && l && r {
      assert s == "tlr";
    } else if !b && l && !r {
      assert s == "tl";
    } else if !b && !l && r {
      assert s == "tr";
    } else {
      assert s == "t";
    }
  }

  /** The eight link strings without a top neighbour, one of them empty. */
  lemma VariantWithoutTop(b: bool, l: bool, r: bool)
    ensures Variant(Sides(false, b, l, r)).Some? <==> b || l || r
    ensures Variant(Sides(false, b, l, r)) == Some(1) <==> b && !l && !r
    ensures Variant(Sides(false, b, l, r)) == Some(0) <==> (l || r) && !b
  {
    var s := Sides(false, b, l, r);
    if b && l && r {
      assert s == "blr";
    } else if b && l && !r {
      assert s == "bl";
    } else if b && !l && r {
      assert s == "br";
    } else if b && !l && !r {
      assert s == "b";
    } else if !b && l && r {
      assert s == "lr";
    } else if !b && l && !r {
      assert s == "l";
    } else if !b && !l && r {
      assert s == "r";
    } else {
      assert s == "";
    }
  }

  /** The sprite `draw` blits over the ground of a cell. */
  datatype Sprite =
    | NoOverlay                              // UI_EMPTY
    | Plain(tile: Tile)                      // any other overlay, or a link string without a table entry
    | Joined(tile: Tile, variant: int)       // "RIVER_n" / "ROAD_n"
    | DrawFailed                             // the neighbour read past the last row or column

  /** The overlay sprite of cell (x, y). */
  function OverlaySprite(l0: Grid, l1: Grid, width: nat, height: nat, x: nat, y: nat): (sp: Sprite)
    requires Shaped(l0, width, height) && Shaped(l1, width, height)
    requires x < width && y < height
    ensures l1[y][x] == UiEmpty <==> sp == NoOverlay
    ensures sp == DrawFailed <==> l1[y][x] in {River, Road} && (y == height - 1 || x == width - 1)
    ensures sp.Plain? || sp.Joined? ==> sp.tile == l1[y][x]
    ensures sp.Joined? ==> l1[y][x] in {River, Road}
    ensures l1[y][x] in {River, Road} && x < width - 1 && y < height - 1 ==>
              (sp.Joined? <==> Links(l0, l1, width, height, x, y).value != [])
    ensures sp.Joined? ==>
              Links(l0, l1, width, height, x, y).Some? &&
              Links(l0, l1, width, height, x, y).value in ValueTable &&
              sp.variant == ValueTable[Links(l0, l1, width, height, x, y).value]
  {
    var tile1 := l1[y][x];
    if tile1 == UiEmpty then NoOverlay
    else if tile1 == River || tile1 == Road then
      match Links(l0, l1, width, height, x, y)
      case None => DrawFailed
      case Some(s) =>
        var v := Variant(s);
        LinksHaveEntry(l0, l1, width, height, x, y);
        if v.Some? then Joined(tile1, v.value) else Plain(tile1)
    else Plain(tile1)
  }

  /** A link string built by `Links` has a table entry exactly when it is not empty. */
  lemma LinksHaveEntry(l0: Grid, l1: Grid, width: nat, height: nat, x: nat, y: nat)
    requires Shaped(l0, width, height) && Shaped(l1, width, height)
    requires x < width - 1 && y < height - 1
    ensures Links(l0, l1, width, height, x, y).Some?
    ensures var s := Links(l0, l1, width, height, x, y).value; Variant(s).Some? <==> s != []
  {
    var acc := Accepted(l1[y][x]);
    VariantOfSides(y == 0 || Joins(l0, l1, x, y - 1, acc), Joins(l0, l1, x, y + 1, acc),
                   x == 0 || Joins(l0, l1, x - 1, y, acc), Joins(l0, l1, x + 1, y, acc));
  }

  class Map {
    var size: (nat, nat)
    var maxPos: (nat, nat)
    var posAt: (int, int)
    var layer0: Grid
    var layer1: Grid

    /** `maxPos` always agrees with `size`. */
    ghost predicate Valid()
      reads this
    {
      maxPos == MaxPosFor(size)
    }

    /** The part of `__init__` that is not image work: the size and the
        window at the top-left corner. The island it then generates is not
        part of this model. */
    constructor (dim: (nat, nat))
      ensures Valid() && size == dim && posAt == (0, 0)
      ensures layer0 == [] && layer1 == []
    {
      size := dim;
      maxPos := MaxPosFor(dim);
      posAt := (0, 0);
      layer0, layer1 := [], [];
    }

    /** `set_size`: records the size and the largest window origin for it. */
    method SetSize(newSize: (nat, nat))
      modifies this
      ensures Valid() && size == newSize
      ensures posAt == old(posAt) && layer0 == old(layer0) && layer1 == old(layer1)
    {
      size := newSize;
      maxPos := MaxPosFor(newSize);
    }

    /** `move(dir)`: one step of the window, as `Step` describes. */
    method Move(dir: string)
      modifies this
      ensures posAt == Step(old(posAt), dir, size)
      ensures size == old(size) && maxPos == old(maxPos)
      ensures layer0 == old(layer0) && layer1 == old(layer1)
    {
      var (x, y) := posAt;
      if dir == "up" {
        posAt := if y > 0 then (x, y - 1) else (x, y);
      } else if dir == "down" {
        posAt := if y < size.1 - SCREEN_Y - 1 then (x, y + 1) else (x, y);
      } else if dir == "left" {
        posAt := if x > 0 then (x - 1, y) else (x, y);
      } else if dir == "right" {
        posAt := if x < size.0 - SCREEN_X - 1 then (x + 1, y) else (x, y);
      }
    }

    /** The failsafe at the top of `draw`. */
    method ClampView()
      modifies this
      ensures posAt == ClampToMax(old(posAt), maxPos)
      ensures size == old(size) && maxPos == old(maxPos)
      ensures layer0 == old(layer0) && layer1 == old(layer1)
    {
      if posAt.0 > maxPos.0 {
        posAt := (maxPos.0, posAt.1);
      }
      if posAt.1 > maxPos.1 {
        posAt := (posAt.0, maxPos.1);
      }
    }

    /** `get(loc)`. */
    function Get(loc: Loc): (r: Lookup)
      reads this
      ensures r == NoTile <==> !(0 <= loc.0 < size.0 && 0 <= loc.1 < size.1)
    {
      if loc.0 < 0 || loc.1 < 0 || loc.0 > size.0 - 1 || loc.1 > size.1 - 1 then NoTile
      else MissingTilemap
    }

    /** `genEmpty`: `size.1` rows of `size.0` cells, grass under an empty overlay. */
    method GenEmpty()
      modifies this
      ensures layer0 == FromImage.Filled(size.0, size.1, Grass)
      ensures layer1 == FromImage.Filled(size.0, size.1, UiEmpty)
      ensures size == old(size) && maxPos == old(maxPos) && posAt == old(posAt)
    {
      var l0: Grid := [];
      var l1: Grid := [];
      for y := 0 to size.1
        invariant l0 == FromImage.Filled(size.0, y, Grass) && l1 == FromImage.Filled(size.0, y, UiEmpty)
      {
        var r0: seq<Tile> := [];
        var r1: seq<Tile> := [];
        for x := 0 to size.0
          invariant r0 == seq(x, _ => Grass) && r1 == seq(x, _ => UiEmpty)
        {
          r0, r1 := r0 + [Grass], r1 + [UiEmpty];
        }
        l0, l1 := l0 + [r0], l1 + [r1];
      }
      layer0, layer1 := l0, l1;
    }

    /** `genFromImage(surface, max_size)` over the picture already resampled
        to the computed dimensions (`scaled`, pixels as red, green, blue):
        the map takes those dimensions and every ground tile is the class of
        its pixel's floored mean brightness; the overlay stays empty. */
    method GenFromImage(surfaceSize: (nat, nat), maxSize: (nat, nat), scaled: array2<(int, int, int)>)
      requires (scaled.Length0, scaled.Length1) == FromImage.Dimensions(surfaceSize, maxSize)
      modifies this
      ensures Valid() && size == (scaled.Length0, scaled.Length1) && posAt == old(posAt)
      ensures Shaped(layer0, size.0, size.1) && layer1 == FromImage.Filled(size.0, size.1, UiEmpty)
      ensures forall y, x :: 0 <= y < size.1 && 0 <= x < size.0 ==>
                layer0[y][x] == Terrain(HeightField.AverageRGB(scaled[x, y].0, scaled[x, y].1, scaled[x, y].2))
    {
      SetSize((scaled.Length0, scaled.Length1));
      GenEmpty();
      var l0 := layer0;
      for x := 0 to size.0
        invariant size == (scaled.Length0, scaled.Length1)
        invariant Shaped(l0, size.0, size.1)
        invariant forall yy, xx :: 0 <= yy < size.1 && 0 <= xx < size.0 ==>
                    l0[yy][xx] == if xx < x then Terrain(Brightness(scaled, xx, yy)) else Grass
      {
        for y := 0 to size.1
          invariant Shaped(l0, size.0, size.1)
          invariant forall yy, xx :: 0 <= yy < size.1 && 0 <= xx < size.0 ==>
                      l0[yy][xx] == if xx < x || (xx == x && yy < y) then Terrain(Brightness(scaled, xx, yy)) else Grass
        {
          l0 := Put(l0, (x, y), Terrain(Brightness(scaled, x, y)));
        }
      }
      layer0 := l0;
    }
  }

  /** `(red + green + blue) // 3` of one pixel. */
  function Brightness(s: array2<(int, int, int)>, x: int, y: int): (v: int)
    requires 0 <= x < s.Length0 && 0 <= y < s.Length1
    reads s
    ensures s[x, y].0 == s[x, y].1 == s[x, y].2 ==> v == s[x, y].0
    ensures 0 <= s[x, y].0 <= 255 && 0 <= s[x, y].1 <= 255 && 0 <= s[x, y].2 <= 255 ==> 0 <= v <= 255
  {
    HeightField.AverageRGB(s[x, y].0, s[x, y].1, s[x, y].2)
  }
}
