/** `GameMapGenerator.gen_empty` and `gen_from_image`: the map size derived
    from the height image, and the elevation thresholds that turn each grey
    value into a ground tile, with the occasional mountain or palm tree
    overlay. */
module FromImage {
  import opened Tiles
  import opened TileMap
  import HeightField

  /** A rectangle of `height` rows, each `width` copies of `t`. */
  function Filled(width: nat, height: nat, t: Tile): (g: Grid)
    ensures Shaped(g, width, height)
    ensures forall y, x :: 0 <= y < height && 0 <= x < width ==> g[y][x] == t
  {
    seq(height, _ => seq(width, _ => t))
  }

  /** `gen_empty`: both layers rebuilt to the recorded size, grass under an empty overlay. */
  method GenEmpty(m: GameMap)
    requires HoldsWater(m.impassable)
    modifies m
    ensures m.Valid()
    ensures m.layer0 == Filled(m.width, m.height, Grass) && m.layer1 == Filled(m.width, m.height, UiEmpty)
    ensures m.width == old(m.width) && m.height == old(m.height)
    ensures m.islands == old(m.islands) && m.playableIslands == old(m.playableIslands)
    ensures m.startLoc == old(m.startLoc) && m.posAt == old(m.posAt)
  {
    var l0: Grid := [];
    var l1: Grid := [];
    var y := 0;
    while y < m.height
      invariant 0 <= y <= m.height
      invariant l0 == Filled(m.width, y, Grass) && l1 == Filled(m.width, y, UiEmpty)
    {
      var r0: seq<Tile> := [];
      var r1: seq<Tile> := [];
      var x := 0;
      while x < m.width
        invariant 0 <= x <= m.width
        invariant r0 == seq(x, _ => Grass) && r1 == seq(x, _ => UiEmpty)
      {
        r0, r1 := r0 + [Grass], r1 + [UiEmpty];
        x := x + 1;
      }
      l0, l1 := l0 + [r0], l1 + [r1];
      y := y + 1;
    }
    m.layer0, m.layer1 := l0, l1;
  }

  /** The size the image is scaled to: a wide image wider than the limit is
      shrunk to the limit width, a narrow one keeps its size, and a tall image
      is shrunk to the limit height only when it exceeds it and otherwise
      leaves the size at (0, 0). */
  function Dimensions(size: (nat, nat), maxSize: (nat, nat)): (d: (int, int))
    ensures size.0 >= size.1 && size.0 <= maxSize.0 ==> d == size
    ensures size.0 >= size.1 && size.0 > maxSize.0 ==> d.0 == maxSize.0 && 0 <= d.1 <= maxSize.0
    ensures size.0 < size.1 && size.1 > maxSize.1 ==> d.1 == maxSize.1 && 0 <= d.0 <= maxSize.1
    ensures size.0 < size.1 && size.1 <= maxSize.1 ==> d == (0, 0)
  {
    if size.0 >= size.1 then
      if size.0 > maxSize.0 then
        (maxSize.0, Scaled(size.1, size.0, maxSize.0))
      else size
    else if size.1 > maxSize.1 then
      (Scaled(size.0, size.1, maxSize.1), maxSize.1)
    else (0, 0)
  }

  lemma ScaledBelow(short: nat, long: nat, limit: nat)
    requires short <= long && 0 < long
    ensures 0.0 <= short as real * (limit as real / long as real) <= limit as real
  {
    var q := limit as real / long as real;
    assert 0.0 <= q;
    assert short as real * q <= long as real * q;
    assert long as real * q == limit as real;
  }

  /** The short side scaled by `limit / long` and rounded (`int(round(...))`):
      it stays within the limit. */
  function Scaled(short: nat, long: nat, limit: nat): (t: int)
    requires short <= long && 0 < long
    ensures 0 <= t <= limit
  {
    var scaled := short as real * (limit as real / long as real);
    ScaledBelow(short, long, limit);
    var t := HeightField.RoundHalfAway(scaled);
    assert t as real <= limit as real + 0.5;
    t
  }

  /** Every generator passes the image's own size as the limit: a wide or
      square image keeps its size, a tall one gives an empty map. */
  lemma DimensionsOfOwnSize(size: (nat, nat))
    ensures Dimensions(size, size) == if size.0 >= size.1 then size else (0, 0)
  {
  }

  /** The elevation threshold chain of `gen_from_image`. */
  function Elevation(avg: int, deserts: bool): (t: Tile)
    ensures t == Ocean <==> avg < 50
    ensures t == Shore <==> 50 <= avg < 100
    ensures t == Sand <==> deserts && 100 <= avg
    ensures t == Grass <==> !deserts && 100 <= avg < 200
    ensures t == Ground <==> !deserts && 200 <= avg < 230
    ensures t == Snow <==> !deserts && 230 <= avg
  {
    if avg < 50 then Ocean
    else if avg < 100 then Shore
    else if deserts then Sand
    else if avg < 200 then Grass
    else if avg < 230 then Ground
    else Snow
  }

  /** Height order of the ground tiles the classifier produces. */
  function Rank(t: Tile): nat {
    match t
    case Ocean => 0
    case Shore => 1
    case Ground => 3
    case Snow => 4
    case _ => 2
  }

  /** A brighter pixel never gives a lower tile. */
  lemma ElevationMonotone(a: int, b: int, deserts: bool)
    requires a <= b
    ensures Rank(Elevation(a, deserts)) <= Rank(Elevation(b, deserts))
  {
  }

  /** The overlay a classified ground tile receives, given the two draws
      `randint(0,40) == 0` and `randint(0,50) == 0`. */
  function OverlayFor(ground: Tile, mountainDraw: bool, palmDraw: bool): (o: Tile)
    ensures o == Mountain <==> ground in {Ground, Snow} && mountainDraw
    ensures o == PalmTree <==> ground == Sand && palmDraw
    ensures o in {Mountain, PalmTree, UiEmpty}
  {
    if ground in {Ground, Snow} && mountainDraw then Mountain
    else if ground == Sand && palmDraw then PalmTree
    else UiEmpty
  }

  /** Column `x` and every column before it classified from the image; later
      columns still as `gen_empty` left them. */
  ghost predicate ClassifiedUpTo(l0: Grid, l1: Grid, s: array2<int>, deserts: bool, x: int)
    reads s
  {
    Shaped(l0, s.Length0, s.Length1) && Shaped(l1, s.Length0, s.Length1) &&
    forall yy, xx :: 0 <= yy < s.Length1 && 0 <= xx < s.Length0 ==>
      if xx < x then
        l0[yy][xx] == Elevation(s[xx, yy], deserts) && l1[yy][xx] in {UiEmpty, OverlayFor(l0[yy][xx], true, true)}
      else
        l0[yy][xx] == Grass && l1[yy][xx] == UiEmpty
  }

  /** The inner loop of `gen_from_image`: column `x`, row by row, each cell
      classified and given its overlay from two fresh draws. */
  method ClassifyColumn(l0: Grid, l1: Grid, s: array2<int>, deserts: bool, x: int) returns (l0': Grid, l1': Grid)
    requires 0 <= x < s.Length0 && ClassifiedUpTo(l0, l1, s, deserts, x)
    ensures ClassifiedUpTo(l0', l1', s, deserts, x + 1)
  {
    l0', l1' := l0, l1;
    var y := 0;
    while y < s.Length1
      invariant 0 <= y <= s.Length1
      invariant Shaped(l0', s.Length0, s.Length1) && Shaped(l1', s.Length0, s.Length1)
      invariant forall yy, xx :: 0 <= yy < s.Length1 && 0 <= xx < s.Length0 ==>
        if xx < x || (xx == x && yy < y) then
          l0'[yy][xx] == Elevation(s[xx, yy], deserts) && l1'[yy][xx] in {UiEmpty, OverlayFor(l0'[yy][xx], true, true)}
        else
          l0'[yy][xx] == Grass && l1'[yy][xx] == UiEmpty
    {
      var tile := Elevation(s[x, y], deserts);
      var mountainDraw: bool :| true;
      var palmDraw: bool :| true;
      l0' := Put(l0', (x, y), tile);
      l1' := Put(l1', (x, y), OverlayFor(tile, mountainDraw, palmDraw));
      y := y + 1;
    }
  }

  /** The classification loop of `gen_from_image` over an image already
      resampled to the map's size (`scaled`), in the source's column-major
      order. Every ground tile is the elevation class of its pixel; MOUNTAIN
      appears only on GROUND or SNOW, PALMTREE only on SAND, every other
      overlay is empty. */
  method GenFromImage(m: GameMap, surface: array2<int>, maxSize: (nat, nat), scaled: array2<int>, deserts: bool)
    requires HoldsWater(m.impassable)
    requires (scaled.Length0, scaled.Length1) == Dimensions((surface.Length0, surface.Length1), maxSize)
    modifies m
    ensures m.Valid()
    ensures m.width == scaled.Length0 && m.height == scaled.Length1
    ensures forall y, x :: 0 <= y < m.height && 0 <= x < m.width ==>
              m.layer0[y][x] == Elevation(scaled[x, y], deserts)
    ensures forall y, x :: 0 <= y < m.height && 0 <= x < m.width ==>
              (m.layer1[y][x] == Mountain ==> m.layer0[y][x] in {Ground, Snow}) &&
              (m.layer1[y][x] == PalmTree ==> m.layer0[y][x] == Sand) &&
              m.layer1[y][x] in {Mountain, PalmTree, UiEmpty}
    ensures m.islands == old(m.islands) && m.playableIslands == old(m.playableIslands)
    ensures m.startLoc == old(m.startLoc) && m.posAt == old(m.posAt)
  {
    m.SetSize(scaled.Length0, scaled.Length1);
    GenEmpty(m);
    var l0, l1 := m.layer0, m.layer1;
    var x := 0;
    while x < m.width
      invariant 0 <= x <= m.width
      invariant m.width == scaled.Length0 && m.height == scaled.Length1
      invariant ClassifiedUpTo(l0, l1, scaled, deserts, x)
      invariant HoldsWater(m.impassable) && m.islands == old(m.islands) && m.playableIslands == old(m.playableIslands)
      invariant m.startLoc == old(m.startLoc) && m.posAt == old(m.posAt)
    {
      l0, l1 := ClassifyColumn(l0, l1, scaled, deserts, x);
      x := x + 1;
    }
    m.layer0, m.layer1 := l0, l1;
  }
}
