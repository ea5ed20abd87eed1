/** Start-site selection of `GameMapGenerator`: `start_location_suitability`
    checks a 5 x 3 footprint around a candidate town hall, and
    `select_player_startpoint` probes candidates on one island and, on
    success, clears the footprint and draws the town hall and its road. */
module StartSite {
  import opened Tiles
  import opened TileMap
  import opened Wrappers
  import opened IslandScan
  import Config

  /** The outcome of `start_location_suitability`: a usable footprint, an
      unusable one, or a footprint cell off the map, where the source indexes
      None and raises a TypeError. */
  datatype Probe = Fit | Unfit | OffMap

  /** The 5 x 3 footprint of a start site in the source's loop order: rows
      `y - 1` to `y + 1`, each from column `x - 2` to `x + 2`. */
  function Footprint(loc: Loc): (f: seq<Loc>)
    ensures |f| == 15
  {
    seq(15, k requires 0 <= k < 15 => (loc.0 - 2 + k % 5, loc.1 - 1 + k / 5))
  }

  /** Cell `j` of row `i` of the footprint. */
  lemma FootprintAt(loc: Loc, i: int, j: int)
    requires 0 <= i < 3 && 0 <= j < 5
    ensures Footprint(loc)[5 * i + j] == (loc.0 - 2 + j, loc.1 - 1 + i)
  {
    assert (5 * i + j) % 5 == j && (5 * i + j) / 5 == i;
  }

  /** The footprint is exactly the cells at most two columns and one row from `loc`. */
  lemma FootprintCells(loc: Loc, c: Loc)
    ensures c in Footprint(loc) <==> -2 <= c.0 - loc.0 <= 2 && -1 <= c.1 - loc.1 <= 1
  {
    if -2 <= c.0 - loc.0 <= 2 && -1 <= c.1 - loc.1 <= 1 {
      FootprintAt(loc, c.1 - loc.1 + 1, c.0 - loc.0 + 2);
    }
  }

  /** A footprint cell the town can stand on: on the map, passable and without a river. */
  predicate Good(b: Board, impassable: set<Tile>, c: Loc)
    requires b.Valid()
  {
    b.InGrid(c) && b.Ground(c) !in impassable && b.Overlay(c) != River
  }

  /** The footprint loop: stops at the first cell off the map or unusable. */
  function Scan(b: Board, impassable: set<Tile>, cells: seq<Loc>): Probe
    requires b.Valid()
  {
    if cells == [] then Fit
    else if !b.InGrid(cells[0]) then OffMap
    else if !Good(b, impassable, cells[0]) then Unfit
    else Scan(b, impassable, cells[1..])
  }

  /** The scan passes exactly when every cell is usable. */
  lemma {:induction false} ScanFit(b: Board, impassable: set<Tile>, cells: seq<Loc>)
    requires b.Valid()
    ensures Scan(b, impassable, cells) == Fit <==> forall k :: 0 <= k < |cells| ==> Good(b, impassable, cells[k])
  {
    if cells != [] {
      ScanFit(b, impassable, cells[1..]);
      assert forall k :: 1 <= k < |cells| ==> cells[k] == cells[1..][k - 1];
    }
  }

  /** Past a prefix of usable cells the scan goes on as from there. */
  lemma {:induction false} ScanFrom(b: Board, impassable: set<Tile>, cells: seq<Loc>, k: int)
    requires b.Valid() && 0 <= k <= |cells|
    requires forall j :: 0 <= j < k ==> Good(b, impassable, cells[j])
    ensures Scan(b, impassable, cells) == Scan(b, impassable, cells[k..])
    decreases k
  {
    if k > 0 {
      assert forall j :: 0 <= j < k - 1 ==> cells[1..][j] == cells[j + 1];
      ScanFrom(b, impassable, cells[1..], k - 1);
      assert cells[1..][k - 1..] == cells[k..];
    }
  }

  /** The scan stops at the first unusable cell: OFF_MAP when it is off the map, else UNFIT. */
  lemma ScanStopsAt(b: Board, impassable: set<Tile>, cells: seq<Loc>, k: int)
    requires b.Valid() && 0 <= k < |cells| && !Good(b, impassable, cells[k])
    requires forall j :: 0 <= j < k ==> Good(b, impassable, cells[j])
    ensures Scan(b, impassable, cells) == if b.InGrid(cells[k]) then Unfit else OffMap
  {
    ScanFrom(b, impassable, cells, k);
    assert cells[k..][0] == cells[k];
  }

  /** The centre test of `start_location_suitability`: passable, and outside
      deserts neither SAND nor SNOW. */
  predicate CentreOk(b: Board, impassable: set<Tile>, deserts: bool, loc: Loc)
    requires b.Valid() && b.InGrid(loc)
  {
    b.Ground(loc) !in impassable && (deserts || (b.Ground(loc) != Sand && b.Ground(loc) != Snow))
  }

  /** What `start_location_suitability(loc)` does: an off-map centre is
      indexed too, so it is `OffMap` as well. */
  function Assess(b: Board, impassable: set<Tile>, deserts: bool, loc: Loc): (p: Probe)
    requires b.Valid()
    ensures !b.InGrid(loc) ==> p == OffMap
    ensures p == Fit ==>
              b.InGrid(loc) && CentreOk(b, impassable, deserts, loc) &&
              forall k :: 0 <= k < |Footprint(loc)| ==> Good(b, impassable, Footprint(loc)[k])
  {
    ScanFit(b, impassable, Footprint(loc));
    if !b.InGrid(loc) then OffMap
    else if !CentreOk(b, impassable, deserts, loc) then Unfit
    else Scan(b, impassable, Footprint(loc))
  }

  /** A site fits exactly when its centre passes and every footprint cell is
      on the map, passable and free of rivers. */
  lemma AssessFit(b: Board, impassable: set<Tile>, deserts: bool, loc: Loc)
    requires b.Valid()
    ensures Assess(b, impassable, deserts, loc) == Fit <==>
              b.InGrid(loc) && CentreOk(b, impassable, deserts, loc) &&
              forall c :: c in Footprint(loc) ==> Good(b, impassable, c)
  {
    var f := Footprint(loc);
    ScanFit(b, impassable, f);
    if b.InGrid(loc) && CentreOk(b, impassable, deserts, loc) && Scan(b, impassable, f) == Fit {
      forall c | c in f ensures Good(b, impassable, c) {
        var k :| 0 <= k < |f| && f[k] == c;
      }
    }
  }

  /** One row `i` of the footprint loop of `start_location_suitability`:
      appends the row's cells while they are usable. It reports `Fit` when the
      whole row is, and otherwise the scan's verdict at the cell it stopped on. */
  method ScanRow(b: Board, impassable: set<Tile>, loc: Loc, i: int, tiles: seq<Loc>) returns (tiles': seq<Loc>, stop: Probe)
    requires b.Valid() && 0 <= i < 3
    requires tiles == Footprint(loc)[..5 * i]
    requires forall k :: 0 <= k < 5 * i ==> Good(b, impassable, Footprint(loc)[k])
    ensures stop != Fit ==> Scan(b, impassable, Footprint(loc)) == stop
    ensures stop == Fit ==> tiles' == Footprint(loc)[..5 * i + 5]
    ensures stop == Fit ==> forall k :: 0 <= k < 5 * i + 5 ==> Good(b, impassable, Footprint(loc)[k])
  {
    ghost var fp := Footprint(loc);
    var y := loc.1 - 1 + i;
    tiles' := tiles;
    for j := 0 to 5
      invariant tiles' == fp[..5 * i + j]
      invariant forall k :: 0 <= k < 5 * i + j ==> Good(b, impassable, fp[k])
    {
      var x := loc.0 - 2 + j;
      ghost var k := 5 * i + j;
      FootprintAt(loc, i, j);
      if !b.InGrid((x, y)) {
        ScanStopsAt(b, impassable, fp, k);
        return tiles', OffMap;
      }
      if b.layer0[y][x] in impassable || b.layer1[y][x] == River {
        ScanStopsAt(b, impassable, fp, k);
        return tiles', Unfit;
      }
      assert Good(b, impassable, fp[k]);
      assert fp[..k + 1] == fp[..k] + [fp[k]];
      tiles' := tiles' + [(x, y)];
    }
    stop := Fit;
  }

  /** `start_location_suitability`: the footprint when every cell of it is
      usable, the empty list when the centre or a cell reached before any
      off-map one is unusable, and None where the source indexes an off-map
      cell (the centre, or a footprint cell) and raises. */
  method StartLocationSuitability(b: Board, impassable: set<Tile>, deserts: bool, loc: Loc) returns (r: Option<seq<Loc>>)
    requires b.Valid()
    ensures r.None? <==> Assess(b, impassable, deserts, loc) == OffMap
    ensures r == Some(Footprint(loc)) <==> Assess(b, impassable, deserts, loc) == Fit
    ensures r == Some([]) <==> Assess(b, impassable, deserts, loc) == Unfit
  {
    var current := b.Get(loc);
    if current.None? {
      return None;
    }
    if current.value.layer0 in impassable || (!deserts && current.value.layer0 in {Sand, Snow}) {
      return Some([]);
    }
    ghost var fp := Footprint(loc);
    var tiles := [];
    for i := 0 to 3
      invariant tiles == fp[..5 * i]
      invariant forall k :: 0 <= k < 5 * i ==> Good(b, impassable, fp[k])
    {
      var stop;
      tiles, stop := ScanRow(b, impassable, loc, i, tiles);
      if stop == OffMap {
        return None;
      } else if stop == Unfit {
        return Some([]);
      }
    }
    assert tiles == fp;
    ScanFit(b, impassable, fp);
    return Some(tiles);
  }

  /** The three road cells under the town hall at `loc`. */
  function Roads(loc: Loc): seq<Loc> {
    [(loc.0 - 1, loc.1 + 1), (loc.0, loc.1 + 1), (loc.0 + 1, loc.1 + 1)]
  }

  /** The roads are the cells of the row below `loc` at most one column away from it. */
  lemma RoadsCells(loc: Loc, c: Loc)
    ensures c in Roads(loc) <==> c.1 == loc.1 + 1 && -1 <= c.0 - loc.0 <= 1
  {
    if c.1 == loc.1 + 1 && -1 <= c.0 - loc.0 <= 1 {
      if c.0 == loc.0 - 1 {
        assert c == Roads(loc)[0];
      } else if c.0 == loc.0 {
        assert c == Roads(loc)[1];
      } else {
        assert c == Roads(loc)[2];
      }
    }
  }

  /** The town drawn at `loc`: the footprint cleared to UI_EMPTY, MAYORS at
      `loc` and ROAD on the three cells below it. */
  function StartOverlay(g: Grid, loc: Loc): (r: Grid)
    ensures |r| == |g| && forall y :: 0 <= y < |g| ==> |r[y]| == |g[y]|
  {
    var g1 := PutAll(g, Footprint(loc), UiEmpty);
    PutAllCells(g, Footprint(loc), UiEmpty);
    PutAllCells(Put(g1, loc, Mayors), Roads(loc), Road);
    PutAll(Put(PutAll(g, Footprint(loc), UiEmpty), loc, Mayors), Roads(loc), Road)
  }

  /** Cell by cell, the drawn town: MAYORS at the anchor, ROAD on the three
      cells below it, UI_EMPTY on the rest of the footprint and the old
      overlay elsewhere. */
  lemma StartOverlayCells(g: Grid, loc: Loc)
    ensures |StartOverlay(g, loc)| == |g|
    ensures forall y :: 0 <= y < |g| ==> |StartOverlay(g, loc)[y]| == |g[y]|
    ensures forall y, x :: 0 <= y < |g| && 0 <= x < |g[y]| ==>
      StartOverlay(g, loc)[y][x] ==
        if (x, y) in Roads(loc) then Road
        else if (x, y) == loc then Mayors
        else if (x, y) in Footprint(loc) then UiEmpty
        else g[y][x]
  {
    var g1 := PutAll(g, Footprint(loc), UiEmpty);
    PutAllCells(g, Footprint(loc), UiEmpty);
    PutAllCells(Put(g1, loc, Mayors), Roads(loc), Road);
  }

  /** The town hall stands on the anchor of a drawn town. */
  lemma StartOverlayAnchor(g: Grid, loc: Loc)
    requires 0 <= loc.1 < |g| && 0 <= loc.0 < |g[loc.1]|
    ensures |StartOverlay(g, loc)| == |g| && |StartOverlay(g, loc)[loc.1]| == |g[loc.1]|
    ensures StartOverlay(g, loc)[loc.1][loc.0] == Mayors
  {
    StartOverlayCells(g, loc);
    RoadsCells(loc, loc);
  }

  /** `range(lo, hi)`. */
  function Range(lo: int, hi: int): (r: seq<int>)
    ensures forall v :: v in r <==> lo <= v < hi
    decreases hi - lo
  {
    if lo >= hi then [] else [lo] + Range(lo + 1, hi)
  }

  /** `sorted(range(lo, hi), key=lambda k: random.random())`: some order of `range(lo, hi)`. */
  method Shuffle(lo: int, hi: int) returns (s: seq<int>)
    ensures multiset(s) == multiset(Range(lo, hi))
  {
    var rest := Range(lo, hi);
    s := [];
    while |rest| > 0
      invariant multiset(s) + multiset(rest) == multiset(Range(lo, hi))
      decreases |rest|
    {
      var k :| 0 <= k < |rest|;
      assert rest == rest[..k] + [rest[k]] + rest[k + 1..];
      s := s + [rest[k]];
      rest := rest[..k] + rest[k + 1..];
    }
  }

  /** The candidates `select_player_startpoint` may probe: with its ranges
      swapped, x runs over the island's y range and y over its x range, upper
      bounds excluded. */
  predicate Candidate(island: seq<Loc>, loc: Loc) {
    var bx := Box(island);
    bx.2 <= loc.0 < bx.3 && bx.0 <= loc.1 < bx.1
  }

  /** Every value of a shuffled range lies in the range. */
  lemma ShuffledIn(s: seq<int>, lo: int, hi: int)
    requires multiset(s) == multiset(Range(lo, hi))
    ensures forall v :: v in s ==> lo <= v < hi
  {
    forall v | v in s
      ensures lo <= v < hi
    {
      assert v in multiset(s);
      assert v in Range(lo, hi);
    }
  }

  /** Draws the town of `select_player_startpoint` on the overlay: the
      footprint is cleared, the mayor's house goes on the anchor and the
      three cells below it become road. */
  method DrawTown(m: GameMap, startLoc: Loc)
    requires m.Valid()
    modifies m
    ensures m.Valid() && m.layer0 == old(m.layer0)
    ensures m.width == old(m.width) && m.height == old(m.height) && m.posAt == old(m.posAt)
    ensures m.islands == old(m.islands) && m.playableIslands == old(m.playableIslands)
    ensures m.startLoc == startLoc && m.layer1 == StartOverlay(old(m.layer1), startLoc)
  {
    m.startLoc := startLoc;
    PaintOverlay(m, Footprint(startLoc), UiEmpty);
    m.Set(startLoc, Layer1, Mayors);
    PaintOverlay(m, Roads(startLoc), Road);
  }

    /** The town hall drawn at `loc` and the view centred on it. */
  method FoundTown(m: GameMap, loc: Loc)
    requires m.Valid()
    modifies m
    ensures m.Valid() && m.layer0 == old(m.layer0)
    ensures m.width == old(m.width) && m.height == old(m.height)
    ensures m.islands == old(m.islands) && m.playableIslands == old(m.playableIslands)
    ensures m.startLoc == loc && m.layer1 == StartOverlay(old(m.layer1), loc)
    ensures m.posAt == CentredView(loc)
  {
    DrawTown(m, loc);
    CentreView(m, loc);
  }

  /** The view origin that centres `loc`: half a screen (20 columns, 14 rows)
      up and left of it, but never negative. */
  function CentredView(loc: Loc): (p: Loc)
    ensures p.0 >= 0 && p.1 >= 0
    ensures loc.0 >= Config.SCREEN_X / 2 ==> loc.0 - p.0 == Config.SCREEN_X / 2
    ensures loc.1 >= Config.SCREEN_Y / 2 ==> loc.1 - p.1 == Config.SCREEN_Y / 2
    ensures loc.0 < Config.SCREEN_X / 2 ==> p.0 == 0
    ensures loc.1 < Config.SCREEN_Y / 2 ==> p.1 == 0
  {
    (if loc.0 > 20 then loc.0 - 20 else 0, if loc.1 > 14 then loc.1 - 14 else 0)
  }

  /** Centres the view on `loc` as far as the map's top-left corner allows:
      `loc` sits half a screen right of and below the view's origin, unless
      that origin would be negative. */
  method CentreView(m: GameMap, loc: Loc)
    modifies m
    ensures m.posAt == CentredView(loc)
    ensures m.width == old(m.width) && m.height == old(m.height)
    ensures m.layer0 == old(m.layer0) && m.layer1 == old(m.layer1)
    ensures m.islands == old(m.islands) && m.playableIslands == old(m.playableIslands)
    ensures m.startLoc == old(m.startLoc)
  {
    var px := loc.0 - Config.SCREEN_X / 2;
    var py := loc.1 - Config.SCREEN_Y / 2;
    m.posAt := (if px > 0 then px else 0, if py > 0 then py else 0);
  }

  /** The probe loop of `select_player_startpoint` over the shuffled ranges:
      for each y of `rangeY` only the first x of `rangeX` is tried (the inner
      loop breaks after it), until a footprint fits or a probe raises. */
  method ProbeSites(b: Board, impassable: set<Tile>, deserts: bool, island: seq<Loc>, rangeX: seq<int>, rangeY: seq<int>)
    returns (r: Option<seq<Loc>>, startLoc: Loc)
    requires b.Valid()
    requires forall x :: x in rangeX ==> Box(island).2 <= x < Box(island).3
    requires forall y :: y in rangeY ==> Box(island).0 <= y < Box(island).1
    ensures r != Some([]) ==> Candidate(island, startLoc)
    ensures r.None? ==> Assess(b, impassable, deserts, startLoc) == OffMap
    ensures r.Some? && r.value != [] ==> Assess(b, impassable, deserts, startLoc) == Fit && r.value == Footprint(startLoc)
    ensures r == Some([]) ==> rangeX == [] || forall y :: y in rangeY ==> Assess(b, impassable, deserts, (rangeX[0], y)) == Unfit
  {
    var tiles: seq<Loc> := [];
    startLoc := (-1, -1);
    for iy := 0 to |rangeY|
      invariant tiles == []
      invariant rangeX != [] ==> forall y :: y in rangeY[..iy] ==> Assess(b, impassable, deserts, (rangeX[0], y)) == Unfit
    {
      var y := rangeY[iy];
      if |rangeX| > 0 {
        var x := rangeX[0];
        assert x in rangeX && y in rangeY;
        var probe := StartLocationSuitability(b, impassable, deserts, (x, y));
        startLoc := (x, y);
        if probe.None? {
          return None, startLoc;
        }
        tiles := probe.value;
      }
      if |tiles| > 0 {
        return Some(tiles), startLoc;
      }
      assert rangeY[..iy + 1] == rangeY[..iy] + [y];
    }
    assert rangeY[..|rangeY|] == rangeY;
    return Some([]), startLoc;
  }

  /** The search of `select_player_startpoint` on a board: the island's
      bounding box is shuffled into the two (swapped) ranges and probed. */
  method ChooseSite(b: Board, impassable: set<Tile>, deserts: bool, island: seq<Loc>)
    returns (r: Option<seq<Loc>>, startLoc: Loc)
    requires b.Valid()
    ensures r != Some([]) ==> Candidate(island, startLoc)
    ensures r.None? ==> Assess(b, impassable, deserts, startLoc) == OffMap
    ensures r.Some? && r.value != [] ==> Assess(b, impassable, deserts, startLoc) == Fit && r.value == Footprint(startLoc)
    ensures (forall x, y :: Candidate(island, (x, y)) ==> Assess(b, impassable, deserts, (x, y)) == Unfit) ==> r == Some([])
  {
    var minX, maxX, minY, maxY := FindIslandMinMax(island);
    var rangeX := Shuffle(minY, maxY);
    var rangeY := Shuffle(minX, maxX);
    ShuffledIn(rangeX, minY, maxY);
    ShuffledIn(rangeY, minX, maxX);
    r, startLoc := ProbeSites(b, impassable, deserts, island, rangeX, rangeY);
  }

  /** `select_player_startpoint`: on the first usable site it records the
      start, draws the town and centres the view on it, and answers
      `Some(true)`; with no usable site it answers `Some(false)` and changes
      nothing. None stands for the TypeError the source raises when a probed
      footprint runs off the map; the map is then unchanged too. */
  method SelectPlayerStartpoint(m: GameMap, island: seq<Loc>, deserts: bool) returns (r: Option<bool>)
    requires m.Valid()
    modifies m
    ensures m.Valid() && m.layer0 == old(m.layer0)
    ensures m.width == old(m.width) && m.height == old(m.height)
    ensures m.islands == old(m.islands) && m.playableIslands == old(m.playableIslands)
    ensures r != Some(true) ==> m.layer1 == old(m.layer1) && m.startLoc == old(m.startLoc) && m.posAt == old(m.posAt)
    ensures r == Some(true) ==> Candidate(island, m.startLoc) && Assess(old(m.Snapshot()), m.impassable, deserts, m.startLoc) == Fit
    ensures r == Some(true) ==> m.layer1 == StartOverlay(old(m.layer1), m.startLoc)
    ensures r == Some(true) ==> m.posAt == CentredView(m.startLoc)
    ensures r.None? ==> exists c :: Candidate(island, c) && Assess(old(m.Snapshot()), m.impassable, deserts, c) == OffMap
    ensures (forall x, y :: Candidate(island, (x, y)) ==> Assess(old(m.Snapshot()), m.impassable, deserts, (x, y)) == Unfit) ==> r == Some(false)
  {
    var tiles, startLoc := ChooseSite(m.Snapshot(), m.impassable, deserts, island);
    if tiles.None? {
      return None;
    }
    if |tiles.value| > 0 {
      FoundTown(m, startLoc);
      return Some(true);
    }
    return Some(false);
  }
}
