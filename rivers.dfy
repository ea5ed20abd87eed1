/** River generation of `GameMapGenerator`: `draw_river` walks downhill from
    a start cell collecting cells until it reaches water, and `gen_rivers`
    stamps a collected river onto the overlay layer only when the walk
    succeeded. */
module Rivers {
  import opened Tiles
  import opened TileMap
  import opened Islands

  /** A neighbour the river may flow into, with its height. */
  datatype Candidate = Candidate(to: Loc, value: int)

  /** Index of the first candidate of least height: the head of the
      candidates after Python's stable sort by height. */
  function FirstLowest(cs: seq<Candidate>): (i: nat)
    requires |cs| > 0
    ensures i < |cs|
    ensures forall j :: 0 <= j < |cs| ==> cs[i].value <= cs[j].value
    ensures forall j :: 0 <= j < i ==> cs[j].value > cs[i].value
  {
    if |cs| == 1 then 0
    else
      var k := 1 + FirstLowest(cs[1..]);
      assert cs[k] == cs[1..][k - 1];
      if cs[0].value <= cs[k].value then 0 else k
  }

  predicate IsWater(t: Tile) {
    t == Shore || t == Ocean
  }

  ghost predicate OnGridCells(b: Board, rs: seq<Loc>) {
    forall c :: c in rs ==> b.InGrid(c)
  }

  /** Some cell after index `from` has a 4-neighbour of water no higher than itself. */
  ghost predicate ReachesWater(b: Board, h: array2<int>, rs: seq<Loc>, from: int)
    requires b.Valid() && h.Length0 == b.width && h.Length1 == b.height
    reads h
  {
    exists k, n :: 0 <= from <= k < |rs| && Adjacent(rs[k], n) && b.InGrid(n) && b.InGrid(rs[k]) &&
      IsWater(b.Ground(n)) && h[n.0, n.1] <= h[rs[k].0, rs[k].1]
  }

  /** Every in-grid 4-neighbour of `loc` is higher than `loc`. */
  ghost predicate Sink(b: Board, h: array2<int>, loc: Loc)
    requires b.Valid() && h.Length0 == b.width && h.Length1 == b.height && b.InGrid(loc)
    reads h
  {
    forall n :: b.InGrid(n) && Adjacent(loc, n) ==> h[n.0, n.1] > h[loc.0, loc.1]
  }

  /** `n` as a candidate when it is on the grid and no higher than `loc`. */
  function Toward(b: Board, h: array2<int>, loc: Loc, n: Loc): (cs: seq<Candidate>)
    requires b.Valid() && h.Length0 == b.width && h.Length1 == b.height && b.InGrid(loc)
    reads h
    ensures |cs| <= 1
    ensures cs != [] <==> b.InGrid(n) && h[n.0, n.1] <= h[loc.0, loc.1]
    ensures cs != [] ==> cs[0].to == n && cs[0].value == h[n.0, n.1]
  {
    if b.InGrid(n) && h[n.0, n.1] <= h[loc.0, loc.1] then [Candidate(n, h[n.0, n.1])] else []
  }

  /** The in-grid neighbours no higher than `loc`, in the order up, down, left, right. */
  function Downhill(b: Board, h: array2<int>, loc: Loc): (cs: seq<Candidate>)
    requires b.Valid() && h.Length0 == b.width && h.Length1 == b.height && b.InGrid(loc)
    reads h
    ensures |cs| <= 4
    ensures forall i :: 0 <= i < |cs| ==>
      b.InGrid(cs[i].to) && Adjacent(loc, cs[i].to) && cs[i].value == h[cs[i].to.0, cs[i].to.1] &&
      cs[i].value <= h[loc.0, loc.1]
    ensures cs == [] <==> Sink(b, h, loc)
  {
    var (x, y) := loc;
    var up, down, left, right := Toward(b, h, loc, (x, y - 1)), Toward(b, h, loc, (x, y + 1)),
                                 Toward(b, h, loc, (x - 1, y)), Toward(b, h, loc, (x + 1, y));
    assert Sink(b, h, loc) <== up == [] && down == [] && left == [] && right == [] by {
      if up == [] && down == [] && left == [] && right == [] {
        forall n | b.InGrid(n) && Adjacent(loc, n) ensures h[n.0, n.1] > h[loc.0, loc.1] {
          assert n == (x, y - 1) || n == (x, y + 1) || n == (x - 1, y) || n == (x + 1, y);
        }
      }
    }
    var cs := up + down + left + right;
    assert forall i :: 0 <= i < |cs| ==> cs[i] in up || cs[i] in down || cs[i] in left || cs[i] in right;
    cs
  }

  /** The on-grid cells not yet collected: what bounds the walk. */
  ghost function Unvisited(b: Board, rs: seq<Loc>): set<Loc> {
    Cells(b) - set c | c in rs
  }

  lemma UnvisitedShrinks(b: Board, rs: seq<Loc>, loc: Loc)
    requires b.InGrid(loc) && loc !in rs
    ensures Unvisited(b, rs + [loc]) < Unvisited(b, rs)
  {
    assert loc in Cells(b);
    assert loc in Unvisited(b, rs) && loc !in Unvisited(b, rs + [loc]);
  }

  lemma UnvisitedGrows(b: Board, base: seq<Loc>, cur: seq<Loc>)
    requires |base| <= |cur| && cur[..|base|] == base
    ensures Unvisited(b, cur) <= Unvisited(b, base)
  {
    forall c | c in base ensures c in cur {
      var k :| 0 <= k < |base| && base[k] == c;
      assert cur[k] == cur[..|base|][k];
    }
  }

  lemma AppendFresh(b: Board, rs: seq<Loc>, loc: Loc)
    requires b.Valid() && Distinct(rs) && OnGridCells(b, rs) && b.InGrid(loc) && loc !in rs
    ensures Distinct(rs + [loc]) && OnGridCells(b, rs + [loc])
  {
  }

  /** The first lowest downhill neighbour of `loc` is SHORE or OCEAN. */
  predicate FlowsToWater(b: Board, h: array2<int>, loc: Loc)
    requires b.Valid() && h.Length0 == b.width && h.Length1 == b.height && b.InGrid(loc)
    reads h
  {
    var cs := Downhill(b, h, loc);
    cs != [] && IsWater(b.Ground(cs[FirstLowest(cs)].to))
  }

  /** No on-grid 4-neighbour of `loc` is passable, so no delta branch starts. */
  ghost predicate NoDeltas(b: Board, imp: set<Tile>, loc: Loc)
    requires b.Valid()
  {
    forall n :: Adjacent(loc, n) ==> !b.Passable(n, imp)
  }

  /** Without a delta none of the four neighbours is passable. */
  lemma NoDeltasBlocks(b: Board, imp: set<Tile>, loc: Loc)
    requires b.Valid() && NoDeltas(b, imp, loc)
    ensures !b.Passable((loc.0 - 1, loc.1), imp) && !b.Passable((loc.0 + 1, loc.1), imp)
    ensures !b.Passable((loc.0, loc.1 - 1), imp) && !b.Passable((loc.0, loc.1 + 1), imp)
  {
    assert Adjacent(loc, (loc.0 - 1, loc.1)) && Adjacent(loc, (loc.0 + 1, loc.1));
    assert Adjacent(loc, (loc.0, loc.1 - 1)) && Adjacent(loc, (loc.0, loc.1 + 1));
  }

  /** What every call of `draw_river` does to the cell list: it only appends
      distinct on-grid cells that carry no river yet. */
  ghost predicate Appended(b: Board, rs: seq<Loc>, rs': seq<Loc>)
    requires b.Valid()
  {
    |rs| <= |rs'| && rs'[..|rs|] == rs &&
    forall k :: |rs| <= k < |rs'| ==> b.InGrid(rs'[k]) && b.Overlay(rs'[k]) != River
  }

  lemma AppendedTrans(b: Board, r0: seq<Loc>, r1: seq<Loc>, r2: seq<Loc>)
    requires b.Valid() && Appended(b, r0, r1) && Appended(b, r1, r2)
    ensures Appended(b, r0, r2)
  {
    assert r2[..|r0|] == r2[..|r1|][..|r0|];
    forall k | |r0| <= k < |r1| ensures r2[k] == r1[k] {
      assert r2[k] == r2[..|r1|][k];
    }
  }

  lemma ReachesWaterLater(b: Board, h: array2<int>, r1: seq<Loc>, r2: seq<Loc>, from: int, later: int)
    requires b.Valid() && h.Length0 == b.width && h.Length1 == b.height
    requires 0 <= from <= later && Appended(b, r1, r2) && ReachesWater(b, h, r2, later)
    ensures ReachesWater(b, h, r2, from)
  {
  }

  /** When the walk from a fresh cell `loc` neither stops at a sink nor
      reaches water and goes on past `loc`, the next cell it appends is the
      first lowest downhill neighbour of `loc`: adjacent and no higher. */
  ghost predicate StepsDownhill(b: Board, h: array2<int>, rs: seq<Loc>, rs': seq<Loc>, loc: Loc)
    requires b.Valid() && h.Length0 == b.width && h.Length1 == b.height
    reads h
  {
    b.InGrid(loc) && b.Overlay(loc) != River && loc !in rs && Downhill(b, h, loc) != [] &&
    !FlowsToWater(b, h, loc) && |rs'| > |rs| + 1 ==>
      var cs := Downhill(b, h, loc);
      rs'[|rs| + 1] == cs[FirstLowest(cs)].to && Adjacent(loc, rs'[|rs| + 1]) &&
      h[rs'[|rs| + 1].0, rs'[|rs| + 1].1] <= h[loc.0, loc.1]
  }

  /** A walk whose cell after `loc` is the first lowest downhill neighbour steps downhill. */
  lemma StepTaken(b: Board, h: array2<int>, rs: seq<Loc>, r: seq<Loc>, loc: Loc, next: Loc)
    requires b.Valid() && h.Length0 == b.width && h.Length1 == b.height && b.InGrid(loc)
    requires Downhill(b, h, loc) != [] && next == Downhill(b, h, loc)[FirstLowest(Downhill(b, h, loc))].to
    requires |r| > |rs| + 1 ==> r[|rs| + 1] == next
    ensures StepsDownhill(b, h, rs, r, loc)
  {
  }

  /** `draw_river`: appends `loc` (unless it is off the grid, already a river
      or already collected) and follows the first lowest downhill neighbour.
      Reaching a neighbour of SHORE or OCEAN succeeds, after spawning delta
      branches into the passable neighbours while `weight > 0`; in highlands
      a long enough river also succeeds; otherwise the walk continues from
      the neighbour with weight 1. */
  method DrawRiver(b: Board, imp: set<Tile>, h: array2<int>, highlands: bool, rs: seq<Loc>, loc: Loc, weight: int)
    returns (ok: bool, rs': seq<Loc>)
    requires b.Valid() && h.Length0 == b.width && h.Length1 == b.height
    requires Distinct(rs) && OnGridCells(b, rs)
    ensures Appended(b, rs, rs') && Distinct(rs') && OnGridCells(b, rs')
    ensures !b.InGrid(loc) || b.Overlay(loc) == River || loc in rs ==> !ok && rs' == rs
    ensures b.InGrid(loc) && b.Overlay(loc) != River && loc !in rs ==> |rs'| > |rs| && rs'[|rs|] == loc
    ensures b.InGrid(loc) && b.Overlay(loc) != River && loc !in rs && Downhill(b, h, loc) == [] ==>
              !ok && rs' == rs + [loc]
    ensures ok ==> (highlands && |rs'| > 10) || ReachesWater(b, h, rs', |rs|)
    ensures b.InGrid(loc) && b.Overlay(loc) != River && loc !in rs && FlowsToWater(b, h, loc) ==> ok
    ensures (b.InGrid(loc) && b.Overlay(loc) != River && loc !in rs && FlowsToWater(b, h, loc) &&
             (weight <= 0 || NoDeltas(b, imp, loc))) ==> rs' == rs + [loc]
    ensures StepsDownhill(b, h, rs, rs', loc)
    decreases Unvisited(b, rs), 0
  {
    var (x, y) := loc;
    if x < 0 || y < 0 || x > b.width - 1 || y > b.height - 1 {
      return false, rs;
    }
    if b.Overlay(loc) == River || loc in rs {
      return false, rs;
    }
    rs' := rs + [loc];
    assert rs'[..|rs|] == rs;
    UnvisitedShrinks(b, rs, loc);
    AppendFresh(b, rs, loc);
    assert Appended(b, rs, rs');
    var possible := Downhill(b, h, loc);
    if |possible| == 0 {
      return false, rs';
    }
    var next := possible[FirstLowest(possible)].to;
    if IsWater(b.Ground(next)) {
      assert ReachesWater(b, h, rs', |rs|) by {
        assert rs'[|rs|] == loc;
      }
      if weight > 0 {
        rs' := Deltas(b, imp, h, highlands, rs, loc, weight);
      }
      return true, rs';
    }
    var limit: int :| 10 <= limit <= 26;
    if highlands && |rs'| > limit {
      return true, rs';
    }
    var r;
    ok, r := DrawRiver(b, imp, h, highlands, rs', next, 1);
    AppendedTrans(b, rs, rs', r);
    assert |r| > |rs'| ==> r[|rs'|] == next;
    StepTaken(b, h, rs, r, loc, next);
    if ok && !(highlands && |r| > 10) {
      ReachesWaterLater(b, h, rs', r, |rs|, |rs'|);
    }
    rs' := r;
  }

  /** The delta branches of a river that reached water at `loc`: one walk with
      weight `weight - 1` into each passable neighbour, in the order left,
      right, up, down; their results are not used, but the cells they
      collect stay in the list. */
  method Deltas(b: Board, imp: set<Tile>, h: array2<int>, highlands: bool, rs: seq<Loc>, loc: Loc, weight: int)
    returns (rs': seq<Loc>)
    requires b.Valid() && h.Length0 == b.width && h.Length1 == b.height && b.InGrid(loc)
    requires Distinct(rs + [loc]) && OnGridCells(b, rs + [loc]) && b.Overlay(loc) != River
    requires ReachesWater(b, h, rs + [loc], |rs|)
    ensures Appended(b, rs, rs') && Distinct(rs') && OnGridCells(b, rs') && |rs'| > |rs| && rs'[|rs|] == loc
    ensures ReachesWater(b, h, rs', |rs|)
    ensures NoDeltas(b, imp, loc) ==> rs' == rs + [loc]
    decreases Unvisited(b, rs + [loc]), 3
  {
    var (x, y) := loc;
    var base := rs + [loc];
    assert base[..|rs|] == rs;
    assert Growing(b, h, rs, base, base);
    var r1 := DeltaIfPassable(b, imp, h, highlands, rs, base, base, (x - 1, y), weight - 1);
    var r2 := DeltaIfPassable(b, imp, h, highlands, rs, base, r1, (x + 1, y), weight - 1);
    var r3 := DeltaIfPassable(b, imp, h, highlands, rs, base, r2, (x, y - 1), weight - 1);
    rs' := DeltaIfPassable(b, imp, h, highlands, rs, base, r3, (x, y + 1), weight - 1);
    if NoDeltas(b, imp, loc) {
      NoDeltasBlocks(b, imp, loc);
      assert r1 == base && r2 == r1 && r3 == r2 && rs' == r3;
    }
    assert rs'[|rs|] == rs'[..|base|][|rs|];
  }

  /** A delta branch into `n` when it is a passable cell: the source's test
      `x > 0 and map.get((x - 1, y))['layer_0'] not in impassable` and its
      three siblings. */
  method DeltaIfPassable(b: Board, imp: set<Tile>, h: array2<int>, highlands: bool, rs: seq<Loc>, base: seq<Loc>,
                         cur: seq<Loc>, n: Loc, weight: int)
    returns (rs': seq<Loc>)
    requires b.Valid() && h.Length0 == b.width && h.Length1 == b.height
    requires Growing(b, h, rs, base, cur)
    ensures Growing(b, h, rs, base, rs')
    ensures !b.Passable(n, imp) ==> rs' == cur
    decreases Unvisited(b, base), 2
  {
    if b.Passable(n, imp) {
      rs' := Delta(b, imp, h, highlands, rs, base, cur, n, weight);
    } else {
      rs' := cur;
    }
  }

  /** The state between delta branches: `cur` extends `base`, which is `rs`
      plus the cell that reached water. */
  ghost predicate Growing(b: Board, h: array2<int>, rs: seq<Loc>, base: seq<Loc>, cur: seq<Loc>)
    requires b.Valid() && h.Length0 == b.width && h.Length1 == b.height
    reads h
  {
    Distinct(cur) && OnGridCells(b, cur) && Appended(b, rs, cur) && |rs| < |base| <= |cur| &&
    cur[..|base|] == base && ReachesWater(b, h, cur, |rs|)
  }

  /** One delta branch, from the state `cur` reached so far past `base`. */
  method Delta(b: Board, imp: set<Tile>, h: array2<int>, highlands: bool, rs: seq<Loc>, base: seq<Loc>,
               cur: seq<Loc>, n: Loc, weight: int)
    returns (rs': seq<Loc>)
    requires b.Valid() && h.Length0 == b.width && h.Length1 == b.height
    requires Growing(b, h, rs, base, cur)
    ensures Growing(b, h, rs, base, rs')
    decreases Unvisited(b, base), 1
  {
    UnvisitedGrows(b, base, cur);
    var _, r := DrawRiver(b, imp, h, highlands, cur, n, weight);
    GrowingExtends(b, h, rs, base, cur, r);
    rs' := r;
  }

  /** Whatever a branch appends to the state between branches keeps it one. */
  lemma GrowingExtends(b: Board, h: array2<int>, rs: seq<Loc>, base: seq<Loc>, cur: seq<Loc>, r: seq<Loc>)
    requires b.Valid() && h.Length0 == b.width && h.Length1 == b.height
    requires Growing(b, h, rs, base, cur)
    requires Appended(b, cur, r) && Distinct(r) && OnGridCells(b, r)
    ensures Growing(b, h, rs, base, r)
  {
    AppendedTrans(b, rs, cur, r);
    assert r[..|base|] == r[..|cur|][..|base|];
    ReachesWaterLater(b, h, cur, r, |rs|, |rs|);
  }

  /** A successful walk of a single cell: on the two-cell map GRASS, SHORE
      with the shore no higher, `draw_river` from the grass cell steps toward
      the shore at once, and no delta branch starts because the only
      neighbour is impassable; so by `DrawRiver`'s contract it succeeds with
      the one-cell list `[(0, 0)]`. */
  lemma OneCellRiver(h: array2<int>, imp: set<Tile>)
    requires h.Length0 == 2 && h.Length1 == 1 && h[1, 0] <= h[0, 0] && HoldsWater(imp)
    ensures var b := Board(2, 1, [[Grass, Shore]], [[UiEmpty, UiEmpty]]);
      b.Valid() && b.InGrid((0, 0)) && b.Overlay((0, 0)) != River &&
      FlowsToWater(b, h, (0, 0)) && NoDeltas(b, imp, (0, 0))
  {
    var b := Board(2, 1, [[Grass, Shore]], [[UiEmpty, UiEmpty]]);
    assert Downhill(b, h, (0, 0)) == [Candidate((1, 0), h[1, 0])];
    forall n | Adjacent((0, 0), n) ensures !b.Passable(n, imp) {
      assert n == (1, 0) || !b.InGrid(n);
    }
  }
}

/** `gen_rivers`: a number of river attempts per island of at least 40 cells,
    each starting among the highest cells, stamped onto the overlay layer
    (after meandering) only when the walk succeeded. */
module RiverGen {
  import opened Tiles
  import opened TileMap
  import opened Sorting
  import opened Islands
  import opened IslandScan
  import opened IntRoots
  import opened Meander
  import opened Rivers

  /** `g` with RIVER written at each cell of `river`, in order. */
  function Stamp(g: Grid, river: seq<Loc>): Grid {
    PutAll(g, river, River)
  }

  /** Stamping a river keeps the shape and writes RIVER exactly at its on-grid cells. */
  lemma StampCells(g: Grid, river: seq<Loc>)
    ensures |Stamp(g, river)| == |g|
    ensures forall y :: 0 <= y < |g| ==> |Stamp(g, river)[y]| == |g[y]|
    ensures forall y, x :: 0 <= y < |g| && 0 <= x < |g[y]| ==>
              Stamp(g, river)[y][x] == if (x, y) in river then River else g[y][x]
  {
    PutAllCells(g, river, River);
  }

  /** `g` with every river of `rivers` stamped, in order. */
  function StampAll(g: Grid, rivers: seq<seq<Loc>>): Grid {
    if rivers == [] then g else Stamp(StampAll(g, rivers[..|rivers| - 1]), rivers[|rivers| - 1])
  }

  /** After stamping all rivers, a cell is RIVER when some river holds it and is unchanged otherwise. */
  lemma {:induction false} StampAllCells(g: Grid, rivers: seq<seq<Loc>>)
    ensures |StampAll(g, rivers)| == |g|
    ensures forall y :: 0 <= y < |g| ==> |StampAll(g, rivers)[y]| == |g[y]|
    ensures forall y, x :: 0 <= y < |g| && 0 <= x < |g[y]| ==>
              StampAll(g, rivers)[y][x] ==
                if exists i :: 0 <= i < |rivers| && (x, y) in rivers[i] then River else g[y][x]
  {
    if rivers != [] {
      var init := rivers[..|rivers| - 1];
      var last := rivers[|rivers| - 1];
      StampAllCells(g, init);
      StampCells(StampAll(g, init), last);
      assert forall i :: 0 <= i < |init| ==> init[i] == rivers[i];
      forall y, x | 0 <= y < |g| && 0 <= x < |g[y]|
        ensures StampAll(g, rivers)[y][x] ==
                  if exists i :: 0 <= i < |rivers| && (x, y) in rivers[i] then River else g[y][x]
      {
        if (x, y) !in last && exists i :: 0 <= i < |rivers| && (x, y) in rivers[i] {
          var i :| 0 <= i < |rivers| && (x, y) in rivers[i];
          assert i < |init| && (x, y) in init[i];
        }
      }
    }
  }

  lemma StampAllSnoc(g: Grid, rivers: seq<seq<Loc>>, river: seq<Loc>)
    ensures StampAll(g, rivers + [river]) == Stamp(StampAll(g, rivers), river)
  {
    assert (rivers + [river])[..|rivers|] == rivers;
  }

  /** A height sample `{'value': .., 'loc': ..}` of an island cell. */
  datatype Sample = Sample(loc: Loc, value: int)

  predicate ByHeight(a: Sample, b: Sample) {
    a.value <= b.value
  }

  lemma ByHeightPreorder()
    ensures Total(ByHeight) && Transitive(ByHeight)
  {
  }

  function Samples(h: array2<int>, island: seq<Loc>): (r: seq<Sample>)
    requires forall c :: c in island ==> 0 <= c.0 < h.Length0 && 0 <= c.1 < h.Length1
    reads h
    ensures |r| == |island|
    ensures forall k :: 0 <= k < |r| ==> r[k].loc == island[k] && r[k].value == h[island[k].0, island[k].1]
  {
    if island == [] then [] else [Sample(island[0], h[island[0].0, island[0].1])] + Samples(h, island[1..])
  }

  /** The bounds `(i_min, i_max)` of the river count of an island of `n` cells:
      `i_min` is the integer fifth root, at least 1, and `i_max` the integer
      cube root, at least `i_min + 3`. */
  function RiverBounds(n: nat): (r: (int, int))
    ensures r.0 >= 1 && r.1 >= r.0 + 3
    ensures r.0 == 1 || Pow(r.0, 5) <= n < Pow(r.0 + 1, 5)
    ensures r.1 == r.0 + 3 || Pow(r.1, 3) <= n < Pow(r.1 + 1, 3)
  {
    var lo := if IRoot(n, 5) > 1 then IRoot(n, 5) else 1;
    (lo, if IRoot(n, 3) > lo + 3 then IRoot(n, 3) else lo + 3)
  }

  /** The start indices drawn by `gen_rivers`: from `int(n * 0.85)` to
      `int(n * 0.98)` into the cells sorted by height; always a valid index. */
  function StartRange(n: nat): (r: (nat, nat))
    ensures r.0 <= r.1
    ensures n > 0 ==> r.1 < n
  {
    (n * 85 / 100, n * 98 / 100)
  }

  /** What a successful walk guarantees: it reached water, or it is a highlands
      river longer than the shortest cut-off. */
  ghost predicate Succeeded(b: Board, h: array2<int>, highlands: bool, walk: seq<Loc>)
    requires b.Valid() && h.Length0 == b.width && h.Length1 == b.height
    reads h
  {
    (highlands && |walk| > 10) || ReachesWater(b, h, walk, 0)
  }

  /** `sorted(height_values, key=lambda x: x['value'])`: the island's samples
      in non-decreasing height. */
  function SortedSamples(h: array2<int>, island: seq<Loc>): (r: seq<Sample>)
    requires forall c :: c in island ==> 0 <= c.0 < h.Length0 && 0 <= c.1 < h.Length1
    reads h
    ensures |r| == |island|
    ensures multiset(r) == multiset(Samples(h, island))
    ensures forall i, j :: 0 <= i < j < |r| ==> r[i].value <= r[j].value
    ensures forall k :: 0 <= k < |r| ==> r[k].loc in island
  {
    var samples := Samples(h, island);
    ByHeightPreorder();
    var r := Sort(samples, ByHeight);
    assert forall k :: 0 <= k < |r| ==> r[k].loc in island by {
      forall k | 0 <= k < |r| ensures r[k].loc in island {
        assert r[k] in multiset(samples);
        var j :| 0 <= j < |samples| && samples[j] == r[k];
      }
    }
    r
  }

  /** `ReachesWater` reads only the ground layer, the size and the heights. */
  lemma ReachesWaterGround(b: Board, b': Board, h: array2<int>, walk: seq<Loc>)
    requires b.Valid() && b'.Valid() && h.Length0 == b.width && h.Length1 == b.height
    requires b'.width == b.width && b'.height == b.height && b'.layer0 == b.layer0
    requires ReachesWater(b, h, walk, 0)
    ensures ReachesWater(b', h, walk, 0)
  {
    var k, n :| 0 <= k < |walk| && Adjacent(walk[k], n) && b.InGrid(n) && b.InGrid(walk[k]) &&
      IsWater(b.Ground(n)) && h[n.0, n.1] <= h[walk[k].0, walk[k].1];
    assert b'.Ground(n) == b.Ground(n);
  }

  /** The walk of one attempt, from `start` on the map as it is: on success
      it starts at `start` and succeeded on any board with the same ground. */
  method Walk(b0: Board, imp: set<Tile>, h: array2<int>, highlands: bool, start: Loc, ghost b: Board)
    returns (ok: bool, walk: seq<Loc>)
    requires b0.Valid() && h.Length0 == b0.width && h.Length1 == b0.height
    requires b.Valid() && b.width == b0.width && b.height == b0.height && b.layer0 == b0.layer0
    ensures ok ==> Succeeded(b, h, highlands, walk) && |walk| > 0 && walk[0] == start
  {
    ok, walk := DrawRiver(b0, imp, h, highlands, [], start, 1);
    if ok && !(highlands && |walk| > 10) {
      ReachesWaterGround(b0, b, h, walk);
    }
  }

  /** One attempt of `gen_rivers` from `start`: the walk, and on success its
      meandered river stamped onto the overlay layer. A failure writes nothing.
      `b` is any board with the map's ground layer. */
  method Attempt(m: GameMap, h: array2<int>, highlands: bool, start: Loc, ghost b: Board)
    returns (ok: bool, ghost walk: seq<Loc>, ghost river: seq<Loc>)
    requires m.Valid() && h.Length0 == m.width && h.Length1 == m.height
    requires b.Valid() && b.width == m.width && b.height == m.height && b.layer0 == m.layer0
    modifies m
    ensures m.Valid() && m.layer1 == if ok then Stamp(old(m.layer1), river) else old(m.layer1)
    ensures m.layer0 == old(m.layer0) && m.Others() == old(m.Others())
    ensures ok ==> river == Meandered(walk) && Succeeded(b, h, highlands, walk)
    ensures ok ==> |walk| > 0 && walk[0] == start
  {
    var rs;
    ok, rs := Walk(m.Snapshot(), m.impassable, h, highlands, start, b);
    walk, river := rs, rs;
    if ok {
      var meandered := MeanderRiverFixed(rs);
      PaintOverlay(m, meandered, River);
      river := meandered;
    }
  }

  /** The meandered form of every walk, in order. */
  function MeanderAll(walks: seq<seq<Loc>>): (rivers: seq<seq<Loc>>)
    ensures |rivers| == |walks|
  {
    if walks == [] then [] else MeanderAll(walks[..|walks| - 1]) + [Meandered(walks[|walks| - 1])]
  }

  /** The `i`-th river is the meandered `i`-th walk. */
  lemma {:induction false} MeanderAllAt(walks: seq<seq<Loc>>, i: int)
    requires 0 <= i < |walks|
    ensures MeanderAll(walks)[i] == Meandered(walks[i])
    decreases |walks|
  {
    if i < |walks| - 1 {
      MeanderAllAt(walks[..|walks| - 1], i);
    }
  }

  lemma {:induction false} MeanderAllConcat(w1: seq<seq<Loc>>, w2: seq<seq<Loc>>)
    ensures MeanderAll(w1 + w2) == MeanderAll(w1) + MeanderAll(w2)
    decreases |w2|
  {
    if w2 == [] {
      assert w1 + w2 == w1;
    } else {
      MeanderAllConcat(w1, w2[..|w2| - 1]);
      assert (w1 + w2)[..|w1 + w2| - 1] == w1 + w2[..|w2| - 1];
    }
  }

  /** The successful walks so far: each succeeded on the ground layer of `b`
      and started in `starts`. */
  ghost predicate Outcome(b: Board, h: array2<int>, highlands: bool, starts: set<Loc>, walks: seq<seq<Loc>>)
    requires b.Valid() && h.Length0 == b.width && h.Length1 == b.height
    reads h
  {
    forall i :: 0 <= i < |walks| ==> Succeeded(b, h, highlands, walks[i]) && |walks[i]| > 0 && walks[i][0] in starts
  }

  lemma OutcomeSnoc(b: Board, h: array2<int>, highlands: bool, starts: set<Loc>, walks: seq<seq<Loc>>, walk: seq<Loc>)
    requires b.Valid() && h.Length0 == b.width && h.Length1 == b.height
    requires Outcome(b, h, highlands, starts, walks)
    requires Succeeded(b, h, highlands, walk) && |walk| > 0 && walk[0] in starts
    ensures Outcome(b, h, highlands, starts, walks + [walk])
  {
  }

  lemma OutcomeConcat(b: Board, h: array2<int>, highlands: bool, s1: set<Loc>, s2: set<Loc>,
                      w1: seq<seq<Loc>>, w2: seq<seq<Loc>>)
    requires b.Valid() && h.Length0 == b.width && h.Length1 == b.height
    requires Outcome(b, h, highlands, s1, w1) && Outcome(b, h, highlands, s2, w2)
    ensures Outcome(b, h, highlands, s1 + s2, w1 + w2)
  {
    forall i | 0 <= i < |w1 + w2|
      ensures Succeeded(b, h, highlands, (w1 + w2)[i]) && |(w1 + w2)[i]| > 0 && (w1 + w2)[i][0] in s1 + s2
    {
      if i >= |w1| {
        assert (w1 + w2)[i] == w2[i - |w1|];
      }
    }
  }

  lemma {:induction false} StampAllConcat(g: Grid, r1: seq<seq<Loc>>, r2: seq<seq<Loc>>)
    ensures StampAll(g, r1 + r2) == StampAll(StampAll(g, r1), r2)
    decreases |r2|
  {
    if r2 == [] {
      assert r1 + r2 == r1;
    } else {
      var init := r2[..|r2| - 1];
      StampAllConcat(g, r1, init);
      assert (r1 + r2)[..|r1 + r2| - 1] == r1 + init;
    }
  }

  /** Stamping the meandered form of one more walk. */
  lemma StampNext(g: Grid, walks: seq<seq<Loc>>, walk: seq<Loc>, river: seq<Loc>)
    requires river == Meandered(walk)
    ensures StampAll(g, MeanderAll(walks + [walk])) == Stamp(StampAll(g, MeanderAll(walks)), river)
  {
    assert (walks + [walk])[..|walks|] == walks;
    assert MeanderAll(walks + [walk]) == MeanderAll(walks) + [river];
    StampAllSnoc(g, MeanderAll(walks), river);
  }

  /** The river attempts on one island: at most `attempts` walks, until
      `count` of them have succeeded. Each success is meandered and stamped.
      `b` is any board with the map's ground layer. */
  method RiversOnIsland(m: GameMap, h: array2<int>, highlands: bool, island: seq<Loc>, count: int, attempts: nat,
                        ghost b: Board)
    returns (ghost walks: seq<seq<Loc>>)
    requires m.Valid() && h.Length0 == m.width && h.Length1 == m.height
    requires b.Valid() && b.width == m.width && b.height == m.height && b.layer0 == m.layer0
    requires forall c :: c in island ==> b.InGrid(c)
    modifies m
    ensures m.Valid() && m.layer1 == StampAll(old(m.layer1), MeanderAll(walks))
    ensures m.layer0 == old(m.layer0) && m.Others() == old(m.Others())
    ensures |walks| <= if count < 0 then 0 else count
    ensures Outcome(b, h, highlands, (set c | c in island), walks)
  {
    ghost var g0 := m.layer1;
    var sorted := SortedSamples(h, island);
    var left := count;
    var tries := 0;
    walks := [];
    while left > 0 && tries < attempts && |sorted| > 0
      invariant m.Valid() && m.layer1 == StampAll(g0, MeanderAll(walks))
      invariant m.layer0 == b.layer0 && m.Others() == old(m.Others())
      invariant left == count - |walks| && (left < 0 ==> walks == [])
      invariant Outcome(b, h, highlands, (set c | c in island), walks)
      decreases attempts - tries
    {
      var (lo, hi) := StartRange(|sorted|);
      var s :| lo <= s <= hi;
      var ok, walk, river := Attempt(m, h, highlands, sorted[s].loc, b);
      if ok {
        left := left - 1;
        StampNext(g0, walks, walk, river);
        OutcomeSnoc(b, h, highlands, (set c | c in island), walks, walk);
        walks := walks + [walk];
      }
      tries := tries + 1;
    }
  }

  /** The cells of the islands that get rivers: those of at least 40 cells. */
  ghost function RiverIslandCells(islands: seq<seq<Loc>>): set<Loc> {
    set i, c | 0 <= i < |islands| && c in islands[i] && |islands[i]| >= 40 :: c
  }

  /** The loop over the islands of `gen_rivers`. */
  method RiversOnIslands(m: GameMap, h: array2<int>, highlands: bool, rainfall: int, attempts: nat, ghost b: Board)
    returns (ghost walks: seq<seq<Loc>>)
    requires m.Valid() && h.Length0 == m.width && h.Length1 == m.height
    requires b.Valid() && b.width == m.width && b.height == m.height && b.layer0 == m.layer0
    requires IslandsOnGrid(b, m.islands)
    modifies m
    ensures m.Valid() && m.layer1 == StampAll(old(m.layer1), MeanderAll(walks))
    ensures m.layer0 == old(m.layer0) && m.Others() == old(m.Others())
    ensures Outcome(b, h, highlands, RiverIslandCells(m.islands), walks)
  {
    ghost var g0 := m.layer1;
    var islands := m.islands;
    walks := [];
    for i := 0 to |islands|
      invariant m.Valid() && m.layer1 == StampAll(g0, MeanderAll(walks))
      invariant m.layer0 == b.layer0 && m.Others() == old(m.Others())
      invariant Outcome(b, h, highlands, RiverIslandCells(islands[..i]), walks)
    {
      var island := islands[i];
      RiverIslandCellsSnoc(islands, i);
      if |island| >= 40 {
        var (iMin, iMax) := RiverBounds(|island|);
        var k :| iMin <= k <= iMax;
        var w := RiversOnIsland(m, h, highlands, island, k + (rainfall - 1), attempts, b);
        StampAllConcat(g0, MeanderAll(walks), MeanderAll(w));
        MeanderAllConcat(walks, w);
        OutcomeConcat(b, h, highlands, RiverIslandCells(islands[..i]), (set c | c in island), walks, w);
        walks := walks + w;
      }
    }
    assert islands[..|islands|] == islands;
  }

  lemma RiverIslandCellsSnoc(islands: seq<seq<Loc>>, i: int)
    requires 0 <= i < |islands|
    ensures RiverIslandCells(islands[..i + 1]) ==
            RiverIslandCells(islands[..i]) + (if |islands[i]| >= 40 then set c | c in islands[i] else {})
  {
    assert forall j :: 0 <= j < i ==> islands[..i + 1][j] == islands[..i][j];
    assert islands[..i + 1][i] == islands[i];
  }

  /** `gen_rivers`: defines the islands first when there are none, then runs
      the attempts on every island of at least 40 cells. Only the overlay
      layer changes, and only by stamping the meandered successful walks. */
  method GenRivers(m: GameMap, h: array2<int>, highlands: bool, rainfall: int, attempts: nat)
    returns (ghost walks: seq<seq<Loc>>)
    requires m.Valid() && h.Length0 == m.width && h.Length1 == m.height
    requires |m.islands| == 0 ==> m.width <= m.height
    requires IslandsOnGrid(m.Snapshot(), m.islands)
    modifies m
    ensures m.Valid() && m.layer1 == StampAll(old(m.layer1), MeanderAll(walks))
    ensures m.layer0 == old(m.layer0) && m.width == old(m.width) && m.height == old(m.height)
    ensures m.startLoc == old(m.startLoc) && m.posAt == old(m.posAt)
    ensures old(m.islands) != [] ==> m.islands == old(m.islands) && m.playableIslands == old(m.playableIslands)
    ensures old(m.islands) == [] ==> IslandsOf(old(m.Snapshot()), m.impassable, m.islands)
    ensures IslandsOnGrid(old(m.Snapshot()), m.islands)
    ensures Outcome(old(m.Snapshot()), h, highlands, RiverIslandCells(m.islands), walks)
  {
    IslandsFirst(m);
    walks := RiversOnIslands(m, h, highlands, rainfall, attempts, m.Snapshot());
  }
}
