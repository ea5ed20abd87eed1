/** Island discovery of `GameMapGenerator`: the recursive flood fill
    `find_island_boundaries`, the row-major scan `define_islands` that sorts
    what it finds, the single-landmass variant `define_landmass` used for
    highlands, and the bounding box `find_island_min_max`. */
module Islands {
  import opened Tiles
  import opened TileMap
  import opened Sorting

  ghost function Cells(b: Board): set<Loc> {
    set x, y | 0 <= x < b.width && 0 <= y < b.height :: (x, y)
  }

  /** The moves the flood fill tries from `a`: left, right and up within the
      grid, and down only while `a.1 < width - 1` (the row bound is checked
      against the width, as the source does). */
  predicate Steps(width: int, a: Loc, n: Loc) {
    (n == (a.0 - 1, a.1) && a.0 > 0) ||
    (n == (a.0 + 1, a.1) && a.0 < width - 1) ||
    (n == (a.0, a.1 - 1) && a.1 > 0) ||
    (n == (a.0, a.1 + 1) && a.1 < width - 1)
  }

  /** On a square map the flood fill's moves are exactly the 4-neighbours inside the grid. */
  lemma StepsOnSquare(b: Board, a: Loc, n: Loc)
    requires b.width == b.height && b.InGrid(a)
    ensures Steps(b.width, a, n) <==> Adjacent(a, n) && b.InGrid(n)
  {
  }

  predicate Distinct<T(==)>(s: seq<T>) {
    forall i, j :: 0 <= i < j < |s| ==> s[i] != s[j]
  }

  /** Every cell after the first touches an earlier one. */
  ghost predicate Linked(s: seq<Loc>) {
    forall k :: 0 < k < |s| ==> TouchesEarlier(s, k)
  }

  ghost predicate TouchesEarlier(s: seq<Loc>, k: int)
    requires 0 <= k < |s|
  {
    exists j :: 0 <= j < k && Adjacent(s[j], s[k])
  }

  /** The cells can be listed so that each touches an earlier one: they form
      one 4-connected region. */
  ghost predicate Connected(cells: seq<Loc>) {
    exists order :: Linked(order) && multiset(order) == multiset(cells)
  }

  /** Appending a cell that touches the list keeps it linked. */
  lemma LinkedAppend(s: seq<Loc>, c: Loc)
    requires Linked(s)
    requires s != [] ==> exists j :: 0 <= j < |s| && Adjacent(s[j], c)
    ensures Linked(s + [c])
  {
    var t := s + [c];
    forall k | 0 < k < |t|
      ensures TouchesEarlier(t, k)
    {
      if k < |s| {
        assert TouchesEarlier(s, k);
        var j :| 0 <= j < k && Adjacent(s[j], s[k]);
        assert t[j] == s[j] && t[k] == s[k];
      } else {
        var j :| 0 <= j < |s| && Adjacent(s[j], c);
        assert t[j] == s[j] && t[k] == c;
      }
    }
  }

  /** The order `define_islands` sorts an island's tiles into: by row, and
      within a row from right to left (key `(y, -x)`). */
  predicate TileOrder(a: Loc, b: Loc) {
    a.1 < b.1 || (a.1 == b.1 && a.0 >= b.0)
  }

  /** The order `define_landmass` collects tiles in: rows top to bottom, each left to right. */
  predicate RowMajor(a: Loc, b: Loc) {
    a.1 < b.1 || (a.1 == b.1 && a.0 <= b.0)
  }

  lemma TileOrderIsTotal()
    ensures Total(TileOrder) && Transitive(TileOrder)
  {
  }

  /** One flood-fill step went from (`v`, `isl`) to (`v'`, `isl'`): the
      visited set only grew, the island list only got appended to, and the
      appended cells are exactly the newly visited passable ones. */
  ghost predicate Extends(b: Board, imp: set<Tile>, v: set<Loc>, isl: seq<Loc>, v': set<Loc>, isl': seq<Loc>)
    requires b.Valid()
  {
    v <= v' <= Cells(b) &&
    |isl| <= |isl'| && isl'[..|isl|] == isl &&
    (forall k :: |isl| <= k < |isl'| ==> isl'[k] !in v && isl'[k] in v' && b.Passable(isl'[k], imp)) &&
    (forall c :: c in v' && c !in v && b.Passable(c, imp) ==> c in isl'[|isl|..])
  }

  /** Every move from an island cell at index `from` or later to a passable cell ends in a visited one. */
  ghost predicate ClosedFrom(b: Board, imp: set<Tile>, isl: seq<Loc>, from: int, v: set<Loc>)
    requires b.Valid()
  {
    forall k, n :: 0 <= from <= k < |isl| && Steps(b.width, isl[k], n) && b.Passable(n, imp) ==> n in v
  }

  /** A whole flood-fill call: an extension whose appended cells are closed under moves. */
  ghost predicate Grew(b: Board, imp: set<Tile>, v: set<Loc>, isl: seq<Loc>, v': set<Loc>, isl': seq<Loc>)
    requires b.Valid()
  {
    Extends(b, imp, v, isl, v', isl') && ClosedFrom(b, imp, isl', |isl|, v')
  }

  lemma GrewRefl(b: Board, imp: set<Tile>, v: set<Loc>, isl: seq<Loc>)
    requires b.Valid() && v <= Cells(b)
    ensures Grew(b, imp, v, isl, v, isl)
  {
  }

  /** An extension closed from index `m` on, followed by a whole call, is
      again an extension closed from `m` on. */
  lemma {:induction false} Chain(b: Board, imp: set<Tile>, v0: set<Loc>, i0: seq<Loc>,
                                 v1: set<Loc>, i1: seq<Loc>, v2: set<Loc>, i2: seq<Loc>, m: int)
    requires b.Valid() && |i0| <= m <= |i1|
    requires Extends(b, imp, v0, i0, v1, i1) && ClosedFrom(b, imp, i1, m, v1)
    requires Grew(b, imp, v1, i1, v2, i2)
    ensures Extends(b, imp, v0, i0, v2, i2) && ClosedFrom(b, imp, i2, m, v2)
  {
    assert i2[..|i1|] == i1;
    assert i2[..|i0|] == i0 by {
      assert i2[..|i0|] == i2[..|i1|][..|i0|];
    }
    forall k | 0 <= k < |i1|
      ensures i2[k] == i1[k]
    {
      assert i2[k] == i2[..|i1|][k];
    }
    forall c | c in v2 && c !in v0 && b.Passable(c, imp)
      ensures c in i2[|i0|..]
    {
      if c in v1 {
        assert c in i1[|i0|..];
        var k :| |i0| <= k < |i1| && i1[k] == c by {
          var j :| 0 <= j < |i1[|i0|..]| && i1[|i0|..][j] == c;
          assert i1[|i0| + j] == c;
        }
        assert i2[k] == c;
        assert i2[|i0|..][k - |i0|] == c;
      } else {
        assert c in i2[|i1|..];
        var j :| 0 <= j < |i2[|i1|..]| && i2[|i1|..][j] == c;
        assert i2[|i1| + j] == c;
        assert i2[|i0|..][|i1| + j - |i0|] == c;
      }
    }
  }

  /** `find_island_boundaries`: marks `loc` visited and, when it is passable
      and new, appends it to the island and spreads to each move whose cell
      is passable and not yet visited. */
  method FindIslandBoundaries(b: Board, imp: set<Tile>, visited: set<Loc>, island: seq<Loc>, loc: Loc)
    returns (visited': set<Loc>, island': seq<Loc>)
    requires b.Valid() && b.width <= b.height && b.InGrid(loc)
    requires visited <= Cells(b)
    requires Distinct(island) && (forall c :: c in island ==> c in visited) && Linked(island)
    requires island != [] ==> exists j :: 0 <= j < |island| && Adjacent(island[j], loc)
    ensures Grew(b, imp, visited, island, visited', island')
    ensures Distinct(island') && (forall c :: c in island' ==> c in visited') && Linked(island')
    ensures loc in visited'
    decreases Cells(b) - visited, 0
  {
    if loc in visited {
      GrewRefl(b, imp, visited, island);
      return visited, island;
    }
    visited' := visited + {loc};
    island' := island;
    if b.Ground(loc) in imp {
      return;
    }
    // `loc` is not yet visited and every island cell is, so the source's
    // "already in this island" guard never fires.
    island' := island + [loc];
    LinkedAppend(island, loc);
    assert Extends(b, imp, visited, island, visited', island') by {
      assert island'[|island|..] == [loc];
    }
    visited', island' := Spread(b, imp, visited, island, visited', island', loc);
  }

  /** The four guarded recursive calls that follow appending `loc`, in the
      source's order: left, right, up, down. */
  method Spread(b: Board, imp: set<Tile>, visited: set<Loc>, island: seq<Loc>,
                v0: set<Loc>, i0: seq<Loc>, loc: Loc)
    returns (visited': set<Loc>, island': seq<Loc>)
    requires b.Valid() && b.width <= b.height && b.InGrid(loc)
    requires loc !in visited && v0 == visited + {loc} && i0 == island + [loc]
    requires Extends(b, imp, visited, island, v0, i0)
    requires Distinct(i0) && (forall c :: c in i0 ==> c in v0) && Linked(i0)
    ensures Grew(b, imp, visited, island, visited', island')
    ensures Distinct(island') && (forall c :: c in island' ==> c in visited') && Linked(island')
    ensures loc in visited'
    decreases Cells(b) - v0, 2
  {
    var x, y := loc.0, loc.1;
    visited', island' := v0, i0;
    if x > 0 {
      visited', island' := Visit(b, imp, visited, island, visited', island', loc, (x - 1, y));
    }
    ghost var r1 := visited';
    if x < b.width - 1 {
      visited', island' := Visit(b, imp, visited, island, visited', island', loc, (x + 1, y));
    }
    ghost var r2 := visited';
    if y > 0 {
      visited', island' := Visit(b, imp, visited, island, visited', island', loc, (x, y - 1));
    }
    ghost var r3 := visited';
    if y < b.width - 1 {
      visited', island' := Visit(b, imp, visited, island, visited', island', loc, (x, y + 1));
    }
    assert r1 <= r2 <= r3 <= visited';
    assert ClosedFrom(b, imp, island', |island|, visited') by {
      forall n | Steps(b.width, loc, n) && b.Passable(n, imp)
        ensures n in visited'
      {
      }
    }
  }

  /** One guarded recursive call of `find_island_boundaries`, from the island
      cell `from` (appended at index `|island|`) to the cell `n` one move
      away; (`vc`, `ic`) is the state reached so far. */
  method Visit(b: Board, imp: set<Tile>, visited: set<Loc>, island: seq<Loc>,
               vc: set<Loc>, ic: seq<Loc>, from: Loc, n: Loc)
    returns (visited': set<Loc>, island': seq<Loc>)
    requires b.Valid() && b.width <= b.height && b.InGrid(from) && Steps(b.width, from, n)
    requires |island| < |ic| && ic[|island|] == from
    requires Extends(b, imp, visited, island, vc, ic) && ClosedFrom(b, imp, ic, |island| + 1, vc)
    requires Distinct(ic) && (forall c :: c in ic ==> c in vc) && Linked(ic)
    ensures Extends(b, imp, visited, island, visited', island') && ClosedFrom(b, imp, island', |island| + 1, visited')
    ensures |ic| <= |island'| && island'[..|ic|] == ic && vc <= visited'
    ensures Distinct(island') && (forall c :: c in island' ==> c in visited') && Linked(island')
    ensures b.Passable(n, imp) ==> n in visited'
    decreases Cells(b) - vc, 1
  {
    if b.Ground(n) !in imp && n !in vc {
      visited', island' := FindIslandBoundaries(b, imp, vc, ic, n);
      Chain(b, imp, visited, island, vc, ic, visited', island', |island| + 1);
    } else {
      visited', island' := vc, ic;
    }
  }
}

module IslandScan {
  import opened Tiles
  import opened TileMap
  import opened Sorting
  import opened Islands

  /** All cells of a list of islands, with multiplicity. */
  function Flat(s: seq<seq<Loc>>): multiset<Loc> {
    if s == [] then multiset{} else multiset(s[0]) + Flat(s[1..])
  }

  lemma {:induction false} FlatAppend(s: seq<seq<Loc>>, t: seq<seq<Loc>>)
    ensures Flat(s + t) == Flat(s) + Flat(t)
  {
    if s != [] {
      assert (s + t)[1..] == s[1..] + t;
      FlatAppend(s[1..], t);
    } else {
      assert s + t == t;
    }
  }

  lemma MultisetCancel<T>(a: multiset<T>, b: multiset<T>, x: T)
    requires a + multiset{x} == b + multiset{x}
    ensures a == b
  {
    forall y ensures a[y] == b[y] {
      assert (a + multiset{x})[y] == (b + multiset{x})[y];
    }
  }

  /** Taking out the island at index `k`. */
  lemma {:induction false} RemoveAt(t: seq<seq<Loc>>, k: int)
    requires 0 <= k < |t|
    ensures multiset(t) == multiset(t[..k] + t[k + 1..]) + multiset{t[k]}
    ensures Flat(t) == Flat(t[..k] + t[k + 1..]) + multiset(t[k])
  {
    assert t == t[..k] + ([t[k]] + t[k + 1..]);
    FlatAppend(t[..k], [t[k]] + t[k + 1..]);
    FlatAppend([t[k]], t[k + 1..]);
    FlatAppend(t[..k], t[k + 1..]);
    assert ([t[k]] + t[k + 1..])[1..] == t[k + 1..];
    assert Flat([t[k]]) == multiset(t[k]);
  }

  /** Reordering the islands does not change the cells they hold. */
  lemma {:induction false} FlatPerm(s: seq<seq<Loc>>, t: seq<seq<Loc>>)
    requires multiset(s) == multiset(t)
    ensures Flat(s) == Flat(t)
    decreases |s|
  {
    if s != [] {
      assert s[0] in multiset(t);
      var k :| 0 <= k < |t| && t[k] == s[0];
      var rest := t[..k] + t[k + 1..];
      RemoveAt(t, k);
      assert s == [s[0]] + s[1..];
      assert multiset(s) == multiset(s[1..]) + multiset{s[0]};
      MultisetCancel(multiset(s[1..]), multiset(rest), s[0]);
      FlatPerm(s[1..], rest);
    }
  }

  lemma {:induction false} FlatHolds(s: seq<seq<Loc>>, i: int, c: Loc)
    requires 0 <= i < |s|
    ensures Flat(s)[c] >= multiset(s[i])[c]
  {
    if i > 0 {
      FlatHolds(s[1..], i - 1, c);
      assert s[1..][i - 1] == s[i];
    }
  }

  lemma {:induction false} FlatTwice(s: seq<seq<Loc>>, i: int, j: int, c: Loc)
    requires 0 <= i < j < |s| && c in s[i] && c in s[j]
    ensures Flat(s)[c] >= 2
  {
    if i == 0 {
      FlatHolds(s[1..], j - 1, c);
      assert s[1..][j - 1] == s[j];
    } else {
      FlatTwice(s[1..], i - 1, j - 1, c);
      assert s[1..][i - 1] == s[i] && s[1..][j - 1] == s[j];
    }
  }

  lemma {:induction false} FlatMember(s: seq<seq<Loc>>, c: Loc)
    requires Flat(s)[c] > 0
    ensures exists i :: 0 <= i < |s| && c in s[i]
  {
    if c !in s[0] {
      FlatMember(s[1..], c);
      var i :| 0 <= i < |s[1..]| && c in s[1..][i];
      assert s[i + 1] == s[1..][i];
    }
  }

  lemma {:induction false} DistinctCount(s: seq<Loc>, c: Loc)
    requires Distinct(s)
    ensures multiset(s)[c] == if c in s then 1 else 0
  {
    if s != [] {
      assert s == [s[0]] + s[1..];
      DistinctCount(s[1..], c);
      assert s[0] !in s[1..];
    }
  }

  /** Every passable cell lies in exactly one island and no other cell lies in any. */
  ghost predicate Partition(b: Board, imp: set<Tile>, s: seq<seq<Loc>>)
    requires b.Valid()
  {
    forall c :: Flat(s)[c] == if b.Passable(c, imp) then 1 else 0
  }

  lemma PartitionDisjoint(b: Board, imp: set<Tile>, s: seq<seq<Loc>>, i: int, j: int, c: Loc)
    requires b.Valid() && Partition(b, imp, s)
    requires 0 <= i < |s| && 0 <= j < |s| && i != j && c in s[i]
    ensures c !in s[j]
  {
    if c in s[j] {
      if i < j { FlatTwice(s, i, j, c); } else { FlatTwice(s, j, i, c); }
    }
  }

  lemma PartitionCovers(b: Board, imp: set<Tile>, s: seq<seq<Loc>>, c: Loc)
    requires b.Valid() && Partition(b, imp, s)
    ensures b.Passable(c, imp) <==> exists i :: 0 <= i < |s| && c in s[i]
  {
    if b.Passable(c, imp) {
      FlatMember(s, c);
    } else if exists i :: 0 <= i < |s| && c in s[i] {
      var i :| 0 <= i < |s| && c in s[i];
      FlatHolds(s, i, c);
    }
  }

  /** A passable 4-neighbour of an island cell is in the same island. */
  ghost predicate Closed(b: Board, imp: set<Tile>, s: seq<seq<Loc>>)
    requires b.Valid()
  {
    forall i, c, n :: 0 <= i < |s| && c in s[i] && Adjacent(c, n) && b.Passable(n, imp) ==> n in s[i]
  }

  /** What `define_islands` promises of its island list. On a square map each
      island is also closed under 4-neighbours, so the islands are exactly the
      4-connected passable regions. */
  ghost predicate IslandsOf(b: Board, imp: set<Tile>, s: seq<seq<Loc>>)
    requires b.Valid()
  {
    Partition(b, imp, s) &&
    (forall i :: 0 <= i < |s| ==> |s[i]| > 0 && Connected(s[i]) && SortedBy(s[i], TileOrder)) &&
    (b.width == b.height ==> Closed(b, imp, s))
  }

  lemma {:induction false} IslandsOfPerm(b: Board, imp: set<Tile>, s: seq<seq<Loc>>, t: seq<seq<Loc>>)
    requires b.Valid() && IslandsOf(b, imp, s) && multiset(s) == multiset(t)
    ensures IslandsOf(b, imp, t)
  {
    FlatPerm(s, t);
    forall i | 0 <= i < |t|
      ensures exists j :: 0 <= j < |s| && s[j] == t[i]
    {
      assert t[i] in multiset(t);
      assert t[i] in multiset(s);
    }
  }

  /** The islands found so far from the cells in `visited`, with the order each was discovered in. */
  ghost predicate Found(b: Board, imp: set<Tile>, visited: set<Loc>, islands: seq<seq<Loc>>, orders: seq<seq<Loc>>)
    requires b.Valid()
  {
    visited <= Cells(b) && |orders| == |islands| &&
    (forall i :: 0 <= i < |islands| ==>
       |islands[i]| > 0 && Linked(orders[i]) && multiset(orders[i]) == multiset(islands[i]) &&
       SortedBy(islands[i], TileOrder)) &&
    (forall c :: Flat(islands)[c] == if c in visited && b.Passable(c, imp) then 1 else 0) &&
    (b.width == b.height ==> Closed(b, imp, islands))
  }

  lemma AddIsland(b: Board, imp: set<Tile>, visited: set<Loc>, islands: seq<seq<Loc>>,
                  orders: seq<seq<Loc>>, v': set<Loc>, tiles: seq<Loc>, loc: Loc)
    requires b.Valid() && Found(b, imp, visited, islands, orders)
    requires Grew(b, imp, visited, [], v', tiles) && Distinct(tiles) && Linked(tiles)
    requires loc in tiles
    ensures Found(b, imp, v', islands + [Sort(tiles, TileOrder)], orders + [tiles])
  {
    TileOrderIsTotal();
    AddIslandCounts(b, imp, visited, islands, orders, v', tiles);
    AddIslandShapes(b, imp, visited, islands, orders, v', tiles, loc);
    if b.width == b.height {
      AddIslandClosed(b, imp, visited, islands, orders, v', tiles);
    }
  }

  lemma {:induction false} AddIslandCounts(b: Board, imp: set<Tile>, visited: set<Loc>, islands: seq<seq<Loc>>,
                                           orders: seq<seq<Loc>>, v': set<Loc>, tiles: seq<Loc>)
    requires b.Valid() && Found(b, imp, visited, islands, orders)
    requires Grew(b, imp, visited, [], v', tiles) && Distinct(tiles)
    requires Total(TileOrder) && Transitive(TileOrder)
    ensures forall c :: Flat(islands + [Sort(tiles, TileOrder)])[c] == if c in v' && b.Passable(c, imp) then 1 else 0
  {
    var st := Sort(tiles, TileOrder);
    FlatAppend(islands, [st]);
    assert Flat([st]) == multiset(st);
    forall c
      ensures Flat(islands + [st])[c] == if c in v' && b.Passable(c, imp) then 1 else 0
    {
      DistinctCount(tiles, c);
      assert c in tiles <==> c in tiles[0..];
    }
  }

  lemma {:induction false} AddIslandShapes(b: Board, imp: set<Tile>, visited: set<Loc>, islands: seq<seq<Loc>>,
                                           orders: seq<seq<Loc>>, v': set<Loc>, tiles: seq<Loc>, loc: Loc)
    requires b.Valid() && Found(b, imp, visited, islands, orders)
    requires Linked(tiles) && loc in tiles
    requires Total(TileOrder) && Transitive(TileOrder)
    ensures var islands', orders' := islands + [Sort(tiles, TileOrder)], orders + [tiles];
      forall i :: 0 <= i < |islands'| ==>
        |islands'[i]| > 0 && Linked(orders'[i]) && multiset(orders'[i]) == multiset(islands'[i]) &&
        SortedBy(islands'[i], TileOrder)
  {
    var islands', orders' := islands + [Sort(tiles, TileOrder)], orders + [tiles];
    forall i | 0 <= i < |islands'|
      ensures |islands'[i]| > 0 && Linked(orders'[i]) && multiset(orders'[i]) == multiset(islands'[i]) &&
              SortedBy(islands'[i], TileOrder)
    {
      if i == |islands| {
        assert islands'[i] == Sort(tiles, TileOrder) && orders'[i] == tiles;
      } else {
        assert islands'[i] == islands[i] && orders'[i] == orders[i];
      }
    }
  }

  lemma {:induction false} AddIslandClosed(b: Board, imp: set<Tile>, visited: set<Loc>, islands: seq<seq<Loc>>,
                                           orders: seq<seq<Loc>>, v': set<Loc>, tiles: seq<Loc>)
    requires b.Valid() && b.width == b.height && Found(b, imp, visited, islands, orders)
    requires Grew(b, imp, visited, [], v', tiles)
    requires Total(TileOrder) && Transitive(TileOrder)
    ensures Closed(b, imp, islands + [Sort(tiles, TileOrder)])
  {
    var st := Sort(tiles, TileOrder);
    var islands' := islands + [st];
    forall i, c, n | 0 <= i < |islands'| && c in islands'[i] && Adjacent(c, n) && b.Passable(n, imp)
      ensures n in islands'[i]
    {
      if i < |islands| {
        assert islands'[i] == islands[i];
      } else {
        assert islands'[i] == st;
        NewCellClosed(b, imp, visited, islands, orders, v', tiles, c, n);
        assert n in multiset(st);
      }
    }
  }

  /** A passable neighbour of a newly discovered cell was newly discovered
      too: had it been in an earlier island, that island would hold the cell. */
  lemma {:induction false} NewCellClosed(b: Board, imp: set<Tile>, visited: set<Loc>, islands: seq<seq<Loc>>,
                                         orders: seq<seq<Loc>>, v': set<Loc>, tiles: seq<Loc>, c: Loc, n: Loc)
    requires b.Valid() && b.width == b.height && Found(b, imp, visited, islands, orders)
    requires Grew(b, imp, visited, [], v', tiles)
    requires Total(TileOrder) && Transitive(TileOrder)
    requires c in multiset(Sort(tiles, TileOrder)) && Adjacent(c, n) && b.Passable(n, imp)
    ensures n in tiles
  {
    assert c in tiles;
    var k :| 0 <= k < |tiles| && tiles[k] == c;
    StepsOnSquare(b, c, n);
    assert n in v';
    if n in visited {
      FlatMember(islands, n);
      var j :| 0 <= j < |islands| && n in islands[j];
      assert Adjacent(n, c);
      assert c in islands[j];
      FlatHolds(islands, j, c);
      assert false;
    }
    assert n in tiles[0..];
  }

  /** `[x for x in islands if len(x) > 400]`. */
  function Playable(s: seq<seq<Loc>>): (r: seq<seq<Loc>>)
    ensures forall a :: a in r <==> a in s && |a| > 400
    ensures |r| <= |s|
  {
    if s == [] then []
    else if |s[0]| > 400 then [s[0]] + Playable(s[1..])
    else Playable(s[1..])
  }

  /** Filtering keeps the largest-first order. */
  lemma {:induction false} PlayableLongestFirst(s: seq<seq<Loc>>)
    requires forall i, j :: 0 <= i < j < |s| ==> |s[i]| >= |s[j]|
    ensures forall i, j :: 0 <= i < j < |Playable(s)| ==> |Playable(s)[i]| >= |Playable(s)[j]|
  {
    if s != [] {
      var tail := s[1..];
      PlayableLongestFirst(tail);
      var r := Playable(tail);
      if |s[0]| > 400 {
        assert Playable(s) == [s[0]] + r;
        forall j | 0 <= j < |r| ensures |s[0]| >= |r[j]| {
          assert r[j] in tail;
          var k :| 0 <= k < |tail| && tail[k] == r[j];
          assert s[k + 1] == r[j];
        }
      } else {
        assert Playable(s) == r;
      }
    }
  }

  /** The row-major scan of `define_islands`: every passable cell not yet
      visited starts a flood fill whose tiles, sorted by `(y, -x)`, form one
      island, in order of discovery. */
  method ScanIslands(b: Board, imp: set<Tile>) returns (islands: seq<seq<Loc>>)
    requires b.Valid() && b.width <= b.height
    ensures IslandsOf(b, imp, islands)
  {
    islands := [];
    ghost var orders: seq<seq<Loc>> := [];
    var visited: set<Loc> := {};
    var y := 0;
    while y < b.height
      invariant 0 <= y <= b.height
      invariant Found(b, imp, visited, islands, orders)
      invariant forall yy, xx :: 0 <= yy < y && 0 <= xx < b.width ==> (xx, yy) in visited || !b.Passable((xx, yy), imp)
    {
      var x := 0;
      while x < b.width
        invariant 0 <= x <= b.width
        invariant Found(b, imp, visited, islands, orders)
        invariant forall yy, xx :: 0 <= yy < b.height && 0 <= xx < b.width && (yy < y || (yy == y && xx < x)) ==>
                    (xx, yy) in visited || !b.Passable((xx, yy), imp)
      {
        if (x, y) !in visited && b.Ground((x, y)) !in imp {
          var v', tiles := FindIslandBoundaries(b, imp, visited, [], (x, y));
          assert (x, y) in tiles[0..];
          AddIsland(b, imp, visited, islands, orders, v', tiles, (x, y));
          TileOrderIsTotal();
          islands := islands + [Sort(tiles, TileOrder)];
          orders := orders + [tiles];
          visited := v';
        }
        x := x + 1;
      }
      y := y + 1;
    }
    assert IslandsOf(b, imp, islands) by {
      forall c ensures Flat(islands)[c] == if b.Passable(c, imp) then 1 else 0 {
      }
      forall i | 0 <= i < |islands| ensures Connected(islands[i]) {
        assert Linked(orders[i]) && multiset(orders[i]) == multiset(islands[i]);
      }
    }
  }

  /** `define_islands`: the scanned islands ordered largest first, and those
      of more than 400 cells recorded as the playable ones. */
  method DefineIslands(m: GameMap)
    requires m.Valid() && m.width <= m.height
    modifies m
    ensures m.Valid() && m.layer0 == old(m.layer0) && m.layer1 == old(m.layer1)
    ensures m.width == old(m.width) && m.height == old(m.height)
    ensures m.startLoc == old(m.startLoc) && m.posAt == old(m.posAt)
    ensures IslandsOf(m.Snapshot(), m.impassable, m.islands)
    ensures forall i, j :: 0 <= i < j < |m.islands| ==> |m.islands[i]| >= |m.islands[j]|
    ensures m.playableIslands == Playable(m.islands)
  {
    var islands := ScanIslands(m.Snapshot(), m.impassable);
    var sorted := LongestFirst(islands);
    IslandsOfPerm(m.Snapshot(), m.impassable, islands, sorted);
    m.islands := sorted;
    m.playableIslands := Playable(sorted);
  }

  /** The passable cells of `define_landmass`, collected row by row. */
  method CollectLandmass(b: Board, imp: set<Tile>) returns (island: seq<Loc>)
    requires b.Valid()
    ensures Distinct(island) && SortedBy(island, RowMajor)
    ensures forall c :: c in island <==> b.Passable(c, imp)
  {
    island := [];
    var y := 0;
    while y < b.height
      invariant 0 <= y <= b.height
      invariant Distinct(island) && SortedBy(island, RowMajor)
      invariant forall c :: c in island <==> b.Passable(c, imp) && c.1 < y
    {
      var x := 0;
      while x < b.width
        invariant 0 <= x <= b.width
        invariant Distinct(island) && SortedBy(island, RowMajor)
        invariant forall c :: c in island <==> b.Passable(c, imp) && (c.1 < y || (c.1 == y && c.0 < x))
      {
        if b.Ground((x, y)) !in imp {
          island := island + [(x, y)];
        }
        x := x + 1;
      }
      y := y + 1;
    }
  }

  /** `define_landmass`: one island holding every passable cell, which is also the only playable one. */
  method DefineLandmass(m: GameMap)
    requires m.Valid()
    modifies m
    ensures m.Valid() && m.layer0 == old(m.layer0) && m.layer1 == old(m.layer1)
    ensures m.width == old(m.width) && m.height == old(m.height)
    ensures m.startLoc == old(m.startLoc) && m.posAt == old(m.posAt)
    ensures |m.islands| == 1 && m.playableIslands == m.islands
    ensures Partition(m.Snapshot(), m.impassable, m.islands)
    ensures Distinct(m.islands[0]) && SortedBy(m.islands[0], RowMajor)
  {
    var island := CollectLandmass(m.Snapshot(), m.impassable);
    m.islands := [island];
    m.playableIslands := [island];
    forall c ensures Flat([island])[c] == if m.Snapshot().Passable(c, m.impassable) then 1 else 0 {
      DistinctCount(island, c);
    }
  }

  /** `(min_x, max_x, min_y, max_y)` of `find_island_min_max` over `island`,
      scanned from the front with all four bounds starting at 0. */
  function Box(island: seq<Loc>): (int, int, int, int) {
    if island == [] then (0, 0, 0, 0)
    else
      var b := Box(island[..|island| - 1]);
      var t := island[|island| - 1];
      (if t.0 < b.0 then t.0 else b.0, if t.0 > b.1 then t.0 else b.1,
       if t.1 < b.2 then t.1 else b.2, if t.1 > b.3 then t.1 else b.3)
  }

  /** The box holds every tile, each bound not fixed at 0 is attained by
      some tile, and both minima stay at 0 for tiles on the grid. */
  lemma {:induction false} BoxBounds(island: seq<Loc>)
    ensures var b := Box(island);
      && b.0 <= 0 <= b.1 && b.2 <= 0 <= b.3
      && (forall t :: t in island ==> b.0 <= t.0 <= b.1 && b.2 <= t.1 <= b.3)
      && (b.0 == 0 || exists t :: t in island && t.0 == b.0)
      && (b.1 == 0 || exists t :: t in island && t.0 == b.1)
      && (b.2 == 0 || exists t :: t in island && t.1 == b.2)
      && (b.3 == 0 || exists t :: t in island && t.1 == b.3)
      && ((forall t :: t in island ==> 0 <= t.0 && 0 <= t.1) ==> b.0 == 0 && b.2 == 0)
  {
    if island != [] {
      var init := island[..|island| - 1];
      var t := island[|island| - 1];
      BoxBounds(init);
      assert island == init + [t];
      assert forall u :: u in island <==> u in init || u == t;
    }
  }

  /** `find_island_min_max`: the island's bounding box, except that both
      minima start at 0 rather than at the first tile, so they never exceed 0. */
  method FindIslandMinMax(island: seq<Loc>) returns (minX: int, maxX: int, minY: int, maxY: int)
    ensures (minX, maxX, minY, maxY) == Box(island)
    ensures minX <= 0 <= maxX && minY <= 0 <= maxY
    ensures forall t :: t in island ==> minX <= t.0 <= maxX && minY <= t.1 <= maxY
    ensures minX == 0 || exists t :: t in island && t.0 == minX
    ensures maxX == 0 || exists t :: t in island && t.0 == maxX
    ensures minY == 0 || exists t :: t in island && t.1 == minY
    ensures maxY == 0 || exists t :: t in island && t.1 == maxY
    ensures (forall t :: t in island ==> 0 <= t.0 && 0 <= t.1) ==> minX == 0 && minY == 0
  {
    minX, maxX, minY, maxY := 0, 0, 0, 0;
    var i := 0;
    while i < |island|
      invariant 0 <= i <= |island|
      invariant (minX, maxX, minY, maxY) == Box(island[..i])
    {
      var t := island[i];
      assert island[..i + 1][..i] == island[..i];
      if t.0 < minX { minX := t.0; }
      if t.0 > maxX { maxX := t.0; }
      if t.1 < minY { minY := t.1; }
      if t.1 > maxY { maxY := t.1; }
      i := i + 1;
    }
    assert island[..i] == island;
    BoxBounds(island);
  }

  /** Every cell of every island lies on the grid. */
  ghost predicate IslandsOnGrid(b: Board, islands: seq<seq<Loc>>) {
    forall i, c :: 0 <= i < |islands| && c in islands[i] ==> b.InGrid(c)
  }

  /** A partition of the passable cells lies on the grid. */
  lemma PartitionOnGrid(b: Board, imp: set<Tile>, s: seq<seq<Loc>>)
    requires b.Valid() && Partition(b, imp, s)
    ensures IslandsOnGrid(b, s)
  {
    forall i, c | 0 <= i < |s| && c in s[i] ensures b.InGrid(c) {
      PartitionCovers(b, imp, s, c);
    }
  }

  /** Only the board's size matters for staying on it. */
  lemma OnGridSameSize(b: Board, b': Board, s: seq<seq<Loc>>)
    requires IslandsOnGrid(b, s) && b'.width == b.width && b'.height == b.height
    ensures IslandsOnGrid(b', s)
  {
    forall i, c | 0 <= i < |s| && c in s[i] ensures b'.InGrid(c) {
      assert b.InGrid(c);
    }
  }

  /** The islands the feature generators work on: those already defined, or
      else the result of `define_islands` (`if len(self.map.islands) == 0`). */
  method IslandsFirst(m: GameMap)
    requires m.Valid() && (|m.islands| == 0 ==> m.width <= m.height)
    requires IslandsOnGrid(m.Snapshot(), m.islands)
    modifies m
    ensures m.Valid() && m.layer0 == old(m.layer0) && m.layer1 == old(m.layer1)
    ensures m.width == old(m.width) && m.height == old(m.height)
    ensures m.startLoc == old(m.startLoc) && m.posAt == old(m.posAt)
    ensures old(m.islands) != [] ==> m.islands == old(m.islands) && m.playableIslands == old(m.playableIslands)
    ensures old(m.islands) == [] ==> IslandsOf(m.Snapshot(), m.impassable, m.islands)
    ensures IslandsOnGrid(m.Snapshot(), m.islands)
  {
    if |m.islands| == 0 {
      DefineIslands(m);
      PartitionOnGrid(m.Snapshot(), m.impassable, m.islands);
    }
  }
}
