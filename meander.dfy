/** `GameMapGenerator.meander_river`: scans a river's cells for the first
    straight stretch of five equal moves and replaces the four cells before
    its end by a fixed eight-cell wiggle. */
module Meander {
  import opened Tiles
  import opened Wrappers

  datatype Heading = NoMove | Up | Down | Left | Right

  /** The move from `prev` to `cur`. The source tests y first and x last, so a
      horizontal difference decides over a vertical one. */
  function Move(prev: Loc, cur: Loc): (d: Heading)
    ensures d == NoMove <==> prev == cur
    ensures d == Right <==> cur.0 > prev.0
    ensures d == Left <==> cur.0 < prev.0
    ensures d == Down <==> cur.0 == prev.0 && cur.1 > prev.1
    ensures d == Up <==> cur.0 == prev.0 && cur.1 < prev.1
  {
    if cur.0 > prev.0 then Right
    else if cur.0 < prev.0 then Left
    else if cur.1 > prev.1 then Down
    else if cur.1 < prev.1 then Up
    else NoMove
  }

  function MoveAt(rs: seq<Loc>, k: int): Heading
    requires 1 <= k < |rs|
  {
    Move(rs[k - 1], rs[k])
  }

  /** How many equal real moves in a row end with the move into `rs[k]`. */
  function Run(rs: seq<Loc>, k: int): (n: nat)
    requires 1 <= k < |rs|
    ensures n <= k
    ensures n == 0 <==> MoveAt(rs, k) == NoMove
  {
    if MoveAt(rs, k) == NoMove then 0
    else if k > 1 && MoveAt(rs, k - 1) == MoveAt(rs, k) then Run(rs, k - 1) + 1
    else 1
  }

  /** The first index from `k` on where a run of five equal moves ends. */
  function FirstStraight(rs: seq<Loc>, k: int): (c: Option<int>)
    requires 1 <= k <= |rs|
    ensures c.Some? ==> k <= c.value < |rs| && Run(rs, c.value) == 5
    ensures c.Some? ==> forall j :: k <= j < c.value ==> Run(rs, j) != 5
    ensures c.None? <==> forall j :: k <= j < |rs| ==> Run(rs, j) != 5
    decreases |rs| - k
  {
    if k == |rs| then None
    else if Run(rs, k) == 5 then Some(k)
    else FirstStraight(rs, k + 1)
  }

  lemma {:induction false} FirstStraightIs(rs: seq<Loc>, k: int, c: int)
    requires 1 <= k <= c < |rs| && Run(rs, c) == 5
    requires forall j :: k <= j < c ==> Run(rs, j) != 5
    ensures FirstStraight(rs, k) == Some(c)
    decreases c - k
  {
    if k < c {
      FirstStraightIs(rs, k + 1, c);
    }
  }

  /** Chebyshev distance at most one. */
  predicate Near(a: Loc, b: Loc) {
    -1 <= a.0 - b.0 <= 1 && -1 <= a.1 - b.1 <= 1
  }

  /** Which cell of the stretch the `i`-th cell of the wiggle is placed beside. */
  function WiggleSource(i: nat): nat {
    if i <= 1 then 0 else if i <= 4 then 1 else if i == 5 then 2 else 3
  }

  /** The replacement for the four cells `run` of a straight stretch heading `d`. */
  function Perturbed(run: seq<Loc>, d: Heading): (r: seq<Loc>)
    requires |run| == 4
    ensures |r| == 8
    ensures forall i :: 0 <= i < 8 ==> WiggleSource(i) < 4 && Near(r[i], run[WiggleSource(i)])
  {
    if d == Up || d == Down then
      [(run[0].0 - 1, run[0].1 - 1), (run[0].0 - 1, run[0].1), (run[1].0 - 1, run[1].1),
       run[1], (run[1].0 + 1, run[1].1), (run[2].0 + 1, run[2].1), (run[3].0 + 1, run[3].1), run[3]]
    else
      [(run[0].0 - 1, run[0].1 - 1), (run[0].0, run[0].1 - 1), (run[1].0, run[1].1 - 1),
       run[1], (run[1].0, run[1].1 + 1), (run[2].0, run[2].1 + 1), (run[3].0, run[3].1 + 1), run[3]]
  }

  /** `[loc for loc in rs if loc not in run]`. */
  function Without(rs: seq<Loc>, run: seq<Loc>): (r: seq<Loc>)
    ensures forall c :: c in r <==> c in rs && c !in run
    ensures |r| <= |rs|
  {
    if rs == [] then []
    else if rs[0] in run then Without(rs[1..], run)
    else [rs[0]] + Without(rs[1..], run)
  }

  /** The meandered river: unchanged without a straight stretch, otherwise
      the four cells before the end of the first stretch make way for the
      eight-cell wiggle appended at the end. A river of at most one cell is
      returned unchanged. */
  function Meandered(rs: seq<Loc>): (r: seq<Loc>)
    ensures (|rs| <= 1 || FirstStraight(rs, 1).None?) ==> r == rs
    ensures r != rs ==> 8 <= |r| <= |rs| + 8
  {
    if |rs| <= 1 then rs
    else match FirstStraight(rs, 1)
      case None => rs
      case Some(c) =>
        assert c >= 5;
        Without(rs, rs[c - 4..c]) + Perturbed(rs[c - 4..c], MoveAt(rs, c))
  }

  /** The scan loop of `meander_river`, for a river of more than one cell. */
  method ScanMeander(rs: seq<Loc>) returns (r: seq<Loc>)
    requires |rs| > 1
    ensures r == Meandered(rs)
  {
    var lastDir := NoMove;
    var count := 0;
    var straight := 0;
    while count < |rs|
      invariant 0 <= count <= |rs|
      invariant count <= 1 ==> lastDir == NoMove && straight == 0
      invariant count >= 2 ==> lastDir == MoveAt(rs, count - 1) &&
                               straight == if Run(rs, count - 1) == 0 then 0 else Run(rs, count - 1) - 1
      invariant forall j :: 1 <= j < count ==> Run(rs, j) != 5
    {
      var loc := rs[count];
      if count > 0 {
        var prev := rs[count - 1];
        var dir := NoMove;
        if loc.1 < prev.1 { dir := Up; }
        if loc.1 > prev.1 { dir := Down; }
        if loc.0 < prev.0 { dir := Left; }
        if loc.0 > prev.0 { dir := Right; }
        assert dir == MoveAt(rs, count);
        if lastDir != NoMove && dir == lastDir {
          straight := straight + 1;
          if straight == 4 {
            var oldLocs := rs[count - 4..count];
            FirstStraightIs(rs, 1, count);
            return Without(rs, oldLocs) + Perturbed(oldLocs, dir);
          }
        } else {
          straight := 0;
          lastDir := dir;
        }
      }
      count := count + 1;
    }
    return rs;
  }

  /** `meander_river` as written: a river of one cell (or none) falls through
      every branch and yields None. */
  method MeanderRiver(rs: seq<Loc>) returns (r: Option<seq<Loc>>)
    ensures |rs| <= 1 ==> r == None
    ensures |rs| > 1 ==> r == Some(Meandered(rs))
  {
    if |rs| > 1 {
      var m := ScanMeander(rs);
      return Some(m);
    }
    return None;
  }

  /** `meander_river` as evidently intended: a short river comes back unchanged. */
  method MeanderRiverFixed(rs: seq<Loc>) returns (r: seq<Loc>)
    ensures r == Meandered(rs)
    ensures |rs| <= 1 ==> r == rs
  {
    if |rs| > 1 {
      r := ScanMeander(rs);
    } else {
      r := rs;
    }
  }

  /** Without a stretch of five equal moves the river is left as it is. */
  lemma NoStraightUnchanged(rs: seq<Loc>)
    requires forall k :: 1 <= k < |rs| ==> Run(rs, k) < 5
    ensures Meandered(rs) == rs
  {
  }

  /** A cell of the river outside the replaced stretch is kept. */
  lemma {:induction false} MeanderKeeps(rs: seq<Loc>, cell: Loc)
    requires cell in rs
    ensures var r := Meandered(rs);
      cell in r || exists c :: 5 <= c < |rs| && FirstStraight(rs, 1) == Some(c) && cell in rs[c - 4..c]
  {
  }

  /** Every cell of the meandered river is a river cell or touches one, diagonals included. */
  lemma {:induction false} MeanderStaysNear(rs: seq<Loc>, cell: Loc)
    requires cell in Meandered(rs)
    ensures exists j :: 0 <= j < |rs| && Near(cell, rs[j])
  {
    if |rs| <= 1 || FirstStraight(rs, 1).None? {
      assert Meandered(rs) == rs;
      InRiverNear(rs, cell);
    } else {
      var c := FirstStraight(rs, 1).value;
      assert c >= 5 by { assert Run(rs, c) == 5; }
      var run := rs[c - 4..c];
      var w, p := Without(rs, run), Perturbed(run, MoveAt(rs, c));
      assert Meandered(rs) == w + p;
      if cell in w {
        InRiverNear(rs, cell);
      } else {
        assert cell in p;
        WiggleNear(rs, c, MoveAt(rs, c), cell);
      }
    }
  }

  /** A cell of the river is beside itself. */
  lemma InRiverNear(rs: seq<Loc>, cell: Loc)
    requires cell in rs
    ensures exists j :: 0 <= j < |rs| && Near(cell, rs[j])
  {
    var j :| 0 <= j < |rs| && rs[j] == cell;
    assert Near(cell, rs[j]);
  }

  /** A cell of the wiggle replacing `rs[c - 4..c]` is beside one of those four. */
  lemma WiggleNear(rs: seq<Loc>, c: int, d: Heading, cell: Loc)
    requires 4 <= c <= |rs| && cell in Perturbed(rs[c - 4..c], d)
    ensures exists j :: 0 <= j < |rs| && Near(cell, rs[j])
  {
    var run := rs[c - 4..c];
    var p := Perturbed(run, d);
    var i :| 0 <= i < 8 && p[i] == cell;
    var src := WiggleSource(i);
    assert Near(cell, run[src]);
    assert run[src] == rs[c - 4 + src];
  }
}
