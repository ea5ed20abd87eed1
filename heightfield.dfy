/** The raw height-field operations of `MainGenerator` (generators.py).

    A pygame surface is modelled as an `array2<int>` indexed `[x, y]`, with
    `Length0` the width and `Length1` the height. Every pixel the generators
    write is grey (red = green = blue), so a pixel is held as that one value and
    `averageRGB` of a pixel is the value itself (`AverageOfGrey`). */
module HeightField {
  import opened Wrappers

  /** Every pixel is a colour channel value, 0..255. */
  predicate InByteRange(s: array2<int>)
    reads s
  {
    forall x, y :: 0 <= x < s.Length0 && 0 <= y < s.Length1 ==> 0 <= s[x, y] <= 255
  }

  // ---------------------------------------------------------------------------
  // Python's numeric conversions

  /** Python's `int()` on a float: truncation toward zero. */
  function Trunc(r: real): (t: int)
    ensures 0.0 <= r ==> t as real <= r < t as real + 1.0
    ensures r < 0.0 ==> t as real - 1.0 < r <= t as real
  {
    if r >= 0.0 then r.Floor else -((-r).Floor)
  }

  /** Python 2's `round()`: to the nearest integer, halves away from zero. */
  function RoundHalfAway(r: real): (t: int)
    ensures 0.0 <= r ==> 0 <= t && r - 0.5 < t as real <= r + 0.5
    ensures r < 0.0 ==> t <= 0 && r - 0.5 <= t as real < r + 0.5
  {
    if r >= 0.0 then (r + 0.5).Floor else -((-r + 0.5).Floor)
  }

  function Clamp(v: int, lo: int, hi: int): (c: int)
    requires lo <= hi
    ensures lo <= c <= hi
    ensures lo <= v <= hi ==> c == v
  {
    if v < lo then lo else if v > hi then hi else v
  }

  lemma TruncMonotone(a: real, b: real)
    requires a <= b
    ensures Trunc(a) <= Trunc(b)
  {
  }

  // ---------------------------------------------------------------------------
  // averageRGB and contrast

  /** `averageRGB` (generators.py:194-196): the floored mean of the channels. */
  function AverageRGB(r: int, g: int, b: int): (v: int)
    ensures r == g == b ==> v == r
    ensures r <= g <= b ==> r <= v <= b
  {
    (r + g + b) / 3
  }

  /** The new value `increase_contrast` gives a pixel of value `value`. */
  function Contrast(value: int, factor: real, brightness: int): (v: int)
    ensures 0 <= v <= 255
  {
    Clamp(Trunc(factor * (value - 128) as real + 128.0 + brightness as real), 0, 255)
  }

  /** With a non-negative factor the contrast map keeps the order of pixels. */
  lemma ContrastMonotone(a: int, b: int, factor: real, brightness: int)
    requires a <= b && 0.0 <= factor
    ensures Contrast(a, factor, brightness) <= Contrast(b, factor, brightness)
  {
    assert factor * (a - 128) as real <= factor * (b - 128) as real by {
      assert factor * (b - 128) as real - factor * (a - 128) as real == factor * (b - a) as real;
    }
    TruncMonotone(factor * (a - 128) as real + 128.0 + brightness as real,
                  factor * (b - 128) as real + 128.0 + brightness as real);
  }

  /** Factor 1 and brightness 0 leave every channel value as it was. */
  lemma ContrastIdentity(v: int)
    requires 0 <= v <= 255
    ensures Contrast(v, 1.0, 0) == v
  {
    assert 1.0 * (v - 128) as real + 128.0 + 0 as real == v as real;
  }

  /** `increase_contrast` (generators.py:176-192), in place. */
  method IncreaseContrast(s: array2<int>, factor: real, brightness: int)
    modifies s
    ensures forall x, y :: 0 <= x < s.Length0 && 0 <= y < s.Length1 ==>
              s[x, y] == Contrast(old(s[x, y]), factor, brightness)
    ensures InByteRange(s)
  {
    var y := 0;
    while y < s.Length1
      invariant 0 <= y <= s.Length1
      invariant forall i, j :: 0 <= i < s.Length0 && 0 <= j < y ==>
                  s[i, j] == Contrast(old(s[i, j]), factor, brightness)
      invariant forall i, j :: 0 <= i < s.Length0 && y <= j < s.Length1 ==> s[i, j] == old(s[i, j])
    {
      var x := 0;
      while x < s.Length0
        invariant 0 <= x <= s.Length0
        invariant forall i, j :: 0 <= i < s.Length0 && 0 <= j < y ==>
                    s[i, j] == Contrast(old(s[i, j]), factor, brightness)
        invariant forall i :: 0 <= i < x ==> s[i, y] == Contrast(old(s[i, y]), factor, brightness)
        invariant forall i, j :: 0 <= i < s.Length0 && y <= j < s.Length1 && (j > y || i >= x) ==>
                    s[i, j] == old(s[i, j])
      {
        s[x, y] := Contrast(s[x, y], factor, brightness);
        x := x + 1;
      }
      y := y + 1;
    }
  }

  // ---------------------------------------------------------------------------
  // Masks

  /** The darkening rule shared by the three masks: the rounded scaled value,
      but never brighter than the original. */
  function Darken(value: int, scaled: real): (v: int)
    ensures v <= value
    ensures 0 <= value && 0.0 <= scaled ==> 0 <= v
    ensures v == value || v == RoundHalfAway(scaled)
  {
    var c := RoundHalfAway(scaled);
    if c > value then value else c
  }

  /** The radial fall-off factor: 2.5 at the centre, 0 from half the width out.
      `d` is the Euclidean distance from the centre. */
  function RadialChange(d: real, width: nat): (c: real)
    requires width > 0
    ensures 0.0 <= c
  {
    var m := width as real * 0.5;
    var f := 1.0 - d / m;
    (if f > 0.0 then f else 0.0) * 2.5
  }

  /** The hyperbolic-paraboloid factor at `(x, y)`, over normalised coordinates. */
  function HyperbolicZ(x: int, y: int, width: nat, height: nat): real
    requires width > 0 && height > 0
  {
    var useX := x as real / (width as real / 2.0) - 1.0;
    var useY := y as real / (height as real / 2.0) - 1.0;
    (useX * useX - useY * useY) * 2.0 + 0.5
  }

  /** The linear mask factor: it uses the width for both axes and halves it
      with integer division before the conversion to float. */
  function LinearZ(y: int, width: nat): real
    requires width / 2 > 0
  {
    var useY := y as real / (width / 2) as real - 1.0;
    (-useY) * (-useY) * 3.0
  }

  function NonNeg(r: real): real {
    if r > 0.0 then r else 0.0
  }

  /** The pixel `mask_radial` writes for a pixel of value `v` at distance `d` from the centre. */
  function RadialPixel(v: int, d: real, width: nat): (r: int)
    requires width > 0
    ensures r <= v && (0 <= v ==> 0 <= r)
  {
    var change := RadialChange(d, width);
    assert 0 <= v ==> 0.0 <= v as real * change;
    Darken(v, v as real * change)
  }

  /** The pixel `mask_hyperbolic` writes for a pixel of value `v` at `(x, y)`. */
  function HyperbolicPixel(v: int, x: int, y: int, width: nat, height: nat): (r: int)
    requires width > 0 && height > 0
    ensures r <= v && (0 <= v ==> 0 <= r)
  {
    Darken(v, NonNeg(v as real * HyperbolicZ(x, y, width, height)))
  }

  /** The pixel `mask_linear` writes for a pixel of value `v` in row `y`. */
  function LinearPixel(v: int, y: int, width: nat): (r: int)
    requires width / 2 > 0
    ensures r <= v && (0 <= v ==> 0 <= r)
  {
    Darken(v, NonNeg(v as real * LinearZ(y, width)))
  }

  /** `mask_radial` (generators.py:80-101): a fresh surface, each pixel the
      darkened product of the original and the radial factor. `dist` gives the
      distance of a pixel from the centre. */
  method MaskRadial(s: array2<int>, dist: (int, int) -> real) returns (output: array2<int>)
    ensures fresh(output) && output.Length0 == s.Length0 && output.Length1 == s.Length1
    ensures forall x, y :: 0 <= x < s.Length0 && 0 <= y < s.Length1 ==>
              output[x, y] == RadialPixel(s[x, y], dist(x, y), s.Length0)
    ensures forall x, y :: 0 <= x < s.Length0 && 0 <= y < s.Length1 ==>
              output[x, y] <= s[x, y] && (0 <= s[x, y] ==> 0 <= output[x, y])
  {
    output := new int[s.Length0, s.Length1];
    var y := 0;
    while y < s.Length1
      invariant 0 <= y <= s.Length1
      invariant forall i, j :: 0 <= i < s.Length0 && 0 <= j < y ==>
                  output[i, j] == RadialPixel(s[i, j], dist(i, j), s.Length0)
    {
      var x := 0;
      while x < s.Length0
        invariant 0 <= x <= s.Length0
        invariant forall i, j :: 0 <= i < s.Length0 && 0 <= j < y ==>
                    output[i, j] == RadialPixel(s[i, j], dist(i, j), s.Length0)
        invariant forall i :: 0 <= i < x ==>
                    output[i, y] == RadialPixel(s[i, y], dist(i, y), s.Length0)
      {
        output[x, y] := RadialPixel(s[x, y], dist(x, y), s.Length0);
        x := x + 1;
      }
      y := y + 1;
    }
  }

  /** `mask_hyperbolic` (generators.py:102-119). */
  method MaskHyperbolic(s: array2<int>) returns (output: array2<int>)
    ensures fresh(output) && output.Length0 == s.Length0 && output.Length1 == s.Length1
    ensures forall x, y :: 0 <= x < s.Length0 && 0 <= y < s.Length1 ==>
              output[x, y] == HyperbolicPixel(s[x, y], x, y, s.Length0, s.Length1)
    ensures forall x, y :: 0 <= x < s.Length0 && 0 <= y < s.Length1 ==>
              output[x, y] <= s[x, y] && (0 <= s[x, y] ==> 0 <= output[x, y])
  {
    output := new int[s.Length0, s.Length1];
    var y := 0;
    while y < s.Length1
      invariant 0 <= y <= s.Length1
      invariant forall i, j :: 0 <= i < s.Length0 && 0 <= j < y ==>
                  output[i, j] == HyperbolicPixel(s[i, j], i, j, s.Length0, s.Length1)
    {
      var x := 0;
      while x < s.Length0
        invariant 0 <= x <= s.Length0
        invariant forall i, j :: 0 <= i < s.Length0 && 0 <= j < y ==>
                    output[i, j] == HyperbolicPixel(s[i, j], i, j, s.Length0, s.Length1)
        invariant forall i :: 0 <= i < x ==>
                    output[i, y] == HyperbolicPixel(s[i, y], i, y, s.Length0, s.Length1)
      {
        output[x, y] := HyperbolicPixel(s[x, y], x, y, s.Length0, s.Length1);
        x := x + 1;
      }
      y := y + 1;
    }
  }

  /** `mask_linear` (generators.py:120-137). A surface one pixel wide divides
      by zero in the source, so it is excluded. */
  method MaskLinear(s: array2<int>) returns (output: array2<int>)
    requires s.Length1 > 0 ==> s.Length0 != 1
    ensures fresh(output) && output.Length0 == s.Length0 && output.Length1 == s.Length1
    ensures forall x, y :: 0 <= x < s.Length0 && 0 <= y < s.Length1 ==>
              output[x, y] == LinearPixel(s[x, y], y, s.Length0)
    ensures forall x, y :: 0 <= x < s.Length0 && 0 <= y < s.Length1 ==>
              output[x, y] <= s[x, y] && (0 <= s[x, y] ==> 0 <= output[x, y])
  {
    output := new int[s.Length0, s.Length1];
    var y := 0;
    while y < s.Length1
      invariant 0 <= y <= s.Length1
      invariant forall i, j :: 0 <= i < s.Length0 && 0 <= j < y ==>
                  output[i, j] == LinearPixel(s[i, j], j, s.Length0)
    {
      var x := 0;
      while x < s.Length0
        invariant 0 <= x <= s.Length0
        invariant forall i, j :: 0 <= i < s.Length0 && 0 <= j < y ==>
                    output[i, j] == LinearPixel(s[i, j], j, s.Length0)
        invariant forall i :: 0 <= i < x ==>
                    output[i, y] == LinearPixel(s[i, y], y, s.Length0)
      {
        output[x, y] := LinearPixel(s[x, y], y, s.Length0);
        x := x + 1;
      }
      y := y + 1;
    }
  }

  // ---------------------------------------------------------------------------
  // Erosion

  datatype Dir = Top | Bottom | Left | Right

  const AllDirs: seq<Dir> := [Top, Bottom, Left, Right]

  /** The lowest value `erode` ever writes: a drop that would go below it is absorbed. */
  const Floor: int := 20

  /** The height `erode` reads for a neighbour of `(x, y)`: one above the
      drop's new value when the neighbour is off the grid. */
  function NeighbourHeight(s: array2<int>, x: int, y: int, d: Dir, av: int): int
    reads s
    requires 0 <= x < s.Length0 && 0 <= y < s.Length1
  {
    match d
    case Top => if y == 0 then av + 1 else s[x, y - 1]
    case Bottom => if y == s.Length1 - 1 then av + 1 else s[x, y + 1]
    case Left => if x == 0 then av + 1 else s[x - 1, y]
    case Right => if x == s.Length0 - 1 then av + 1 else s[x + 1, y]
  }

  lemma NeighbourHeightOnGrid(s: array2<int>, x: int, y: int, d: Dir, av: int)
    requires 0 <= x < s.Length0 && 0 <= y < s.Length1
    requires OnGrid(s.Length0, s.Length1, x, y, d)
    ensures 0 <= Step(x, y, d).0 < s.Length0 && 0 <= Step(x, y, d).1 < s.Length1
    ensures Step(x, y, d) != (x, y)
    ensures NeighbourHeight(s, x, y, d, av) == s[Step(x, y, d).0, Step(x, y, d).1]
  {
  }

  /** Every on-grid neighbour in `ds` is no higher than `av`. */
  predicate TargetsNoHigher(s: array2<int>, x: int, y: int, ds: seq<Dir>, av: int)
    reads s
  {
    forall d :: d in ds && OnGrid(s.Length0, s.Length1, x, y, d) ==>
      var n := Step(x, y, d);
      0 <= n.0 < s.Length0 && 0 <= n.1 < s.Length1 && s[n.0, n.1] <= av
  }

  /** The neighbour of `(x, y)` in direction `d`, when it is on the grid. */
  predicate OnGrid(width: int, height: int, x: int, y: int, d: Dir) {
    match d
    case Top => y > 0
    case Bottom => y < height - 1
    case Left => x > 0
    case Right => x < width - 1
  }

  function Step(x: int, y: int, d: Dir): (int, int) {
    match d
    case Top => (x, y - 1)
    case Bottom => (x, y + 1)
    case Left => (x - 1, y)
    case Right => (x + 1, y)
  }

  /** The change a drop makes to `(x, y)` when it took `dec` off height `h`
      and the four neighbours read `t, b, l, r`: the value it writes, or None
      when the drop is absorbed (below the floor) or would drill a pit (the
      floored mean of the neighbours, minus 2, is above the new value). */
  function DropValue(h: int, dec: int, t: int, b: int, l: int, r: int): (w: Option<int>)
    requires dec == 1 || dec == 2
    ensures w.Some? <==> Floor <= h - dec && (t + b + l + r) / 4 - 2 <= (if h - dec > 255 then 255 else h - dec)
    ensures w.Some? ==> Floor <= w.value < h && (w.value == h - dec || w.value == 255)
  {
    var av := h - dec;
    if av < Floor then None
    else
      var av' := if av > 255 then 255 else av;
      if (t + b + l + r) / 4 - 2 > av' then None else Some(av')
  }

  /** The change a drop that takes `dec` off cell `(x, y)` of `s` makes to
      that cell, with the neighbours read as `erode` reads them. */
  function DropAt(s: array2<int>, x: int, y: int, dec: int): (w: Option<int>)
    reads s
    requires 0 <= x < s.Length0 && 0 <= y < s.Length1
    requires dec == 1 || dec == 2
    ensures w.Some? ==> Floor <= w.value < s[x, y]
  {
    var h := s[x, y];
    var av := if h - dec > 255 then 255 else h - dec;
    DropValue(h, dec, NeighbourHeight(s, x, y, Top, av), NeighbourHeight(s, x, y, Bottom, av),
              NeighbourHeight(s, x, y, Left, av), NeighbourHeight(s, x, y, Right, av))
  }

  /** The directions a drop may flow to from a cell it set to `av`: every
      neighbour strictly lower, and a level neighbour when its coin came up. */
  function Candidates(s: array2<int>, x: int, y: int, av: int, order: seq<Dir>, coins: seq<bool>): (c: seq<Dir>)
    reads s
    requires 0 <= x < s.Length0 && 0 <= y < s.Length1
    requires |coins| == |order|
    ensures forall d :: d in c ==> d in order && NeighbourHeight(s, x, y, d, av) <= av
    ensures forall d :: d in order && NeighbourHeight(s, x, y, d, av) < av ==> d in c
    decreases |order|
  {
    if order == [] then []
    else
      var v := NeighbourHeight(s, x, y, order[0], av);
      var rest := Candidates(s, x, y, av, order[1..], coins[1..]);
      if v < av || (v == av && coins[0]) then [order[0]] + rest else rest
  }

  /** `erode` (generators.py:212-277): one recursive rain drop. The random
      decrement, the coins for level neighbours, the order of the direction
      table and the choice between one and all directions are nondeterministic.
      The drop only ever lowers cells, and never to below the floor. When it
      lowers its own cell, the new value is what `DropAt` gives for one of the
      two decrements; when it does not, one of the two decrements is absorbed
      and nothing changes at all. Every other cell it lowers was lower than
      its own cell to begin with. */
  method Erode(s: array2<int>, x: int, y: int)
    requires 0 <= x < s.Length0 && 0 <= y < s.Length1
    modifies s
    ensures forall i, j :: 0 <= i < s.Length0 && 0 <= j < s.Length1 ==>
              s[i, j] == old(s[i, j]) || Floor <= s[i, j] < old(s[i, j])
    ensures old(s[x, y]) <= Floor ==>
              forall i, j :: 0 <= i < s.Length0 && 0 <= j < s.Length1 ==> s[i, j] == old(s[i, j])
    ensures s[x, y] != old(s[x, y]) ==>
              old(DropAt(s, x, y, 1)) == Some(s[x, y]) || old(DropAt(s, x, y, 2)) == Some(s[x, y])
    ensures s[x, y] == old(s[x, y]) ==>
              (old(DropAt(s, x, y, 1)).None? || old(DropAt(s, x, y, 2)).None?) &&
              forall i, j :: 0 <= i < s.Length0 && 0 <= j < s.Length1 ==> s[i, j] == old(s[i, j])
    ensures forall i, j :: 0 <= i < s.Length0 && 0 <= j < s.Length1 && (i, j) != (x, y) && s[i, j] != old(s[i, j]) ==>
              old(s[i, j]) < old(s[x, y])
    decreases s[x, y], 0
  {
    var h := s[x, y];
    var takeOne: bool :| true;
    var dec := if takeOne then 1 else 2;
    var av := h - dec;
    if av < Floor {
      assert DropAt(s, x, y, dec).None?;
      return;
    }
    if av > 255 {
      av := 255;
    }
    var t := NeighbourHeight(s, x, y, Top, av);
    var b := NeighbourHeight(s, x, y, Bottom, av);
    var l := NeighbourHeight(s, x, y, Left, av);
    var r := NeighbourHeight(s, x, y, Right, av);
    var meanOfDirs := (t + b + l + r) / 4;
    if meanOfDirs - 2 > av {
      assert DropAt(s, x, y, dec).None?;
      return;
    }
    assert DropAt(s, x, y, dec) == DropValue(h, dec, t, b, l, r) == Some(av);
    var order: seq<Dir> :| multiset(order) == multiset(AllDirs);
    assert |seq(|order|, _ => false)| == |order|;
    var coins: seq<bool> :| |coins| == |order|;
    var possible := Candidates(s, x, y, av, order, coins);
    forall d | d in possible && OnGrid(s.Length0, s.Length1, x, y, d) {
      NeighbourHeightOnGrid(s, x, y, d, av);
    }
    assert TargetsNoHigher(s, x, y, possible, av);
    Pour(s, x, y, av, possible);
  }

  /** The drop settling on `(x, y)` at `av` and running on into one of the
      `possible` directions, or into all of them. */
  method Pour(s: array2<int>, x: int, y: int, av: int, possible: seq<Dir>)
    requires 0 <= x < s.Length0 && 0 <= y < s.Length1
    requires Floor <= av < s[x, y] && TargetsNoHigher(s, x, y, possible, av)
    modifies s
    ensures forall i, j :: 0 <= i < s.Length0 && 0 <= j < s.Length1 ==>
              s[i, j] == old(s[i, j]) || Floor <= s[i, j] < old(s[i, j])
    ensures s[x, y] == av
    ensures forall i, j :: 0 <= i < s.Length0 && 0 <= j < s.Length1 && (i, j) != (x, y) && s[i, j] != old(s[i, j]) ==>
              old(s[i, j]) <= av
    decreases av, 2
  {
    Lower(s, x, y, av, possible);
    label lowered:
    if |possible| == 0 {
      return;
    }
    var one: bool :| true;
    var selections: seq<Dir>;
    if one {
      var k :| 0 <= k < |possible|;
      selections := [possible[k]];
    } else {
      selections := possible;
    }
    Flow(s, x, y, av, selections);
    forall i, j | 0 <= i < s.Length0 && 0 <= j < s.Length1
      ensures s[i, j] == old(s[i, j]) || Floor <= s[i, j] < old(s[i, j])
    {
      assert s[i, j] == old@lowered(s[i, j]) || Floor <= s[i, j] < old@lowered(s[i, j]);
      assert old@lowered(s[i, j]) == old(s[i, j]) || Floor <= old@lowered(s[i, j]) < old(s[i, j]);
    }
  }

  /** The write `surface[x][y] = av`: only `(x, y)` changes, so the
      neighbours the drop may enter stay no higher than `av`. */
  method Lower(s: array2<int>, x: int, y: int, av: int, ds: seq<Dir>)
    requires 0 <= x < s.Length0 && 0 <= y < s.Length1
    requires TargetsNoHigher(s, x, y, ds, av)
    modifies s
    ensures s[x, y] == av
    ensures forall i, j :: 0 <= i < s.Length0 && 0 <= j < s.Length1 && (i, j) != (x, y) ==> s[i, j] == old(s[i, j])
    ensures TargetsNoHigher(s, x, y, ds, av)
  {
    s[x, y] := av;
    forall d | d in ds && OnGrid(s.Length0, s.Length1, x, y, d)
      ensures s[Step(x, y, d).0, Step(x, y, d).1] <= av
    {
      NeighbourHeightOnGrid(s, x, y, d, av);
    }
  }

  /** The recursion step of `erode`: the drop, having set `(x, y)` to `av`,
      runs on into each selected on-grid neighbour, each no higher than `av`. */
  method Flow(s: array2<int>, x: int, y: int, av: int, selections: seq<Dir>)
    requires 0 <= x < s.Length0 && 0 <= y < s.Length1
    requires Floor <= av && s[x, y] == av && TargetsNoHigher(s, x, y, selections, av)
    modifies s
    ensures forall i, j :: 0 <= i < s.Length0 && 0 <= j < s.Length1 ==>
              s[i, j] == old(s[i, j]) || Floor <= s[i, j] < old(s[i, j])
    ensures s[x, y] == av
    ensures forall i, j :: 0 <= i < s.Length0 && 0 <= j < s.Length1 && s[i, j] != old(s[i, j]) ==>
              old(s[i, j]) <= av
    decreases av, 1
  {
    var i := 0;
    while i < |selections|
      invariant 0 <= i <= |selections|
      invariant TargetsNoHigher(s, x, y, selections, av)
      invariant forall i', j' :: 0 <= i' < s.Length0 && 0 <= j' < s.Length1 ==>
                  s[i', j'] == old(s[i', j']) || Floor <= s[i', j'] < old(s[i', j'])
      invariant s[x, y] == av
      invariant forall i', j' :: 0 <= i' < s.Length0 && 0 <= j' < s.Length1 && s[i', j'] != old(s[i', j']) ==>
                  old(s[i', j']) <= av
    {
      var d := selections[i];
      if OnGrid(s.Length0, s.Length1, x, y, d) {
        var n := Step(x, y, d);
        label before:
        Erode(s, n.0, n.1);
        forall i', j' | 0 <= i' < s.Length0 && 0 <= j' < s.Length1 && s[i', j'] != old@before(s[i', j'])
          ensures old@before(s[i', j']) <= av
        {
        }
      }
      i := i + 1;
    }
  }

  /** `erosion` (generators.py:199-209): `10000 * factor` drops at
      nondeterministically chosen cells. */
  method Erosion(s: array2<int>, factor: int)
    requires factor > 0 ==> s.Length0 > 0 && s.Length1 > 0
    modifies s
    ensures forall i, j :: 0 <= i < s.Length0 && 0 <= j < s.Length1 ==>
              s[i, j] == old(s[i, j]) || Floor <= s[i, j] < old(s[i, j])
  {
    var timesToRun := 10000 * factor;
    while timesToRun > 0
      invariant forall i, j :: 0 <= i < s.Length0 && 0 <= j < s.Length1 ==>
                  s[i, j] == old(s[i, j]) || Floor <= s[i, j] < old(s[i, j])
    {
      var x :| 0 <= x < s.Length0;
      var y :| 0 <= y < s.Length1;
      Erode(s, x, y);
      timesToRun := timesToRun - 1;
    }
  }

  // ---------------------------------------------------------------------------
  // The three terrain recipes (generators.py:43-77). The noise surface they
  // start from comes from a foreign library and is taken as input.

  /** `gen_island`: contrast 1.4, radial mask, erosion `4 + rainfall`. The
      noise surface keeps the contrasted values; each pixel of the result is
      its masked value, or lowered from it by erosion but not below the floor. */
  method GenIsland(noise: array2<int>, dist: (int, int) -> real, rainfall: int) returns (slate: array2<int>)
    requires noise.Length0 > 0 && noise.Length1 > 0
    modifies noise
    ensures fresh(slate) && slate.Length0 == noise.Length0 && slate.Length1 == noise.Length1
    ensures InByteRange(slate)
    ensures forall x, y :: 0 <= x < noise.Length0 && 0 <= y < noise.Length1 ==>
              noise[x, y] == Contrast(old(noise[x, y]), 1.4, 0)
    ensures forall x, y :: 0 <= x < noise.Length0 && 0 <= y < noise.Length1 ==>
              var p := RadialPixel(noise[x, y], dist(x, y), noise.Length0);
              slate[x, y] == p || Floor <= slate[x, y] < p
  {
    IncreaseContrast(noise, 1.4, 0);
    slate := MaskRadial(noise, dist);
    assert InByteRange(slate);
    Erosion(slate, 4 + rainfall);
  }

  /** `gen_continents`: contrast 1.3 with brightness 40, hyperbolic mask,
      erosion `3 + rainfall`, with the same relation between the three
      stages as `GenIsland`. */
  method GenContinents(noise: array2<int>, rainfall: int) returns (slate: array2<int>)
    requires noise.Length0 > 0 && noise.Length1 > 0
    modifies noise
    ensures fresh(slate) && slate.Length0 == noise.Length0 && slate.Length1 == noise.Length1
    ensures InByteRange(slate)
    ensures forall x, y :: 0 <= x < noise.Length0 && 0 <= y < noise.Length1 ==>
              noise[x, y] == Contrast(old(noise[x, y]), 1.3, 40)
    ensures forall x, y :: 0 <= x < noise.Length0 && 0 <= y < noise.Length1 ==>
              var p := HyperbolicPixel(noise[x, y], x, y, noise.Length0, noise.Length1);
              slate[x, y] == p || Floor <= slate[x, y] < p
  {
    IncreaseContrast(noise, 1.3, 40);
    slate := MaskHyperbolic(noise);
    assert InByteRange(slate);
    Erosion(slate, 3 + rainfall);
  }

  /** `gen_highlands`: contrast 1.3 with brightness 100, no mask, erosion
      `6 + rainfall`, all on the noise surface itself. */
  method GenHighlands(noise: array2<int>, rainfall: int)
    requires noise.Length0 > 0 && noise.Length1 > 0
    modifies noise
    ensures InByteRange(noise)
    ensures forall x, y :: 0 <= x < noise.Length0 && 0 <= y < noise.Length1 ==>
              var p := Contrast(old(noise[x, y]), 1.3, 100);
              noise[x, y] == p || Floor <= noise[x, y] < p
  {
    IncreaseContrast(noise, 1.3, 100);
    label contrasted:
    Erosion(noise, 6 + rainfall);
    forall x, y | 0 <= x < noise.Length0 && 0 <= y < noise.Length1
      ensures var p := Contrast(old(noise[x, y]), 1.3, 100); noise[x, y] == p || Floor <= noise[x, y] < p
    {
      assert old@contrasted(noise[x, y]) == Contrast(old(noise[x, y]), 1.3, 100);
    }
  }
}
