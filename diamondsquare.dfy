/** `DiamondSquare` of src/diamondsquare.py: a square height map of side
    `res + 1` kept in one flat list, -1 marking a cell not yet computed, filled
    by alternating square and diamond midpoint steps on ever smaller cells,
    and finally shifted so that its lowest value is not below zero. Values
    are reals: the random offsets make them floats. */
module DiamondSquareGen {
  /** The marker of a cell not yet computed, and what `get` answers off the map. */
  const Sentinel: real := -1.0

  /** `[i for i in values if i != -1]`. */
  function Kept(values: seq<real>): (k: seq<real>)
    ensures forall v :: v in k <==> v in values && v != Sentinel
    ensures |k| <= |values|
  {
    if values == [] then []
    else (if values[0] != Sentinel then [values[0]] else []) + Kept(values[1..])
  }

  function Sum(s: seq<real>): real {
    if s == [] then 0.0 else s[0] + Sum(s[1..])
  }

  /** `average`: the mean of the entries that are not -1, or -1 when there are none. */
  function Average(values: seq<real>): (a: real)
    ensures Kept(values) == [] ==> a == Sentinel
    ensures Kept(values) != [] ==> a * |Kept(values)| as real == Sum(Kept(values))
  {
    var items := Kept(values);
    if |items| == 0 then Sentinel else Sum(items) / |items| as real
  }

  lemma {:induction false} SumBounds(s: seq<real>, lo: real, hi: real)
    requires forall v :: v in s ==> lo <= v <= hi
    ensures lo * |s| as real <= Sum(s) <= hi * |s| as real
  {
    if s != [] {
      assert forall v :: v in s[1..] ==> v in s;
      SumBounds(s[1..], lo, hi);
      var n := |s[1..]| as real;
      assert lo * |s| as real == lo + lo * n;
      assert hi * |s| as real == hi + hi * n;
      assert s[0] in s;
    }
  }

  lemma QuotientBounds(total: real, n: real, lo: real, hi: real)
    requires n > 0.0 && lo * n <= total <= hi * n
    ensures lo <= total / n <= hi
  {
    assert total / n - lo == (total - lo * n) / n;
    assert hi - total / n == (hi * n - total) / n;
  }

  lemma MeanBounds(s: seq<real>, lo: real, hi: real)
    requires s != [] && forall v :: v in s ==> lo <= v <= hi
    ensures lo <= Sum(s) / |s| as real <= hi
  {
    SumBounds(s, lo, hi);
    QuotientBounds(Sum(s), |s| as real, lo, hi);
  }

  /** The average of the computed entries lies between their least and greatest. */
  lemma AverageBetween(values: seq<real>, lo: real, hi: real)
    requires Kept(values) != []
    requires forall v :: v in values && v != Sentinel ==> lo <= v <= hi
    ensures lo <= Average(values) <= hi
  {
    var items := Kept(values);
    assert forall v :: v in items ==> lo <= v <= hi;
    MeanBounds(items, lo, hi);
  }

  /** A -1 entry changes nothing. */
  lemma {:induction false} KeptSkipsSentinel(values: seq<real>)
    ensures Kept(values + [Sentinel]) == Kept(values)
  {
    if values != [] {
      assert (values + [Sentinel])[1..] == values[1..] + [Sentinel];
      KeptSkipsSentinel(values[1..]);
    } else {
      assert Kept([Sentinel][1..]) == [];
    }
  }

  lemma MulLe(a: nat, b: nat, c: nat)
    requires b <= c
    ensures a * b <= a * c
  {
    assert a * c == a * b + a * (c - b);
  }

  /** Row `y` of a square of side `w` ends before row `y + 1` starts. */
  lemma SlotBelow(w: nat, x: nat, y: nat)
    requires x < w
    ensures x + w * y < w * (y + 1)
  {
    assert w * (y + 1) == w * y + w;
  }

  lemma SlotInSquare(w: nat, x: nat, y: nat)
    requires x < w && y < w
    ensures x + w * y < w * w
  {
    SlotBelow(w, x, y);
    MulLe(w, y + 1, w);
  }

  /** Distinct cells of a row-by-row square have distinct slots. */
  lemma SlotsDiffer(w: nat, x: nat, y: nat, x': nat, y': nat)
    requires x < w && x' < w && x + w * y == x' + w * y'
    ensures x == x' && y == y'
  {
    if y < y' {
      SlotBelow(w, x, y);
      MulLe(w, y + 1, y');
    } else if y' < y {
      SlotBelow(w, x', y');
      MulLe(w, y' + 1, y);
    }
  }

  /** `random.uniform(0, 1) * scale * 2 - scale` for the draw `u`. */
  function Spread(u: real, scale: real): real {
    u * scale * 2.0 - scale
  }

  function Min(a: real, b: real): real { if a <= b then a else b }
  function Max(a: real, b: real): real { if a >= b then a else b }

  class DiamondSquare {
    /** `self.res`: the side of the square, one more than the `res` given. */
    const side: nat
    /** `self.max`: the largest coordinate. */
    const max: nat
    const corners: (real, real, real, real)
    /** `self.map`: the cells row by row, cell (x, y) at `x + side * y`. */
    const cells: array<real>
    var lowValue: real
    var highValue: real
    var rough: real

    ghost predicate Valid()
      reads this
    {
      side == max + 1 && cells.Length == side * side && lowValue <= 0.0 <= highValue
    }

    /** The corner values `generate` writes. */
    function CornerValues(): set<real>
      reads this
    {
      {corners.0, corners.1, corners.2, corners.3}
    }

    /** Every cell is uncomputed, a corner value, or inside [lowValue, highValue]. */
    ghost predicate Bounded()
      reads this, cells
    {
      forall i :: 0 <= i < cells.Length ==> cells[i] == Sentinel || cells[i] in CornerValues() || lowValue <= cells[i] <= highValue
    }

    /** `__init__(res, corners)`: `(res + 1)^2` uncomputed cells and a zero range. */
    constructor (res: nat, corners: (real, real, real, real))
      ensures Valid() && Bounded() && fresh(cells)
      ensures side == res + 1 && max == res && this.corners == corners
      ensures forall i :: 0 <= i < cells.Length ==> cells[i] == Sentinel
      ensures lowValue == 0.0 && highValue == 0.0
    {
      side := res + 1;
      max := res;
      this.corners := corners;
      lowValue, highValue, rough := 0.0, 0.0, 0.0;
      cells := new real[(res + 1) * (res + 1)](_ => Sentinel);
    }

    predicate OnMap(xy: (int, int))
      reads this
    {
      0 <= xy.0 <= max && 0 <= xy.1 <= max
    }

    function Slot(xy: (int, int)): int
      reads this
    {
      xy.0 + side * xy.1
    }

    /** A cell on the map has a slot in the list, and no other cell shares it. */
    lemma SlotOf(xy: (int, int), other: (int, int))
      requires Valid() && OnMap(xy)
      ensures 0 <= Slot(xy) < cells.Length
      ensures OnMap(other) && Slot(other) == Slot(xy) ==> other == xy
    {
      var w, x, y := side, xy.0, xy.1;
      assert x < w && y < w;
      SlotInSquare(w, x, y);
      if OnMap(other) && Slot(other) == Slot(xy) {
        var x', y' := other.0, other.1;
        assert x' < w && x + w * y == x' + w * y';
        SlotsDiffer(w, x, y, x', y');
      }
    }

    /** `get`: -1 off the map, else the cell's slot. */
    function Get(xy: (int, int)): (v: real)
      requires Valid()
      reads this, cells
      ensures !OnMap(xy) ==> v == Sentinel
      ensures OnMap(xy) ==> 0 <= Slot(xy) < cells.Length && v == cells[Slot(xy)]
    {
      if !OnMap(xy) then Sentinel
      else
        SlotOf(xy, xy);
        cells[Slot(xy)]
    }

    /** `set`: writes the cell's slot, which `Get` then reads; every other
        cell keeps its value. */
    method Set(xy: (int, int), value: real)
      requires Valid() && OnMap(xy)
      modifies cells
      ensures Get(xy) == value
      ensures forall other :: OnMap(other) && other != xy ==> Get(other) == old(Get(other))
      ensures cells[..] == old(cells[..])[Slot(xy) := value]
    {
      SlotOf(xy, xy);
      cells[Slot(xy)] := value;
      forall other | OnMap(other) && other != xy
        ensures Get(other) == old(Get(other))
      {
        SlotOf(xy, other);
      }
    }

    /** The value the square step writes at `xy`: the average of the four
        diagonal neighbours `r` away, plus `change`. */
    function SquareValue(xy: (int, int), r: int, change: real): real
      requires Valid()
      reads this, cells
    {
      var (x, y) := xy;
      Average([Get((x - r, y - r)), Get((x + r, y - r)), Get((x - r, y + r)), Get((x + r, y + r))]) + change
    }

    /** The value the diamond step writes at `xy`: the average of the four
        orthogonal neighbours `r` away, plus `change`. */
    function DiamondValue(xy: (int, int), r: int, change: real): real
      requires Valid()
      reads this, cells
    {
      var (x, y) := xy;
      Average([Get((x, y - r)), Get((x + r, y)), Get((x, y + r)), Get((x - r, y))]) + change
    }

    /** Writes `val` at `xy` and widens [lowValue, highValue] to take it in. */
    method Record(xy: (int, int), val: real)
      requires Valid() && Bounded() && OnMap(xy)
      modifies this, cells
      ensures Valid() && Bounded()
      ensures cells[..] == old(cells[..])[Slot(xy) := val]
      ensures lowValue == Min(old(lowValue), val) && highValue == Max(old(highValue), val)
      ensures rough == old(rough)
    {
      if val < lowValue {
        lowValue := val;
      } else if val > highValue {
        highValue := val;
      }
      Set(xy, val);
    }

    /** `square(xy, res, change)`. */
    method Square(xy: (int, int), r: int, change: real)
      requires Valid() && Bounded() && OnMap(xy)
      modifies this, cells
      ensures Valid() && Bounded() && rough == old(rough)
      ensures cells[..] == old(cells[..])[Slot(xy) := old(SquareValue(xy, r, change))]
      ensures lowValue == Min(old(lowValue), old(SquareValue(xy, r, change)))
      ensures highValue == Max(old(highValue), old(SquareValue(xy, r, change)))
    {
      var (x, y) := xy;
      var val := Average([Get((x - r, y - r)), Get((x + r, y - r)), Get((x - r, y + r)), Get((x + r, y + r))]) + change;
      Record(xy, val);
    }

    /** `diamond(xy, res, change)`. */
    method Diamond(xy: (int, int), r: int, change: real)
      requires Valid() && Bounded() && OnMap(xy)
      modifies this, cells
      ensures Valid() && Bounded() && rough == old(rough)
      ensures cells[..] == old(cells[..])[Slot(xy) := old(DiamondValue(xy, r, change))]
      ensures lowValue == Min(old(lowValue), old(DiamondValue(xy, r, change)))
      ensures highValue == Max(old(highValue), old(DiamondValue(xy, r, change)))
    {
      var (x, y) := xy;
      var val := Average([Get((x, y - r)), Get((x + r, y)), Get((x, y + r)), Get((x - r, y))]) + change;
      Record(xy, val);
    }

    /** The random offset of one step: uniform in [-scale, scale]. */
    static method Offset(scale: real) returns (change: real)
      ensures exists u :: 0.0 <= u <= 1.0 && change == Spread(u, scale)
    {
      var u: real :| 0.0 <= u <= 1.0;
      change := Spread(u, scale);
    }

    /** `divide(res)`: the square steps at the centres of the cells of side
        `res`, the diamond steps at their edge midpoints, then the same on
        cells half as large; nothing happens once `res / 2 < 1`. The range
        only widens. */
    method Divide(r: nat)
      requires Valid() && Bounded()
      modifies this, cells
      ensures Valid() && Bounded() && rough == old(rough)
      ensures lowValue <= old(lowValue) && highValue >= old(highValue)
      ensures r < 2 ==> cells[..] == old(cells[..]) && lowValue == old(lowValue) && highValue == old(highValue)
      decreases r
    {
      var half := r / 2;
      var scale := rough * r as real;
      if half < 1 {
        return;
      }
      var y := half;
      while y < max
        invariant Valid() && Bounded() && rough == old(rough)
        invariant lowValue <= old(lowValue) && highValue >= old(highValue)
        invariant half <= y
        decreases max - y
      {
        var x := half;
        while x < max
          invariant Valid() && Bounded() && rough == old(rough)
          invariant lowValue <= old(lowValue) && highValue >= old(highValue)
          invariant half <= x
          decreases max - x
        {
          var change := Offset(scale);
          Square((x, y), half, change);
          x := x + r;
        }
        y := y + r;
      }
      y := 0;
      while y < max + 1
        invariant Valid() && Bounded() && rough == old(rough)
        invariant lowValue <= old(lowValue) && highValue >= old(highValue)
        invariant 0 <= y
        decreases max + 1 - y
      {
        var x := (y + half) % r;
        while x < max + 1
          invariant Valid() && Bounded() && rough == old(rough)
          invariant lowValue <= old(lowValue) && highValue >= old(highValue)
          invariant 0 <= x
          decreases max + 1 - x
        {
          var change := Offset(scale);
          Diamond((x, y), half, change);
          x := x + r;
        }
        y := y + half;
      }
      Divide(r / 2);
    }

    /** The final shift of `generate`: lowValue is clamped to at most zero and
        subtracted from every cell and from highValue, so no cell decreases. */
    method Normalise()
      requires Valid() && Bounded()
      modifies this, cells
      ensures Valid() && rough == old(rough)
      ensures lowValue == Min(old(lowValue), 0.0) && highValue == old(highValue) - lowValue
      ensures forall i :: 0 <= i < cells.Length ==> cells[i] == old(cells[i]) - lowValue && cells[i] >= old(cells[i])
      ensures forall i :: 0 <= i < cells.Length ==>
                cells[i] + lowValue == Sentinel || cells[i] + lowValue in CornerValues() || 0.0 <= cells[i] <= highValue
    {
      lowValue := Min(lowValue, 0.0);
      ghost var low, high := lowValue, highValue;
      for i := 0 to cells.Length
        invariant lowValue == low && highValue == high && rough == old(rough)
        invariant forall k :: 0 <= k < i ==> cells[k] == old(cells[k]) - lowValue
        invariant forall k :: i <= k < cells.Length ==> cells[k] == old(cells[k])
      {
        cells[i] := cells[i] - lowValue;
      }
      highValue := highValue - lowValue;
    }

    /** `generate(rough)`: the four corners, the subdivision from the whole
        square down, and the shift. Afterwards every computed cell lies in
        [0, highValue]; the others hold a shifted corner or marker value. */
    method Generate(rough: real)
      requires Valid() && Bounded()
      modifies this, cells
      ensures Valid() && this.rough == rough && lowValue <= 0.0
      ensures forall i :: 0 <= i < cells.Length ==>
                cells[i] + lowValue == Sentinel || cells[i] + lowValue in CornerValues() || 0.0 <= cells[i] <= highValue
    {
      this.rough := rough;
      Set((0, 0), corners.0);
      Set((0, max), corners.1);
      Set((max, 0), corners.2);
      Set((max, max), corners.3);
      Divide(max);
      Normalise();
    }

    /** `convert_table`: row `i` holds column `i` of the cells, so entry
        `[i][j]` is the cell (j, i). */
    method ConvertTable() returns (t: seq<seq<real>>)
      requires Valid()
      ensures |t| == side && forall i :: 0 <= i < side ==> |t[i]| == side
      ensures forall i, j :: 0 <= i < side && 0 <= j < side ==> t[i][j] == Get((j, i))
    {
      t := [];
      for x := 0 to side
        invariant |t| == x && forall i :: 0 <= i < x ==> |t[i]| == side
        invariant forall i, j :: 0 <= i < x && 0 <= j < side ==> t[i][j] == Get((j, i))
      {
        var row := [];
        for y := 0 to side
          invariant |row| == y && forall j :: 0 <= j < y ==> row[j] == Get((j, x))
        {
          SlotOf((y, x), (y, x));
          row := row + [cells[y + x * side]];
        }
        t := t + [row];
      }
    }
  }
}
