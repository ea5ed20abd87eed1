/** Integer roots for the generator's feature counts. The source writes
    `int(n ** (1. / k))`, which is meant as the largest `r` with `r^k <= n`;
    the model takes that exact root (floating point falls one short on some
    perfect cubes, such as `64 ** (1. / 3)`). */
module IntRoots {
  function Pow(b: nat, k: nat): nat {
    if k == 0 then 1 else b * Pow(b, k - 1)
  }

  lemma {:induction false} PowAtLeastBase(b: nat, k: nat)
    requires k >= 1
    ensures Pow(b, k) >= b || b == 0
  {
    if k > 1 {
      PowAtLeastBase(b, k - 1);
      if b > 0 {
        assert Pow(b, k - 1) >= 1;
        assert b * Pow(b, k - 1) >= b;
      }
    }
  }

  lemma MulMonotone(a: nat, b: nat, c: nat, d: nat)
    requires a <= b && c <= d
    ensures a * c <= b * d
  {
    assert a * c <= b * c;
    assert b * c <= b * d;
  }

  lemma {:induction false} PowMonotone(a: nat, b: nat, k: nat)
    requires a <= b
    ensures Pow(a, k) <= Pow(b, k)
  {
    if k > 0 {
      PowMonotone(a, b, k - 1);
      MulMonotone(a, b, Pow(a, k - 1), Pow(b, k - 1));
    }
  }

  function RootFrom(n: nat, k: nat, r: nat): (root: nat)
    requires k >= 1 && Pow(r, k) <= n
    ensures r <= root && Pow(root, k) <= n < Pow(root + 1, k)
    decreases n - r
  {
    if Pow(r + 1, k) <= n then
      PowAtLeastBase(r + 1, k);
      RootFrom(n, k, r + 1)
    else r
  }

  /** The integer `k`-th root of `n`. */
  function IRoot(n: nat, k: nat): (r: nat)
    requires k >= 1
    ensures Pow(r, k) <= n < Pow(r + 1, k)
  {
    RootFrom(n, k, 0)
  }

  /** The root is the only value with that property. */
  lemma {:induction false} IRootUnique(n: nat, k: nat, r: nat)
    requires k >= 1 && Pow(r, k) <= n < Pow(r + 1, k)
    ensures IRoot(n, k) == r
  {
    var q := IRoot(n, k);
    if q < r {
      PowMonotone(q + 1, r, k);
    } else if r < q {
      PowMonotone(r + 1, q, k);
    }
  }
}
