/** Products of reals: monotonicity, and geometric sequences. */
module RealProducts {

  lemma {:induction false} Scale(x: real, y: real, k: real)
    requires x <= y && 0.0 <= k
    ensures x * k <= y * k
  {
    if x < y && 0.0 < k { assert 0.0 < (y - x) * k; }
  }

  /** A fraction of a part is a part. */
  lemma {:induction false} Fraction(g: real, x: real, f: real)
    requires 0.0 <= g <= x && 0.0 <= f <= 1.0
    ensures 0.0 <= g * f <= x
  {
    assert 0.0 <= g * f;
    assert 0.0 <= g * (1.0 - f);
  }

  /** `x` times the `n`-th power of `f`. */
  function Geometric(x: real, f: real, n: nat): real { if n == 0 then x else Geometric(x, f, n - 1) * f }

  lemma {:induction false} GeometricBounds(x: real, f: real, n: nat)
    requires 0.0 <= x && 0.0 <= f <= 1.0
    ensures 0.0 <= Geometric(x, f, n) <= x
  {
    if n > 0 {
      GeometricBounds(x, f, n - 1);
      Fraction(Geometric(x, f, n - 1), x, f);
    }
  }

  /** `n` times `x`, added up. */
  function Sum(n: nat, x: real): real { if n == 0 then 0.0 else Sum(n - 1, x) + x }

  lemma {:induction false} SumIsProduct(n: nat, x: real)
    ensures Sum(n, x) == n as real * x
  {
    if n > 0 {
      SumIsProduct(n - 1, x);
      OneMore((n - 1) as real, n as real, x);
    }
  }

  lemma {:induction false} OneMore(k: real, n: real, x: real)
    requires n == k + 1.0
    ensures k * x + x == n * x
  {
  }

  lemma {:induction false} SumNotNegative(n: nat, x: real)
    requires 0.0 <= x
    ensures 0.0 <= Sum(n, x)
  {
    if n > 0 { SumNotNegative(n - 1, x); }
  }
}
