/**
 * Arithmetic helpers that reproduce the Python operators the demos use,
 * stated over unbounded integers and exact reals.
 */
module Numeric {

  /** Python's `max(lo, min(hi, x))`, the clamp every demo writes out inline. */
  function MaxMin(lo: real, hi: real, x: real): (r: real)
    ensures lo <= hi ==> lo <= r <= hi
    ensures lo <= x <= hi ==> r == x
    ensures x <= lo ==> r == lo
    ensures lo <= hi <= x ==> r == hi
  {
    var m := if hi <= x then hi else x;
    if m <= lo then lo else m
  }

  /**
   * Python's float `x % m` for a positive modulus: the result has the sign
   * of the modulus and differs from `x` by a whole multiple of `m`.
   */
  function FloatMod(x: real, m: real): (r: real)
    requires m > 0.0
    ensures 0.0 <= r < m
    ensures x - r == m * (x / m).Floor as real
    ensures 0.0 <= x < m ==> r == x
  {
    var q := (x / m).Floor;
    FloorBounds(x, m);
    if 0.0 <= x < m then
      assert q == 0 by { FloorOfFraction(x, m); }
      x - m * q as real
    else
      x - m * q as real
  }

  /**
   * The remainder is determined: any value in [0, m) that differs from `x`
   * by a whole multiple `k` of `m` is `FloatMod(x, m)`, and `k` is the floor
   * of `x / m`.
   */
  lemma FloatModUnique(x: real, m: real, r: real, k: int)
    requires m > 0.0 && 0.0 <= r < m && x == r + m * k as real
    ensures FloatMod(x, m) == r && k == (x / m).Floor
  {
    var q := (x / m).Floor;
    var r0 := FloatMod(x, m);
    Distributes(m, k as real, q as real);
    assert m * (k - q) as real == r0 - r;
    if k - q >= 1 {
      PositiveProduct(m, (k - q - 1) as real);
      Distributes(m, (k - q) as real, 1.0);
      assert false;
    }
    if q - k >= 1 {
      PositiveProduct(m, (q - k - 1) as real);
      Distributes(m, (q - k) as real, 1.0);
      assert false;
    }
  }

  lemma FloorBounds(x: real, m: real)
    requires m > 0.0
    ensures 0.0 <= x - m * (x / m).Floor as real < m
  {
    var y := x / m;
    var f := y.Floor as real;
    var d := y - f;
    assert 0.0 <= d < 1.0;
    DivisionCancels(x, m);
    Distributes(m, y, f);
    assert x - m * f == m * d;
    PositiveProduct(m, d);
    StrictlyPositiveProduct(m, 1.0 - d);
    Distributes(m, 1.0, d);
    assert m * d < m;
    assert 0.0 <= x - m * f < m;
    assert f == (x / m).Floor as real;
  }

  lemma StrictlyPositiveProduct(a: real, b: real)
    requires a > 0.0 && b > 0.0
    ensures a * b > 0.0
  {
  }

  lemma DivisionCancels(x: real, m: real)
    requires m > 0.0
    ensures m * (x / m) == x
  {
  }

  lemma Distributes(m: real, y: real, f: real)
    ensures m * y - m * f == m * (y - f)
  {
  }

  lemma PositiveProduct(a: real, b: real)
    requires a > 0.0 && b >= 0.0
    ensures a * b >= 0.0
  {
  }

  lemma FloorOfFraction(x: real, m: real)
    requires m > 0.0 && 0.0 <= x < m
    ensures (x / m).Floor == 0
  {
    var y := x / m;
    DivisionCancels(x, m);
    PositiveProduct(m, y);
    if y >= 1.0 {
      PositiveProduct(m, y - 1.0);
      Distributes(m, y, 1.0);
      assert false;
    }
  }

  /** Python's `int(a / d)` for a positive divisor: true division, then truncation toward zero. */
  function TruncDiv(a: int, d: int): (q: int)
    requires d > 0
    ensures a >= 0 ==> 0 <= q && q * d <= a < (q + 1) * d
    ensures a < 0 ==> q <= 0 && (-q) * d <= -a < (-q + 1) * d
  {
    if a >= 0 then
      DivisionBounds(a, d);
      a / d
    else
      DivisionBounds(-a, d);
      -((-a) / d)
  }

  lemma DivisionBounds(a: int, d: int)
    requires a >= 0 && d > 0
    ensures 0 <= a / d && (a / d) * d <= a < (a / d + 1) * d
  {
    var q, r := a / d, a % d;
    assert a == d * q + r && 0 <= r < d;
    assert (q + 1) * d == q * d + d;
    assert q * d == d * q;
  }

  /** Python's `int(x)` on a float: truncation toward zero. */
  function TruncReal(x: real): (n: int)
    ensures x >= 0.0 ==> 0 <= n && n as real <= x < n as real + 1.0
    ensures x < 0.0 ==> n <= 0 && n as real - 1.0 < x <= n as real
  {
    if x >= 0.0 then x.Floor else -((-x).Floor)
  }

  /** Truncation differs from Euclidean (floor) division on negative, inexact quotients. */
  lemma TruncDivNotFloor()
    ensures TruncDiv(-32768, 10000) == -3
    ensures -32768 / 10000 == -4
  {
  }
}
