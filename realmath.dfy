/**
 * Elementary real functions. The square root, sine, cosine and atan2 that
 * the C++ core takes from <cmath> have no closed form over the reals, so
 * every operation that needs them receives them as a `Math` record; the
 * proofs only rely on what `IsSqrt` states about the square root.
 */
module RealMath {
  datatype Math = Math(
    sqrt: real -> real,
    sin: real -> real,
    cos: real -> real,
    atan2: (real, real) -> real)

  /** `f` behaves as the non-negative square root on non-negative inputs. */
  ghost predicate IsSqrt(f: real -> real) {
    forall x: real :: 0.0 <= x ==> 0.0 <= f(x) && f(x) * f(x) == x
  }

  function Abs(x: real): real {
    if x < 0.0 then -x else x
  }

  function Min(a: real, b: real): real {
    if a <= b then a else b
  }

  function MinNat(a: nat, b: nat): nat {
    if a <= b then a else b
  }

  /** Sign of a real: -1, 0 or 1. */
  function Sign(x: real): int {
    if x < 0.0 then -1 else if x > 0.0 then 1 else 0
  }

  /** A square root of a positive number is positive. */
  lemma SqrtOfPositive(f: real -> real, x: real)
    requires IsSqrt(f) && 0.0 < x
    ensures 0.0 < f(x)
  {
    assert 0.0 <= f(x) && f(x) * f(x) == x;
  }

  // Small arithmetic facts, each proved on its own: the solver gives up on
  // products of variables once other facts are in scope.

  /** Dividing by a nonzero number and multiplying by it cancel, in either order. */
  lemma DivCancel(a: real, x: real)
    requires a != 0.0
    ensures (a * x) / a == x && (x / a) * a == x && a * (x / a) == x
  {
  }

  lemma SumOfSquaresNonNegative(x: real, y: real)
    ensures 0.0 <= x * x + y * y
  {
  }

  lemma SumOfSquaresPositive(x: real, y: real)
    requires x != 0.0 || y != 0.0
    ensures 0.0 < x * x + y * y
  {
  }

  lemma CubePositive(n: real)
    requires 0.0 < n
    ensures 0.0 < n * n * n
  {
  }

  lemma QuotientSign(a: real, n: real)
    requires 0.0 < n
    ensures Sign(a / n) == Sign(a)
  {
  }

  /** With n * n == q, the quotient a / n^3 squared, times q^3, is a^2. */
  lemma SquaredOverCube(a: real, n: real, q: real)
    requires n != 0.0 && n * n == q
    ensures (a / (n * n * n)) * (a / (n * n * n)) * (q * q * q) == a * a
  {
    var m := n * n * n;
    assert m != 0.0;
    var k := a / m;
    DivCancel(m, a);
    assert k * m == a;
    assert q * q * q == m * m;
    assert k * k * (m * m) == (k * m) * (k * m);
  }
}
