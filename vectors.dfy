/**
 * Two-dimensional vectors: the immutable Java `Vec2` value class, also used
 * for the 2-vectors of the C++ core.
 */
module Vectors {
  import opened Wrappers
  import opened RealMath

  datatype Vec2 = Vec2(x: real, y: real)

  /** Per-component tolerance of `Vec2.equals` (1e-6). */
  const Tolerance: real := 0.000001

  function Cartesian(x: real, y: real): (v: Vec2)
    ensures v.x == x && v.y == y
  {
    Vec2(x, y)
  }

  /**
   * `cartesian(double[])`: reads elements 0 and 1; a shorter array makes the
   * Java code throw, which is `None` here.
   */
  function CartesianFromArray(xy: seq<real>): (r: Option<Vec2>)
    ensures |xy| < 2 <==> r.None?
    ensures r.Some? ==> r.value.x == xy[0] && r.value.y == xy[1]
  {
    if |xy| < 2 then None else Some(Cartesian(xy[0], xy[1]))
  }

  /** `xy()`: the two components as a fresh two-element array. */
  function Xy(v: Vec2): seq<real> {
    [v.x, v.y]
  }

  function Plus(a: Vec2, b: Vec2): Vec2 {
    Vec2(a.x + b.x, a.y + b.y)
  }

  function Minus(a: Vec2, b: Vec2): Vec2 {
    Vec2(a.x - b.x, a.y - b.y)
  }

  function Times(v: Vec2, s: real): Vec2 {
    Vec2(v.x * s, v.y * s)
  }

  function Zero(): Vec2 {
    Vec2(0.0, 0.0)
  }

  /** z-component of the cross product, the numerator of planar curvature. */
  function Cross(a: Vec2, b: Vec2): real {
    a.x * b.y - a.y * b.x
  }

  /** Squared Euclidean norm. */
  function NormSq(v: Vec2): real {
    v.x * v.x + v.y * v.y
  }

  /**
   * `Vec2.equals`: every component differs by less than the tolerance. The
   * Java method also answers false for an argument that is not a Vec2; here
   * the argument's type already rules that case out.
   */
  predicate ApproxEq(a: Vec2, b: Vec2) {
    Abs(b.x - a.x) < Tolerance && Abs(b.y - a.y) < Tolerance
  }

  lemma NormSqPositive(v: Vec2)
    requires v != Zero()
    ensures 0.0 < NormSq(v)
  {
    calc {
      NormSq(v);
      v.x * v.x + v.y * v.y;
      > { SumOfSquaresPositive(v.x, v.y); }
      0.0;
    }
  }

  /** `cartesian(v.xy())` has the components of `v`. */
  lemma CartesianXyRoundTrip(v: Vec2)
    ensures CartesianFromArray(Xy(v)) == Some(v)
  {
  }

  /** Adding then subtracting the same vector gives back the first operand. */
  lemma PlusMinusCancel(a: Vec2, b: Vec2)
    ensures Minus(Plus(a, b), b) == a
    ensures Plus(Minus(a, b), b) == a
  {
  }

  /** `plus`, `minus` and `times` act on each component separately. */
  lemma Componentwise(a: Vec2, b: Vec2, s: real)
    ensures Plus(a, b).x == a.x + b.x && Plus(a, b).y == a.y + b.y
    ensures Minus(a, b).x == a.x - b.x && Minus(a, b).y == a.y - b.y
    ensures Times(a, s).x == s * a.x && Times(a, s).y == s * a.y
    ensures Plus(a, b) == Plus(b, a)
  {
  }

  lemma ZeroIsOrigin()
    ensures Zero().x == 0.0 && Zero().y == 0.0
    ensures forall v: Vec2 {:trigger Plus(v, Zero())} :: Plus(v, Zero()) == v
  {
  }

  lemma ApproxEqReflexive(a: Vec2)
    ensures ApproxEq(a, a)
  {
  }

  lemma ApproxEqSymmetric(a: Vec2, b: Vec2)
    ensures ApproxEq(a, b) <==> ApproxEq(b, a)
  {
  }

  /** Tolerance equality is not transitive: two steps of 0.6e-6 add up to more than 1e-6. */
  lemma ApproxEqNotTransitive()
    ensures var a, b, c := Vec2(0.0, 0.0), Vec2(0.0000006, 0.0), Vec2(0.0000012, 0.0);
      ApproxEq(a, b) && ApproxEq(b, c) && !ApproxEq(a, c)
  {
  }
}
