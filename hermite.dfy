/**
 * Cubic and quintic Hermite splines and the factory that chains waypoints
 * into splines (Pathfinder/src/include/grpl/pf/path/hermite.h).
 *
 * A spline holds a 2 x (ORDER + 1) control matrix whose columns are the
 * waypoint vectors; every query multiplies that matrix by a vector of basis
 * polynomials evaluated at t.
 */
module Hermite {
  import opened RealMath
  import opened Vectors
  import opened Paths

  datatype Waypoint =
    | CubicWaypoint(position: Vec2, tangent: Vec2)
    | QuinticWaypoint(position: Vec2, tangent: Vec2, dtangent: Vec2)

  /** Order of the spline a waypoint belongs to: 3 (cubic) or 5 (quintic). */
  function Order(w: Waypoint): nat {
    if w.CubicWaypoint? then 3 else 5
  }

  predicate ValidOrder(order: nat) {
    order == 3 || order == 5
  }

  /** Control-matrix columns as `set_waypoints` writes them: start vectors, then end vectors. */
  function Columns(start: Waypoint, end: Waypoint): (cols: seq<Vec2>)
    requires Order(start) == Order(end)
    ensures |cols| == Order(start) + 1
    ensures cols[0] == start.position && cols[1] == start.tangent
    ensures cols[|cols| / 2] == end.position && cols[|cols| / 2 + 1] == end.tangent
    ensures start.QuinticWaypoint? ==> cols[2] == start.dtangent && cols[5] == end.dtangent
  {
    if start.CubicWaypoint? then
      [start.position, start.tangent, end.position, end.tangent]
    else
      [start.position, start.tangent, start.dtangent, end.position, end.tangent, end.dtangent]
  }

  // Basis polynomials, written as the source evaluates them.

  function CubicBasis(t: real): seq<real> {
    [2.0 * t * t * t - 3.0 * t * t + 1.0, t * t * t - 2.0 * t * t + t,
     -2.0 * t * t * t + 3.0 * t * t, t * t * t - t * t]
  }

  function CubicBasis1st(t: real): seq<real> {
    [6.0 * t * t - 6.0 * t, 3.0 * t * t - 4.0 * t + 1.0, -6.0 * t * t + 6.0 * t, 3.0 * t * t - 2.0 * t]
  }

  function CubicBasis2nd(t: real): seq<real> {
    [12.0 * t - 6.0, 6.0 * t - 4.0, -12.0 * t + 6.0, 6.0 * t - 2.0]
  }

  function QuinticBasis(t: real): seq<real> {
    [1.0 - 10.0 * t * t * t + 15.0 * t * t * t * t - 6.0 * t * t * t * t * t,
     t - 6.0 * t * t * t + 8.0 * t * t * t * t - 3.0 * t * t * t * t * t,
     0.5 * t * t - 1.5 * t * t * t + 1.5 * t * t * t * t - 0.5 * t * t * t * t * t,
     10.0 * t * t * t - 15.0 * t * t * t * t + 6.0 * t * t * t * t * t,
     7.0 * t * t * t * t - 4.0 * t * t * t - 3.0 * t * t * t * t * t,
     0.5 * t * t * t - t * t * t * t + 0.5 * t * t * t * t * t]
  }

  function QuinticBasis1st(t: real): seq<real> {
    [-30.0 * t * t + 60.0 * t * t * t - 30.0 * t * t * t * t,
     1.0 - 18.0 * t * t + 32.0 * t * t * t - 15.0 * t * t * t * t,
     t - 4.5 * t * t + 6.0 * t * t * t - 2.5 * t * t * t * t,
     30.0 * t * t - 60.0 * t * t * t + 30.0 * t * t * t * t,
     28.0 * t * t * t - 12.0 * t * t - 15.0 * t * t * t * t,
     1.5 * t * t - 4.0 * t * t * t + 2.5 * t * t * t * t]
  }

  function QuinticBasis2nd(t: real): seq<real> {
    [-60.0 * t + 180.0 * t * t - 120.0 * t * t * t,
     -36.0 * t + 96.0 * t * t - 60.0 * t * t * t,
     1.0 - 9.0 * t + 18.0 * t * t - 10.0 * t * t * t,
     60.0 * t - 180.0 * t * t + 120.0 * t * t * t,
     84.0 * t * t - 24.0 * t - 60.0 * t * t * t,
     3.0 * t - 12.0 * t * t + 10.0 * t * t * t]
  }

  function Basis(order: nat, t: real): (b: seq<real>)
    requires ValidOrder(order)
    ensures |b| == order + 1
  {
    if order == 3 then CubicBasis(t) else QuinticBasis(t)
  }

  function Basis1st(order: nat, t: real): (b: seq<real>)
    requires ValidOrder(order)
    ensures |b| == order + 1
  {
    if order == 3 then CubicBasis1st(t) else QuinticBasis1st(t)
  }

  function Basis2nd(order: nat, t: real): (b: seq<real>)
    requires ValidOrder(order)
    ensures |b| == order + 1
  {
    if order == 3 then CubicBasis2nd(t) else QuinticBasis2nd(t)
  }

  /** The matrix-vector product `M * b`: the columns of M weighted by b. */
  function Combine(cols: seq<Vec2>, b: seq<real>): Vec2
    requires |cols| == |b|
  {
    if cols == [] then Zero() else Plus(Times(cols[0], b[0]), Combine(cols[1..], b[1..]))
  }

  /** Planar curvature from first and second derivative: cross(d, dd) / |d|^3. */
  function PlanarCurvature(d: Vec2, dd: Vec2, sqrt: real -> real): real
    requires sqrt(NormSq(d)) != 0.0
  {
    var n := sqrt(NormSq(d));
    Cross(d, dd) / (n * n * n)
  }

  // Reference definition of the bases: polynomial coefficient lists (lowest
  // power first) and their formal derivatives.

  function Coef(c: seq<real>, i: nat): real {
    if i < |c| then c[i] else 0.0
  }

  /** Value at t of the polynomial of degree at most 5 with coefficients c. */
  function Eval(c: seq<real>, t: real): real
    requires |c| <= 6
  {
    Coef(c, 0) + t * (Coef(c, 1) + t * (Coef(c, 2) + t * (Coef(c, 3) + t * (Coef(c, 4) + t * Coef(c, 5)))))
  }

  /** Formal derivative: coefficient i of the result is (i + 1) * c[i + 1]. */
  function Deriv(c: seq<real>): (d: seq<real>)
    ensures |d| == if |c| == 0 then 0 else |c| - 1
  {
    if |c| <= 1 then [] else seq(|c| - 1, i requires 0 <= i < |c| - 1 => (i + 1) as real * c[i + 1])
  }

  const CubicCoefficients: seq<seq<real>> := [
    [1.0, 0.0, -3.0, 2.0],
    [0.0, 1.0, -2.0, 1.0],
    [0.0, 0.0, 3.0, -2.0],
    [0.0, 0.0, -1.0, 1.0]]

  const QuinticCoefficients: seq<seq<real>> := [
    [1.0, 0.0, 0.0, -10.0, 15.0, -6.0],
    [0.0, 1.0, 0.0, -6.0, 8.0, -3.0],
    [0.0, 0.0, 0.5, -1.5, 1.5, -0.5],
    [0.0, 0.0, 0.0, 10.0, -15.0, 6.0],
    [0.0, 0.0, 0.0, -4.0, 7.0, -3.0],
    [0.0, 0.0, 0.0, 0.5, -1.0, 0.5]]

  function Coefficients(order: nat): (cs: seq<seq<real>>)
    requires ValidOrder(order)
    ensures |cs| == order + 1
    ensures forall i :: 0 <= i < |cs| ==> |cs[i]| == order + 1
  {
    if order == 3 then CubicCoefficients else QuinticCoefficients
  }

  /** Eval in expanded form: the sum of each coefficient times its power of t. */
  lemma EvalExpanded(c: seq<real>, t: real)
    requires |c| <= 6
    ensures Eval(c, t) == Coef(c, 0) + Coef(c, 1) * t + Coef(c, 2) * (t * t) + Coef(c, 3) * (t * t * t) +
      Coef(c, 4) * (t * t * t * t) + Coef(c, 5) * (t * t * t * t * t)
  {
    var c0, c1, c2, c3, c4, c5 := Coef(c, 0), Coef(c, 1), Coef(c, 2), Coef(c, 3), Coef(c, 4), Coef(c, 5);
    var t2, t3, t4, t5 := t * t, t * t * t, t * t * t * t, t * t * t * t * t;
    assert t * (c4 + t * c5) == c4 * t + c5 * t2;
    assert t * (c3 + c4 * t + c5 * t2) == c3 * t + c4 * t2 + c5 * t3;
    assert t * (c2 + c3 * t + c4 * t2 + c5 * t3) == c2 * t + c3 * t2 + c4 * t3 + c5 * t4;
    assert t * (c1 + c2 * t + c3 * t2 + c4 * t3 + c5 * t4) == c1 * t + c2 * t2 + c3 * t3 + c4 * t4 + c5 * t5;
  }

  /** A cubic coefficient list evaluated term by term. */
  lemma CubicTerms(a0: real, a1: real, a2: real, a3: real, t: real)
    ensures Eval([a0, a1, a2, a3], t) == a0 + a1 * t + a2 * t * t + a3 * t * t * t
  {
    EvalExpanded([a0, a1, a2, a3], t);
  }

  /** The formal derivative of a cubic coefficient list evaluated term by term. */
  lemma CubicSlopeTerms(a0: real, a1: real, a2: real, a3: real, t: real)
    ensures Eval(Deriv([a0, a1, a2, a3]), t) == a1 + 2.0 * a2 * t + 3.0 * a3 * t * t
  {
    var d := Deriv([a0, a1, a2, a3]);
    assert d[0] == a1 && d[1] == 2.0 * a2 && d[2] == 3.0 * a3;
    EvalExpanded(d, t);
  }

  /** The formal second derivative of a cubic coefficient list evaluated term by term. */
  lemma CubicBendTerms(a0: real, a1: real, a2: real, a3: real, t: real)
    ensures Eval(Deriv(Deriv([a0, a1, a2, a3])), t) == 2.0 * a2 + 6.0 * a3 * t
  {
    var d := Deriv([a0, a1, a2, a3]);
    assert d[0] == a1 && d[1] == 2.0 * a2 && d[2] == 3.0 * a3;
    var e := Deriv(d);
    assert e[0] == 2.0 * a2 && e[1] == 6.0 * a3;
    EvalExpanded(e, t);
  }

  /** A quintic coefficient list evaluated term by term. */
  lemma QuinticTerms(a0: real, a1: real, a2: real, a3: real, a4: real, a5: real, t: real)
    ensures Eval([a0, a1, a2, a3, a4, a5], t) ==
      a0 + a1 * t + a2 * t * t + a3 * t * t * t + a4 * t * t * t * t + a5 * t * t * t * t * t
  {
    EvalExpanded([a0, a1, a2, a3, a4, a5], t);
  }

  /** The formal derivative of a quintic coefficient list evaluated term by term. */
  lemma QuinticSlopeTerms(a0: real, a1: real, a2: real, a3: real, a4: real, a5: real, t: real)
    ensures Eval(Deriv([a0, a1, a2, a3, a4, a5]), t) ==
      a1 + 2.0 * a2 * t + 3.0 * a3 * t * t + 4.0 * a4 * t * t * t + 5.0 * a5 * t * t * t * t
  {
    var d := Deriv([a0, a1, a2, a3, a4, a5]);
    assert d[0] == a1 && d[1] == 2.0 * a2 && d[2] == 3.0 * a3 && d[3] == 4.0 * a4 && d[4] == 5.0 * a5;
    EvalExpanded(d, t);
  }

  /** The formal second derivative of a quintic coefficient list evaluated term by term. */
  lemma QuinticBendTerms(a0: real, a1: real, a2: real, a3: real, a4: real, a5: real, t: real)
    ensures Eval(Deriv(Deriv([a0, a1, a2, a3, a4, a5])), t) ==
      2.0 * a2 + 6.0 * a3 * t + 12.0 * a4 * t * t + 20.0 * a5 * t * t * t
  {
    var d := Deriv([a0, a1, a2, a3, a4, a5]);
    assert d[0] == a1 && d[1] == 2.0 * a2 && d[2] == 3.0 * a3 && d[3] == 4.0 * a4 && d[4] == 5.0 * a5;
    var e := Deriv(d);
    assert e[0] == 2.0 * a2 && e[1] == 6.0 * a3 && e[2] == 12.0 * a4 && e[3] == 20.0 * a5;
    EvalExpanded(e, t);
  }

  /** Each cubic basis entry is the polynomial with the listed coefficients. */
  lemma CubicBasisPolynomials(t: real)
    ensures forall i :: 0 <= i < 4 ==> CubicBasis(t)[i] == Eval(CubicCoefficients[i], t)
  {
    forall i | 0 <= i < 4 ensures CubicBasis(t)[i] == Eval(CubicCoefficients[i], t) {
      if i == 0 {
        CubicTerms(1.0, 0.0, -3.0, 2.0, t);
      } else if i == 1 {
        CubicTerms(0.0, 1.0, -2.0, 1.0, t);
      } else if i == 2 {
        CubicTerms(0.0, 0.0, 3.0, -2.0, t);
      } else {
        CubicTerms(0.0, 0.0, -1.0, 1.0, t);
      }
    }
  }

  /** Each cubic first-derivative entry is the formal derivative of the basis polynomial. */
  lemma CubicBasis1stIsDerivative(t: real)
    ensures forall i :: 0 <= i < 4 ==> CubicBasis1st(t)[i] == Eval(Deriv(CubicCoefficients[i]), t)
  {
    forall i | 0 <= i < 4 ensures CubicBasis1st(t)[i] == Eval(Deriv(CubicCoefficients[i]), t) {
      if i == 0 {
        CubicSlopeTerms(1.0, 0.0, -3.0, 2.0, t);
      } else if i == 1 {
        CubicSlopeTerms(0.0, 1.0, -2.0, 1.0, t);
      } else if i == 2 {
        CubicSlopeTerms(0.0, 0.0, 3.0, -2.0, t);
      } else {
        CubicSlopeTerms(0.0, 0.0, -1.0, 1.0, t);
      }
    }
  }

  /** Each cubic second-derivative entry is the formal second derivative. */
  lemma CubicBasis2ndIsDerivative(t: real)
    ensures forall i :: 0 <= i < 4 ==> CubicBasis2nd(t)[i] == Eval(Deriv(Deriv(CubicCoefficients[i])), t)
  {
    forall i | 0 <= i < 4 ensures CubicBasis2nd(t)[i] == Eval(Deriv(Deriv(CubicCoefficients[i])), t) {
      if i == 0 {
        CubicBendTerms(1.0, 0.0, -3.0, 2.0, t);
      } else if i == 1 {
        CubicBendTerms(0.0, 1.0, -2.0, 1.0, t);
      } else if i == 2 {
        CubicBendTerms(0.0, 0.0, 3.0, -2.0, t);
      } else {
        CubicBendTerms(0.0, 0.0, -1.0, 1.0, t);
      }
    }
  }

  // One lemma per quintic basis entry, so that each is proved in
  // a context of its own.
  lemma QuinticValueEntry0(t: real)
    ensures QuinticBasis(t)[0] == Eval(QuinticCoefficients[0], t)
  {
    QuinticTerms(1.0, 0.0, 0.0, -10.0, 15.0, -6.0, t);
  }

  lemma QuinticValueEntry1(t: real)
    ensures QuinticBasis(t)[1] == Eval(QuinticCoefficients[1], t)
  {
    QuinticTerms(0.0, 1.0, 0.0, -6.0, 8.0, -3.0, t);
  }

  lemma QuinticValueEntry2(t: real)
    ensures QuinticBasis(t)[2] == Eval(QuinticCoefficients[2], t)
  {
    QuinticTerms(0.0, 0.0, 0.5, -1.5, 1.5, -0.5, t);
  }

  lemma QuinticValueEntry3(t: real)
    ensures QuinticBasis(t)[3] == Eval(QuinticCoefficients[3], t)
  {
    QuinticTerms(0.0, 0.0, 0.0, 10.0, -15.0, 6.0, t);
  }

  lemma QuinticValueEntry4(t: real)
    ensures QuinticBasis(t)[4] == Eval(QuinticCoefficients[4], t)
  {
    QuinticTerms(0.0, 0.0, 0.0, -4.0, 7.0, -3.0, t);
  }

  lemma QuinticValueEntry5(t: real)
    ensures QuinticBasis(t)[5] == Eval(QuinticCoefficients[5], t)
  {
    QuinticTerms(0.0, 0.0, 0.0, 0.5, -1.0, 0.5, t);
  }

  /** Each quintic basis entry is the polynomial with the listed coefficients. */
  lemma QuinticBasisPolynomials(t: real)
    ensures forall i :: 0 <= i < 6 ==> QuinticBasis(t)[i] == Eval(QuinticCoefficients[i], t)
  {
    forall i | 0 <= i < 6 ensures QuinticBasis(t)[i] == Eval(QuinticCoefficients[i], t) {
      if i == 0 {
        QuinticValueEntry0(t);
      } else if i == 1 {
        QuinticValueEntry1(t);
      } else if i == 2 {
        QuinticValueEntry2(t);
      } else if i == 3 {
        QuinticValueEntry3(t);
      } else if i == 4 {
        QuinticValueEntry4(t);
      } else {
        QuinticValueEntry5(t);
      }
    }
  }

  // One lemma per quintic first-derivative entry, so that each is proved in
  // a context of its own.
  lemma QuinticSlopeEntry0(t: real)
    ensures QuinticBasis1st(t)[0] == Eval(Deriv(QuinticCoefficients[0]), t)
  {
    QuinticSlopeTerms(1.0, 0.0, 0.0, -10.0, 15.0, -6.0, t);
  }

  lemma QuinticSlopeEntry1(t: real)
    ensures QuinticBasis1st(t)[1] == Eval(Deriv(QuinticCoefficients[1]), t)
  {
    QuinticSlopeTerms(0.0, 1.0, 0.0, -6.0, 8.0, -3.0, t);
  }

  lemma QuinticSlopeEntry2(t: real)
    ensures QuinticBasis1st(t)[2] == Eval(Deriv(QuinticCoefficients[2]), t)
  {
    QuinticSlopeTerms(0.0, 0.0, 0.5, -1.5, 1.5, -0.5, t);
  }

  lemma QuinticSlopeEntry3(t: real)
    ensures QuinticBasis1st(t)[3] == Eval(Deriv(QuinticCoefficients[3]), t)
  {
    QuinticSlopeTerms(0.0, 0.0, 0.0, 10.0, -15.0, 6.0, t);
  }

  lemma QuinticSlopeEntry4(t: real)
    ensures QuinticBasis1st(t)[4] == Eval(Deriv(QuinticCoefficients[4]), t)
  {
    QuinticSlopeTerms(0.0, 0.0, 0.0, -4.0, 7.0, -3.0, t);
  }

  lemma QuinticSlopeEntry5(t: real)
    ensures QuinticBasis1st(t)[5] == Eval(Deriv(QuinticCoefficients[5]), t)
  {
    QuinticSlopeTerms(0.0, 0.0, 0.0, 0.5, -1.0, 0.5, t);
  }

  /** Each quintic first-derivative entry is the formal derivative of the basis polynomial. */
  lemma QuinticBasis1stIsDerivative(t: real)
    ensures forall i :: 0 <= i < 6 ==> QuinticBasis1st(t)[i] == Eval(Deriv(QuinticCoefficients[i]), t)
  {
    forall i | 0 <= i < 6 ensures QuinticBasis1st(t)[i] == Eval(Deriv(QuinticCoefficients[i]), t) {
      if i == 0 {
        QuinticSlopeEntry0(t);
      } else if i == 1 {
        QuinticSlopeEntry1(t);
      } else if i == 2 {
        QuinticSlopeEntry2(t);
      } else if i == 3 {
        QuinticSlopeEntry3(t);
      } else if i == 4 {
        QuinticSlopeEntry4(t);
      } else {
        QuinticSlopeEntry5(t);
      }
    }
  }

  // One lemma per quintic second-derivative entry, so that each is proved in
  // a context of its own.
  lemma QuinticBendEntry0(t: real)
    ensures QuinticBasis2nd(t)[0] == Eval(Deriv(Deriv(QuinticCoefficients[0])), t)
  {
    QuinticBendTerms(1.0, 0.0, 0.0, -10.0, 15.0, -6.0, t);
  }

  lemma QuinticBendEntry1(t: real)
    ensures QuinticBasis2nd(t)[1] == Eval(Deriv(Deriv(QuinticCoefficients[1])), t)
  {
    QuinticBendTerms(0.0, 1.0, 0.0, -6.0, 8.0, -3.0, t);
  }

  lemma QuinticBendEntry2(t: real)
    ensures QuinticBasis2nd(t)[2] == Eval(Deriv(Deriv(QuinticCoefficients[2])), t)
  {
    QuinticBendTerms(0.0, 0.0, 0.5, -1.5, 1.5, -0.5, t);
  }

  lemma QuinticBendEntry3(t: real)
    ensures QuinticBasis2nd(t)[3] == Eval(Deriv(Deriv(QuinticCoefficients[3])), t)
  {
    QuinticBendTerms(0.0, 0.0, 0.0, 10.0, -15.0, 6.0, t);
  }

  lemma QuinticBendEntry4(t: real)
    ensures QuinticBasis2nd(t)[4] == Eval(Deriv(Deriv(QuinticCoefficients[4])), t)
  {
    QuinticBendTerms(0.0, 0.0, 0.0, -4.0, 7.0, -3.0, t);
  }

  lemma QuinticBendEntry5(t: real)
    ensures QuinticBasis2nd(t)[5] == Eval(Deriv(Deriv(QuinticCoefficients[5])), t)
  {
    QuinticBendTerms(0.0, 0.0, 0.0, 0.5, -1.0, 0.5, t);
  }

  /** Each quintic second-derivative entry is the formal second derivative. */
  lemma QuinticBasis2ndIsDerivative(t: real)
    ensures forall i :: 0 <= i < 6 ==> QuinticBasis2nd(t)[i] == Eval(Deriv(Deriv(QuinticCoefficients[i])), t)
  {
    forall i | 0 <= i < 6 ensures QuinticBasis2nd(t)[i] == Eval(Deriv(Deriv(QuinticCoefficients[i])), t) {
      if i == 0 {
        QuinticBendEntry0(t);
      } else if i == 1 {
        QuinticBendEntry1(t);
      } else if i == 2 {
        QuinticBendEntry2(t);
      } else if i == 3 {
        QuinticBendEntry3(t);
      } else if i == 4 {
        QuinticBendEntry4(t);
      } else {
        QuinticBendEntry5(t);
      }
    }
  }

  /**
   * Each basis entry is the polynomial with the listed coefficients, each
   * first-derivative entry is its formal derivative, and each second-derivative
   * entry the formal derivative of that.
   */
  lemma BasisDerivatives(order: nat, t: real)
    requires ValidOrder(order)
    ensures forall i :: 0 <= i <= order ==>
      Basis(order, t)[i] == Eval(Coefficients(order)[i], t) &&
      Basis1st(order, t)[i] == Eval(Deriv(Coefficients(order)[i]), t) &&
      Basis2nd(order, t)[i] == Eval(Deriv(Deriv(Coefficients(order)[i])), t)
  {
    if order == 3 {
      CubicBasisPolynomials(t);
      CubicBasis1stIsDerivative(t);
      CubicBasis2ndIsDerivative(t);
    } else {
      QuinticBasisPolynomials(t);
      QuinticBasis1stIsDerivative(t);
      QuinticBasis2ndIsDerivative(t);
    }
  }

  /** Weighting the columns by a unit vector selects one column. */
  lemma {:induction false} CombineUnit(cols: seq<Vec2>, b: seq<real>, k: nat)
    requires |cols| == |b| && k < |b|
    requires b[k] == 1.0
    requires forall j :: 0 <= j < |b| && j != k ==> b[j] == 0.0
    ensures Combine(cols, b) == cols[k]
  {
    if k == 0 {
      CombineZero(cols[1..], b[1..]);
    } else {
      CombineUnit(cols[1..], b[1..], k - 1);
    }
  }

  lemma {:induction false} CombineZero(cols: seq<Vec2>, b: seq<real>)
    requires |cols| == |b|
    requires forall j :: 0 <= j < |b| ==> b[j] == 0.0
    ensures Combine(cols, b) == Zero()
  {
    if cols != [] {
      CombineZero(cols[1..], b[1..]);
    }
  }

  /**
   * A spline interpolates its waypoints: at t = 0 and t = 1 its position and
   * first derivative are the start and end positions and tangents, and for a
   * quintic its second derivative is the start and end dtangent.
   */
  lemma Interpolates(start: Waypoint, end: Waypoint)
    requires Order(start) == Order(end)
    ensures var cols, n := Columns(start, end), Order(start);
      Combine(cols, Basis(n, 0.0)) == start.position &&
      Combine(cols, Basis(n, 1.0)) == end.position &&
      Combine(cols, Basis1st(n, 0.0)) == start.tangent &&
      Combine(cols, Basis1st(n, 1.0)) == end.tangent &&
      (start.QuinticWaypoint? ==>
        Combine(cols, Basis2nd(n, 0.0)) == start.dtangent &&
        Combine(cols, Basis2nd(n, 1.0)) == end.dtangent)
  {
    var cols, n := Columns(start, end), Order(start);
    if n == 3 {
      assert Basis(n, 0.0) == [1.0, 0.0, 0.0, 0.0];
      assert Basis(n, 1.0) == [0.0, 0.0, 1.0, 0.0];
      assert Basis1st(n, 0.0) == [0.0, 1.0, 0.0, 0.0];
      assert Basis1st(n, 1.0) == [0.0, 0.0, 0.0, 1.0];
      CombineUnit(cols, Basis(n, 0.0), 0);
      CombineUnit(cols, Basis(n, 1.0), 2);
      CombineUnit(cols, Basis1st(n, 0.0), 1);
      CombineUnit(cols, Basis1st(n, 1.0), 3);
    } else {
      assert Basis(n, 0.0) == [1.0, 0.0, 0.0, 0.0, 0.0, 0.0];
      assert Basis(n, 1.0) == [0.0, 0.0, 0.0, 1.0, 0.0, 0.0];
      assert Basis1st(n, 0.0) == [0.0, 1.0, 0.0, 0.0, 0.0, 0.0];
      assert Basis1st(n, 1.0) == [0.0, 0.0, 0.0, 0.0, 1.0, 0.0];
      assert Basis2nd(n, 0.0) == [0.0, 0.0, 1.0, 0.0, 0.0, 0.0];
      assert Basis2nd(n, 1.0) == [0.0, 0.0, 0.0, 0.0, 0.0, 1.0];
      CombineUnit(cols, Basis(n, 0.0), 0);
      CombineUnit(cols, Basis(n, 1.0), 3);
      CombineUnit(cols, Basis1st(n, 0.0), 1);
      CombineUnit(cols, Basis1st(n, 1.0), 4);
      CombineUnit(cols, Basis2nd(n, 0.0), 2);
      CombineUnit(cols, Basis2nd(n, 1.0), 5);
    }
  }

  /**
   * k has the magnitude of the planar curvature for derivatives d and dd:
   * k^2 |d|^6 == cross(d, dd)^2.
   */
  predicate CurvatureMagnitude(k: real, d: Vec2, dd: Vec2) {
    k * k * (NormSq(d) * NormSq(d) * NormSq(d)) == Cross(d, dd) * Cross(d, dd)
  }

  /**
   * For a nonzero derivative the curvature is defined and has the sign of
   * cross(d, dd): left turns are positive, right turns negative. Its square
   * times |d|^6 is cross(d, dd)^2, which with the sign fixes its value.
   */
  lemma CurvatureSign(d: Vec2, dd: Vec2, sqrt: real -> real)
    requires IsSqrt(sqrt) && d != Zero()
    ensures 0.0 < sqrt(NormSq(d))
    ensures Sign(PlanarCurvature(d, dd, sqrt)) == Sign(Cross(d, dd))
    ensures CurvatureMagnitude(PlanarCurvature(d, dd, sqrt), d, dd)
  {
    NormSqPositive(d);
    SqrtOfPositive(sqrt, NormSq(d));
    var n := sqrt(NormSq(d));
    CubePositive(n);
    QuotientSign(Cross(d, dd), n * n * n);
    SquaredOverCube(Cross(d, dd), n, NormSq(d));
  }

  /**
   * A Hermite spline of order 3 or 5, holding its control matrix as an array
   * of ORDER + 1 columns.
   */
  class Hermite {
    const order: nat
    const m: array<Vec2>

    ghost predicate Valid()
      reads this
    {
      ValidOrder(order) && m.Length == order + 1
    }

    /** hermite_cubic / hermite_quintic (start, end): set_waypoints on a fresh matrix. */
    constructor (start: Waypoint, end: Waypoint)
      requires Order(start) == Order(end)
      ensures Valid() && fresh(m) && order == Order(start)
      ensures m[..] == Columns(start, end)
      ensures Position(0.0) == start.position && Position(1.0) == end.position
      ensures Derivative(0.0) == start.tangent && Derivative(1.0) == end.tangent
      ensures order == 5 ==> Derivative2(0.0) == start.dtangent && Derivative2(1.0) == end.dtangent
    {
      order := Order(start);
      m := new Vec2[Order(start) + 1];
      new;
      SetWaypoints(start, end);
      Interpolates(start, end);
    }

    /** Writes the waypoint vectors into the columns of the control matrix. */
    method SetWaypoints(start: Waypoint, end: Waypoint)
      requires Valid() && Order(start) == order && Order(end) == order
      modifies m
      ensures m[..] == Columns(start, end)
    {
      m[0] := start.position;
      m[1] := start.tangent;
      if start.CubicWaypoint? {
        m[2] := end.position;
        m[3] := end.tangent;
      } else {
        m[2] := start.dtangent;
        m[3] := end.position;
        m[4] := end.tangent;
        m[5] := end.dtangent;
      }
    }

    function Position(t: real): Vec2
      reads this, m
      requires Valid()
    {
      Combine(m[..], Basis(order, t))
    }

    function Derivative(t: real): Vec2
      reads this, m
      requires Valid()
    {
      Combine(m[..], Basis1st(order, t))
    }

    function Derivative2(t: real): Vec2
      reads this, m
      requires Valid()
    {
      Combine(m[..], Basis2nd(order, t))
    }

    /**
     * hermite's curvature(t): `PlanarCurvature` is the formula, applied here
     * to the spline's derivatives at t.
     */
    function Curvature(t: real, sqrt: real -> real): (k: real)
      reads this, m
      requires Valid() && sqrt(NormSq(Derivative(t))) != 0.0
      ensures IsSqrt(sqrt) && Derivative(t) != Zero() ==> Sign(k) == Sign(Cross(Derivative(t), Derivative2(t)))
      ensures IsSqrt(sqrt) && Derivative(t) != Zero() ==> CurvatureMagnitude(k, Derivative(t), Derivative2(t))
    {
      var d, dd := Derivative(t), Derivative2(t);
      assert IsSqrt(sqrt) && d != Zero() ==>
        Sign(PlanarCurvature(d, dd, sqrt)) == Sign(Cross(d, dd)) &&
        CurvatureMagnitude(PlanarCurvature(d, dd, sqrt), d, dd)
      by {
        if IsSqrt(sqrt) && d != Zero() {
          CurvatureSign(d, dd, sqrt);
        }
      }
      PlanarCurvature(d, dd, sqrt)
    }

    /** The spline as the parameterizer sees it, for the current control matrix. */
    function AsSpline(sqrt: real -> real): (sp: Spline)
      reads this, m
      requires Valid()
      ensures forall t :: sp.position(t) == Position(t)
      ensures forall t :: sqrt(NormSq(Derivative(t))) != 0.0 ==>
        sp.curvature.requires(t) && sp.curvature(t) == Curvature(t, sqrt)
    {
      var cols, n := m[..], order;
      Spline(
        t => Combine(cols, Basis(n, t)),
        t requires sqrt(NormSq(Combine(cols, Basis1st(n, t)))) != 0.0 =>
          PlanarCurvature(Combine(cols, Basis1st(n, t)), Combine(cols, Basis2nd(n, t)), sqrt))
    }
  }

  /**
   * hermite_factory::generate: pairs consecutive waypoints into splines. An
   * empty range, or an output capacity smaller than the number of waypoints,
   * produces nothing.
   */
  method Generate(order: nat, wps: seq<Waypoint>, maxSize: nat) returns (size: nat, splines: seq<Hermite>)
    requires ValidOrder(order)
    requires forall i :: 0 <= i < |wps| ==> Order(wps[i]) == order
    ensures size == |splines|
    ensures size == if wps == [] || maxSize < |wps| then 0 else |wps| - 1
    ensures forall i :: 0 <= i < size ==>
      fresh(splines[i]) && fresh(splines[i].m) && splines[i].Valid() &&
      splines[i].order == order && splines[i].m[..] == Columns(wps[i], wps[i + 1])
  {
    if wps == [] {
      return 0, [];
    }
    if maxSize < |wps| {
      return 0, [];
    }
    size, splines := 0, [];
    var last := 0;
    var it := 1;
    while it < |wps|
      invariant 1 <= it <= |wps| && last == it - 1 && size == it - 1 == |splines|
      invariant forall i :: 0 <= i < size ==>
        fresh(splines[i]) && fresh(splines[i].m) && splines[i].Valid() &&
        splines[i].order == order && splines[i].m[..] == Columns(wps[i], wps[i + 1])
    {
      var h := new Hermite(wps[last], wps[it]);
      splines := splines + [h];
      last := it;
      size := size + 1;
      it := it + 1;
    }
  }
}
