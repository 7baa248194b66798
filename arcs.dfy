/**
 * Circular arcs and the augmented arc whose curvature is interpolated
 * linearly along its length (Pathfinder/src/include/grpl/pf/path/arc.h and
 * augmented_arc.h).
 */
module Arcs {
  import opened Vectors
  import opened Paths

  /**
   * A circular arc as produced by the three-point fit of arc2d: position and
   * unit direction along the arc length, constant curvature, total length.
   * The fit itself needs atan2 and a matrix inverse, so it is a parameter.
   */
  datatype Arc2d = Arc2d(position: real -> Vec2, rotation: real -> Vec2, curvature: real, length: real)

  /** The three-point circle fit (start, a point in between, end). */
  type CircleFit = (Vec2, Vec2, Vec2) -> Arc2d

  /** An arc2d whose curvature is interpolated between two end values once they are set. */
  class AugmentedArc {
    const base: Arc2d
    var startCurvature: real
    var dkds: real
    var curvatureSet: bool

    /** Three-point construction: no interpolation yet. */
    constructor FromThree(fit: CircleFit, start: Vec2, mid: Vec2, end: Vec2)
      ensures base == fit(start, mid, end) && !curvatureSet
      ensures forall s :: Curvature(s) == base.curvature
    {
      base := fit(start, mid, end);
      curvatureSet := false;
    }

    /** Three-point construction followed by SetCurvature(startK, endK). */
    constructor WithCurvature(fit: CircleFit, start: Vec2, mid: Vec2, end: Vec2, startK: real, endK: real)
      requires fit(start, mid, end).length != 0.0
      ensures base == fit(start, mid, end) && curvatureSet
      ensures startCurvature == startK && dkds == (endK - startK) / base.length
      ensures Curvature(0.0) == startK && Curvature(base.length) == endK
    {
      base := fit(start, mid, end);
      curvatureSet := false;
      new;
      SetCurvature(startK, endK);
    }

    /**
     * Sets the end curvatures for interpolation. The base arc (position,
     * direction, length) is unchanged.
     */
    method SetCurvature(startK: real, endK: real)
      requires base.length != 0.0
      modifies this
      ensures startCurvature == startK && dkds == (endK - startK) / base.length && curvatureSet
      ensures Curvature(0.0) == startK && Curvature(Length()) == endK
      ensures forall s :: DCurvature(s) == (endK - startK) / Length()
      ensures forall s :: Curvature(s) == startK + s * DCurvature(s)
    {
      startCurvature := startK;
      dkds := (endK - startK) / base.length;
      curvatureSet := true;
      InterpolationEnds(startK, endK, base.length);
    }

    function Length(): real {
      base.length
    }

    function Position(s: real): Vec2 {
      base.position(s)
    }

    function Curvature(s: real): real
      reads this
    {
      if curvatureSet then startCurvature + s * dkds else base.curvature
    }

    function DCurvature(s: real): real
      reads this
    {
      dkds
    }

    /** The arc as a curve, for the current interpolation state. */
    function AsCurve(): (c: Curve)
      reads this
      ensures c.length == Length()
      ensures forall s :: c.curvature(s) == Curvature(s) && c.dcurvature(s) == DCurvature(s)
      ensures forall s :: c.position(s) == Position(s)
    {
      var isSet, k0, dk, arc := curvatureSet, startCurvature, dkds, base;
      Curve(arc.position, arc.rotation,
        s => if isSet then k0 + s * dk else arc.curvature,
        _ => dk,
        arc.length)
    }
  }

  /** Linear interpolation over [0, length] starts at k0 and ends at k1. */
  lemma InterpolationEnds(k0: real, k1: real, length: real)
    requires length != 0.0
    ensures k0 + 0.0 * ((k1 - k0) / length) == k0
    ensures k0 + length * ((k1 - k0) / length) == k1
  {
  }
}
