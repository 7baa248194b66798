/**
 * The abstract path interfaces of the core (Pathfinder/src/include/grpl/pf/path/
 * spline.h and curve.h). Their virtual members become closures of a record.
 */
module Paths {
  import opened Vectors

  /**
   * A planar spline over the parameter t in [0, 1]. Curvature is a partial
   * function: implementations divide by the norm of the derivative.
   */
  datatype Spline = Spline(position: real -> Vec2, curvature: real --> real)

  /** A planar curve over arc length s, with its total length. */
  datatype Curve = Curve(
    position: real -> Vec2,
    rotation: real -> Vec2,
    curvature: real -> real,
    dcurvature: real -> real,
    length: real)
}
