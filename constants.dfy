/**
 * Numeric constants shared by the trajectory core
 * (Pathfinder/src/include/grpl/pf/constants.h).
 */
module Constants {
  /** Comparison threshold for floating point numbers (1e-10). */
  const Epsilon: real := 0.0000000001
  /** Comparison threshold for "infinite" magnitudes (1e10). */
  const AlmostInf: real := 10000000000.0
  /** Acceptable error between setpoint and process variable (1e-5). */
  const DefaultAcceptableError: real := 0.00001
  /** M_PI, as the double literal the C++ library uses. */
  const Pi: real := 3.141592653589793

  /** Kinematic vector indices. */
  const Position: nat := 0
  const Velocity: nat := 1
  const Acceleration: nat := 2
}
