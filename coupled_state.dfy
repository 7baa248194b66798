/**
 * State records of a coupled (tank / differential) drivetrain
 * (Pathfinder/src/include/grpl/pf/coupled/state.h): the chassis
 * configuration [x, y, heading], the kinematic state [distance, velocity,
 * acceleration], the centre state of a trajectory and the per-wheel state.
 */
module CoupledState {
  import opened Vectors

  datatype Configuration = Configuration(x: real, y: real, heading: real)

  datatype KinematicState = KinematicState(distance: real, velocity: real, acceleration: real)

  datatype State = State(
    time: real,
    curvature: real,
    dcurvature: real,
    config: Configuration,
    kinematics: KinematicState,
    finished: bool)

  datatype WheelState = WheelState(
    time: real,
    position: Vec2,
    kinematics: KinematicState,
    voltage: real,
    current: real,
    finished: bool)

  /** A default-initialised `state`: at rest at the origin, heading 0, at time 0, straight, not finished. */
  function DefaultState(): (s: State)
    ensures s.time == 0.0 && s.curvature == 0.0 && s.dcurvature == 0.0
    ensures s.config.x == 0.0 && s.config.y == 0.0 && s.config.heading == 0.0
    ensures s.kinematics.distance == 0.0 && s.kinematics.velocity == 0.0 && s.kinematics.acceleration == 0.0
    ensures !s.finished
  {
    State(0.0, 0.0, 0.0, Configuration(0.0, 0.0, 0.0), KinematicState(0.0, 0.0, 0.0), false)
  }

  /** A default-initialised `wheel_state`: at the origin, at rest, unpowered, at time 0, not finished. */
  function DefaultWheelState(): (w: WheelState)
    ensures w.time == 0.0 && w.position == Zero()
    ensures w.kinematics.distance == 0.0 && w.kinematics.velocity == 0.0 && w.kinematics.acceleration == 0.0
    ensures w.voltage == 0.0 && w.current == 0.0 && !w.finished
  {
    WheelState(0.0, Vec2(0.0, 0.0), KinematicState(0.0, 0.0, 0.0), 0.0, 0.0, false)
  }
}
