/**
 * The coupled chassis of Pathfinder/src/include/grpl/pf/coupled/chassis.h:
 * two transmissions (left, right), wheel radius, track radius (half the
 * chassis width) and mass. It bounds the linear velocity and acceleration
 * the chassis can reach on a path of given curvature, and splits a centre
 * state into left and right wheel states with their electrical demand.
 */
module Chassis {
  import opened RealMath
  import opened Constants
  import opened Vectors
  import opened ModelTransmission
  import opened CoupledState

  /** Current a transmission draws at nominal voltage and a given speed. */
  function NominalCurrent(m: DcMotor, speed: real): real
    requires m.Nondegenerate()
  {
    m.GetCurrent(m.NominalVoltage(), speed)
  }

  /** A pair of values ordered left, right. */
  datatype Sides = Sides(left: real, right: real)

  /**
   * The transmission can report its free speed: none of its divisions is by
   * zero (kv != 0 already forces V_nom != 0, stated here for the current).
   */
  predicate SpeedDefined(m: DcMotor) {
    m.stallCurrent != 0.0 && m.freeSpeed != 0.0 && m.Kv() != 0.0 && m.vNom != 0.0
  }

  /** At the wheel's top linear speed the motor draws no current at nominal voltage. */
  lemma TopSpeedDrawsNoCurrent(m: DcMotor, wheelRadius: real)
    requires SpeedDefined(m) && wheelRadius != 0.0
    ensures m.GetCurrent(m.NominalVoltage(), (m.GetFreeSpeed(m.NominalVoltage()) * wheelRadius) / wheelRadius) == 0.0
  {
    var w := m.GetFreeSpeed(m.NominalVoltage());
    assert (w * wheelRadius) / wheelRadius == w;
    FreeSpeedDrawsNoCurrent(m, m.NominalVoltage());
  }

  /**
   * The wheel-speed computation divides by the ratio: always for curvature
   * at or below zero, and for positive curvature only when the left wheel,
   * driven at max.right * ratio, must be capped.
   */
  predicate DividesByRatio(max: Sides, ratio: real, curvature: real) {
    curvature <= 0.0 || max.right * ratio > max.left
  }

  /**
   * Wheel speeds on a curved path, as written at chassis.h:126-154, given
   * the wheels' maximum speeds and ratio = v_l / v_r. For negative curvature
   * the guard tests the left wheel, which has just been set to its maximum,
   * so the right wheel is never capped. Either way the wheels keep the
   * demanded ratio and one of them runs at its maximum.
   */
  function CurvedWheelVelsAsWritten(max: Sides, ratio: real, curvature: real): (v: Sides)
    requires DividesByRatio(max, ratio, curvature) ==> ratio != 0.0
    ensures v.left == v.right * ratio
    ensures v.left == max.left || v.right == max.right
  {
    if curvature > 0.0 then
      var right := max.right;
      var left := right * ratio;
      if left > max.left then DivCancel(ratio, max.left); Sides(max.left, max.left / ratio) else Sides(left, right)
    else
      var left := max.left;
      var right := left / ratio;
      DivCancel(ratio, max.left);
      if left > max.left then Sides(max.right * ratio, max.right) else Sides(left, right)
  }

  /**
   * The evidently intended wheel speeds: for negative curvature the right
   * wheel is capped too. The wheels keep the demanded ratio and one of them
   * runs at its maximum.
   */
  function CurvedWheelVels(max: Sides, ratio: real, curvature: real): (v: Sides)
    requires DividesByRatio(max, ratio, curvature) ==> ratio != 0.0
    ensures v.left == v.right * ratio
    ensures v.left == max.left || v.right == max.right
  {
    if curvature > 0.0 then
      var right := max.right;
      var left := right * ratio;
      if left > max.left then DivCancel(ratio, max.left); Sides(max.left, max.left / ratio) else Sides(left, right)
    else
      var left := max.left;
      var right := left / ratio;
      DivCancel(ratio, max.left);
      if right > max.right then Sides(max.right * ratio, max.right) else Sides(left, right)
  }

  lemma DivBelow(x: real, r: real, m: real)
    requires 0.0 < r && x < m * r
    ensures x / r < m
  {
  }

  lemma MulBelow(m: real, r: real, x: real)
    requires 0.0 < r && x < m / r
    ensures x * r < m
  {
  }

  /** With nonnegative maxima and a positive ratio, the corrected wheel speeds are nonnegative. */
  lemma CurvedWheelVelsNonNegative(max: Sides, ratio: real, curvature: real)
    requires 0.0 <= max.left && 0.0 <= max.right && 0.0 < ratio
    ensures 0.0 <= CurvedWheelVels(max, ratio, curvature).left && 0.0 <= CurvedWheelVels(max, ratio, curvature).right
  {
  }

  lemma SumTimes(a: real, b: real, r: real)
    ensures (a + b) * r == a * r + b * r && (b - a) * r == b * r - a * r
  {
  }

  /**
   * With nonnegative maxima and a positive ratio, the corrected wheel speeds
   * are within both maxima and keep v_l == v_r * ratio, the ratio the
   * curvature demands.
   */
  lemma CurvedWheelVelsWithinMaxima(max: Sides, ratio: real, curvature: real)
    requires 0.0 <= max.left && 0.0 <= max.right && 0.0 < ratio
    ensures var v := CurvedWheelVels(max, ratio, curvature);
      v.left <= max.left && v.right <= max.right && v.left == v.right * ratio
  {
    var v := CurvedWheelVels(max, ratio, curvature);
    if curvature > 0.0 {
      if max.right * ratio > max.left {
        assert v.right < max.right by { DivBelow(max.left, ratio, max.right); }
        DivCancel(ratio, max.left);
      }
    } else {
      DivCancel(ratio, max.left);
      if max.left / ratio > max.right {
        assert v.left < max.left by { MulBelow(max.left, ratio, max.right); }
      }
    }
  }

  /** As written, negative curvature always pins the left wheel and derives the right from it. */
  lemma CurvedWheelVelsAsWrittenNegative(max: Sides, ratio: real, curvature: real)
    requires ratio != 0.0 && curvature <= 0.0
    ensures CurvedWheelVelsAsWritten(max, ratio, curvature) == Sides(max.left, max.left / ratio)
  {
  }

  /** An input where the code as written drives the right wheel past its maximum. */
  lemma CurvedWheelVelsAsWrittenExceedsRight()
    ensures CurvedWheelVelsAsWritten(Sides(2.0, 1.0), 1.5, -0.2).right > 1.0
    ensures CurvedWheelVels(Sides(2.0, 1.0), 1.5, -0.2).right <= 1.0
  {
    CurvedWheelVelsAsWrittenNegative(Sides(2.0, 1.0), 1.5, -0.2);
    CurvedWheelVelsWithinMaxima(Sides(2.0, 1.0), 1.5, -0.2);
  }

  datatype Chassis = Chassis(
    transLeft: DcMotor,
    transRight: DcMotor,
    wheelRadius: real,
    trackRadius: real,
    mass: real)
  {
    /**
     * Each wheel's top linear speed: the motor's free speed at nominal
     * voltage times the wheel radius, the speed at which the motor draws no
     * current and so gives no torque.
     */
    function MaximumVels(): (max: Sides)
      requires SpeedDefined(transLeft) && SpeedDefined(transRight)
      ensures wheelRadius != 0.0 ==>
        transLeft.GetCurrent(transLeft.NominalVoltage(), max.left / wheelRadius) == 0.0 &&
        transRight.GetCurrent(transRight.NominalVoltage(), max.right / wheelRadius) == 0.0
    {
      if wheelRadius != 0.0 then
        TopSpeedDrawsNoCurrent(transLeft, wheelRadius);
        TopSpeedDrawsNoCurrent(transRight, wheelRadius);
        Sides(transLeft.GetFreeSpeed(transLeft.NominalVoltage()) * wheelRadius,
              transRight.GetFreeSpeed(transRight.NominalVoltage()) * wheelRadius)
      else
        Sides(transLeft.GetFreeSpeed(transLeft.NominalVoltage()) * wheelRadius,
              transRight.GetFreeSpeed(transRight.NominalVoltage()) * wheelRadius)
    }

    /** r*k: track radius times curvature. */
    function TurnFactor(curvature: real): real {
      trackRadius * curvature
    }

    /**
     * v_l / v_r on a path of curvature k: the ratio solving
     * v_r * (1 - r*k) == v_l * (1 + r*k) (chassis.h:113-120).
     */
    function Ratio(curvature: real): (ratio: real)
      requires 1.0 + TurnFactor(curvature) != 0.0
      ensures ratio * (1.0 + TurnFactor(curvature)) == 1.0 - TurnFactor(curvature)
    {
      DivCancel(1.0 + TurnFactor(curvature), 1.0 - TurnFactor(curvature));
      (1.0 - TurnFactor(curvature)) / (1.0 + TurnFactor(curvature))
    }

    /** The curvature is in the curved (neither point turn nor straight) regime. */
    predicate Curved(curvature: real) {
      Epsilon <= Abs(curvature) <= AlmostInf
    }

    /**
     * linear_vel_limit divides by zero nowhere at this curvature: on a curve
     * 1 + r*k is nonzero, and so is the ratio wherever the wheel speeds
     * divide by it.
     */
    predicate VelLimitDefined(curvature: real)
      requires SpeedDefined(transLeft) && SpeedDefined(transRight)
    {
      Curved(curvature) ==>
        1.0 + TurnFactor(curvature) != 0.0 &&
        (DividesByRatio(MaximumVels(), Ratio(curvature), curvature) ==> Ratio(curvature) != 0.0)
    }

    /**
     * linear_vel_limit as written (chassis.h:90-159). It agrees with the
     * corrected limit except on curves of negative curvature, where it pins
     * the left wheel at its maximum whatever the right wheel then needs.
     */
    function LinearVelLimitAsWritten(curvature: real): (limit: real)
      requires SpeedDefined(transLeft) && SpeedDefined(transRight)
      requires VelLimitDefined(curvature)
      ensures !(Curved(curvature) && curvature < 0.0) ==> limit == LinearVelLimit(curvature)
      ensures Curved(curvature) && curvature < 0.0 ==>
        limit == (MaximumVels().left + MaximumVels().left / Ratio(curvature)) / 2.0
    {
      if Abs(curvature) > AlmostInf then 0.0
      else if Abs(curvature) < Epsilon then Min(MaximumVels().left, MaximumVels().right)
      else
        assert Curved(curvature);
        var v := CurvedWheelVelsAsWritten(MaximumVels(), Ratio(curvature), curvature);
        (v.left + v.right) / 2.0
    }

    /**
     * linear_vel_limit with the right-wheel cap for negative curvature in
     * place: with nonnegative maxima and a positive ratio the limit lies
     * between 0 and the mean of the two wheels' maxima.
     */
    function LinearVelLimit(curvature: real): (limit: real)
      requires SpeedDefined(transLeft) && SpeedDefined(transRight)
      requires VelLimitDefined(curvature)
      ensures (0.0 <= MaximumVels().left && 0.0 <= MaximumVels().right &&
        (Curved(curvature) ==> 0.0 < Ratio(curvature))) ==>
        0.0 <= limit <= (MaximumVels().left + MaximumVels().right) / 2.0
    {
      if Abs(curvature) > AlmostInf then 0.0
      else if Abs(curvature) < Epsilon then Min(MaximumVels().left, MaximumVels().right)
      else
        assert Curved(curvature);
        var v := CurvedWheelVels(MaximumVels(), Ratio(curvature), curvature);
        if 0.0 <= MaximumVels().left && 0.0 <= MaximumVels().right && 0.0 < Ratio(curvature) then
          CurvedWheelVelsWithinMaxima(MaximumVels(), Ratio(curvature), curvature);
          CurvedWheelVelsNonNegative(MaximumVels(), Ratio(curvature), curvature);
          (v.left + v.right) / 2.0
        else
          (v.left + v.right) / 2.0
    }

    /** The transmissions can report current and torque. */
    predicate TorqueDefined() {
      transLeft.Nondegenerate() && transRight.Nondegenerate()
    }

    /**
     * Angular speed of each wheel at a linear velocity on a path of given
     * curvature: their mean is the centre's speed and their difference the
     * turn's differential, 2*v*k*r (chassis.h:181-190).
     */
    function WheelSpeeds(curvature: real, velocity: real): (w: Sides)
      requires wheelRadius != 0.0
      ensures (w.left + w.right) * wheelRadius == 2.0 * velocity
      ensures (w.right - w.left) * wheelRadius == 2.0 * (velocity * curvature * trackRadius)
    {
      var angular := velocity * curvature;
      var differential := angular * trackRadius;
      var left, right := velocity - differential, velocity + differential;
      DivCancel(wheelRadius, left);
      DivCancel(wheelRadius, right);
      SumTimes(left / wheelRadius, right / wheelRadius, wheelRadius);
      Sides(left / wheelRadius, right / wheelRadius)
    }

    /**
     * acceleration_limits (chassis.h:179-212): the (min, max) linear
     * acceleration from the wheels' torques at nominal voltage, forwards and
     * reversed, at the wheel speeds the velocity and curvature imply. The
     * linear motor model makes the two symmetric: reversing the current
     * reverses the torque, so min == -max.
     */
    function AccelerationLimits(curvature: real, velocity: real): (limits: (real, real))
      requires TorqueDefined() && wheelRadius != 0.0 && mass * wheelRadius != 0.0
      ensures limits.0 == -limits.1
    {
      var wheels := WheelSpeeds(curvature, velocity);
      var currentRight := NominalCurrent(transRight, wheels.right);
      var currentLeft := NominalCurrent(transLeft, wheels.left);
      var fwdRight := transRight.GetTorque(currentRight) / (mass * wheelRadius);
      var fwdLeft := transLeft.GetTorque(currentLeft) / (mass * wheelRadius);
      var rvsRight := transRight.GetTorque(-currentRight) / (mass * wheelRadius);
      var rvsLeft := transLeft.GetTorque(-currentLeft) / (mass * wheelRadius);
      TorqueOdd(transRight, currentRight);
      TorqueOdd(transLeft, currentLeft);
      NegDiv(transRight.GetTorque(currentRight), mass * wheelRadius);
      NegDiv(transLeft.GetTorque(currentLeft), mass * wheelRadius);
      ((rvsRight + rvsLeft) / 2.0, (fwdRight + fwdLeft) / 2.0)
    }

    /** The electrical model can be solved: free voltage, torque current and resistive voltage are defined. */
    predicate ElectricalDefined() {
      wheelRadius != 0.0 &&
      transLeft.stallCurrent != 0.0 && transLeft.freeSpeed != 0.0 && transLeft.stallTorque != 0.0 &&
      transRight.stallCurrent != 0.0 && transRight.freeSpeed != 0.0 && transRight.stallTorque != 0.0
    }
  }

  /**
   * linear_vel_limit's regimes: no linear speed in a point turn, the slower
   * wheel's top speed on a straight, and on a curve the mean of two wheel
   * speeds that are within their maxima and in the ratio the curvature demands.
   */
  lemma LinearVelLimitCases(c: Chassis, curvature: real)
    requires SpeedDefined(c.transLeft) && SpeedDefined(c.transRight)
    requires c.VelLimitDefined(curvature)
    ensures Abs(curvature) > AlmostInf ==> c.LinearVelLimit(curvature) == 0.0
    ensures Abs(curvature) < Epsilon ==>
      c.LinearVelLimit(curvature) == Min(c.MaximumVels().left, c.MaximumVels().right)
    ensures (c.Curved(curvature) && 0.0 <= c.MaximumVels().left && 0.0 <= c.MaximumVels().right &&
      0.0 < c.Ratio(curvature)) ==>
        var v := CurvedWheelVels(c.MaximumVels(), c.Ratio(curvature), curvature);
        v.left <= c.MaximumVels().left && v.right <= c.MaximumVels().right &&
        v.left == v.right * c.Ratio(curvature) &&
        c.LinearVelLimit(curvature) == (v.left + v.right) / 2.0
  {
    if c.Curved(curvature) && 0.0 <= c.MaximumVels().left && 0.0 <= c.MaximumVels().right && 0.0 < c.Ratio(curvature) {
      CurvedWheelVelsWithinMaxima(c.MaximumVels(), c.Ratio(curvature), curvature);
    }
  }

  /** The ratio is positive when |r*k| < 1, i.e. the turn centre lies outside the track. */
  lemma RatioPositive(c: Chassis, curvature: real)
    requires -1.0 < c.TurnFactor(curvature) < 1.0
    ensures 0.0 < c.Ratio(curvature)
  {
    QuotientSign(1.0 - c.TurnFactor(curvature), 1.0 + c.TurnFactor(curvature));
  }

  /**
   * Every curvature whose turn centre lies outside the track (|r*k| < 1)
   * admits the velocity limit, whatever the maxima.
   */
  lemma VelLimitDefinedOutsideTrack(c: Chassis, curvature: real)
    requires SpeedDefined(c.transLeft) && SpeedDefined(c.transRight)
    requires -1.0 < c.TurnFactor(curvature) < 1.0
    ensures c.VelLimitDefined(curvature)
  {
    RatioPositive(c, curvature);
  }

  /**
   * A turn about the left wheel (r*k == 1, chassis.h:121-139): the ratio is
   * 0, so the left wheel stands still, the cap is never taken and nothing is
   * divided by the ratio; the limit is half the right wheel's top speed.
   */
  lemma LeftWheelPivot(c: Chassis, curvature: real)
    requires SpeedDefined(c.transLeft) && SpeedDefined(c.transRight)
    requires c.Curved(curvature) && 0.0 < curvature && c.TurnFactor(curvature) == 1.0
    requires 0.0 <= c.MaximumVels().left
    ensures c.VelLimitDefined(curvature)
    ensures c.Ratio(curvature) == 0.0
    ensures c.LinearVelLimitAsWritten(curvature) == c.MaximumVels().right / 2.0
  {
    assert c.Ratio(curvature) == 0.0;
    assert !DividesByRatio(c.MaximumVels(), c.Ratio(curvature), curvature);
  }

  lemma NegDiv(x: real, d: real)
    requires d != 0.0
    ensures (-x) / d == -(x / d)
  {
  }

  /** At standstill the top acceleration is the mean stall torque over mass times wheel radius. */
  lemma AccelerationLimitsAtRest(c: Chassis, curvature: real)
    requires c.TorqueDefined() && c.wheelRadius != 0.0 && c.mass * c.wheelRadius != 0.0
    ensures c.AccelerationLimits(curvature, 0.0).1 ==
      (c.transRight.stallTorque / (c.mass * c.wheelRadius) + c.transLeft.stallTorque / (c.mass * c.wheelRadius)) / 2.0
  {
    assert c.WheelSpeeds(curvature, 0.0) == Sides(0.0, 0.0) by {
      assert 0.0 * curvature == 0.0;
    }
    StallPoint(c.transRight);
    StallPoint(c.transLeft);
    assert c.transRight.GetTorque(NominalCurrent(c.transRight, 0.0)) == c.transRight.stallTorque;
    assert c.transLeft.GetTorque(NominalCurrent(c.transLeft, 0.0)) == c.transLeft.stallTorque;
  }

  /**
   * do_solve_electrical (chassis.h:278-290): the wheel's current is the
   * current behind the torque its acceleration needs, and its voltage is the
   * back-EMF at its speed plus the resistive drop of that current.
   */
  method SolveElectrical(c: Chassis, wheel: WheelState, transmission: DcMotor) returns (solved: WheelState)
    requires c.wheelRadius != 0.0
    requires transmission.stallCurrent != 0.0 && transmission.freeSpeed != 0.0 && transmission.stallTorque != 0.0
    ensures solved == wheel.(voltage := solved.voltage, current := solved.current)
    ensures solved.current == transmission.GetTorqueCurrent(c.mass * wheel.kinematics.acceleration * c.wheelRadius)
    ensures solved.voltage ==
      transmission.GetFreeVoltage(wheel.kinematics.velocity / c.wheelRadius) + transmission.GetCurrentVoltage(solved.current)
  {
    var speed := wheel.kinematics.velocity / c.wheelRadius;
    var freeVoltage := transmission.GetFreeVoltage(speed);
    var torque := c.mass * wheel.kinematics.acceleration * c.wheelRadius;
    var current := transmission.GetTorqueCurrent(torque);
    var currentVoltage := transmission.GetCurrentVoltage(current);
    var totalVoltage := freeVoltage + currentVoltage;
    solved := wheel.(voltage := totalVoltage, current := current);
  }

  /**
   * split (chassis.h:220-269): the wheels share the centre's time and
   * finished flag, sit a track radius either side of the centre across the
   * heading, and move at the centre's velocity and acceleration plus and
   * minus the differential the turn requires; the electrical demand of each
   * is then solved. The wheels' distance is never written and stays 0.
   */
  method Split(c: Chassis, centre: State, math: Math) returns (left: WheelState, right: WheelState)
    requires c.ElectricalDefined()
    ensures left.time == centre.time && right.time == centre.time
    ensures left.finished == centre.finished && right.finished == centre.finished
    ensures Plus(left.position, right.position) == Times(Vec2(centre.config.x, centre.config.y), 2.0)
    ensures Minus(left.position, right.position) ==
      Times(Vec2(-math.sin(centre.config.heading), math.cos(centre.config.heading)), 2.0 * c.trackRadius)
    ensures (left.kinematics.velocity + right.kinematics.velocity) / 2.0 == centre.kinematics.velocity
    ensures right.kinematics.velocity - left.kinematics.velocity ==
      2.0 * centre.kinematics.velocity * centre.curvature * c.trackRadius
    ensures (left.kinematics.acceleration + right.kinematics.acceleration) / 2.0 == centre.kinematics.acceleration
    ensures right.kinematics.acceleration - left.kinematics.acceleration ==
      2.0 * c.trackRadius * (centre.kinematics.acceleration * centre.curvature +
        centre.kinematics.velocity * centre.kinematics.velocity * centre.dcurvature)
    ensures left.kinematics.distance == 0.0 && right.kinematics.distance == 0.0
    ensures left.current == c.transLeft.GetTorqueCurrent(c.mass * left.kinematics.acceleration * c.wheelRadius)
    ensures right.current == c.transRight.GetTorqueCurrent(c.mass * right.kinematics.acceleration * c.wheelRadius)
    ensures left.voltage == c.transLeft.GetFreeVoltage(left.kinematics.velocity / c.wheelRadius) +
      c.transLeft.GetCurrentVoltage(left.current)
    ensures right.voltage == c.transRight.GetFreeVoltage(right.kinematics.velocity / c.wheelRadius) +
      c.transRight.GetCurrentVoltage(right.current)
  {
    left, right := DefaultWheelState(), DefaultWheelState();
    left := left.(time := centre.time, finished := centre.finished);
    right := right.(time := centre.time, finished := centre.finished);

    var position := Vec2(centre.config.x, centre.config.y);
    var heading := centre.config.heading;
    var cos, sin := math.cos(heading), math.sin(heading);
    // rotation * (0, track radius)
    var offset := Vec2(-sin * c.trackRadius, cos * c.trackRadius);
    left := left.(position := Plus(position, offset));
    right := right.(position := Minus(position, offset));

    var vLinear := centre.kinematics.velocity;
    var vAngular := vLinear * centre.curvature;
    var vDifferential := vAngular * c.trackRadius;
    left := left.(kinematics := left.kinematics.(velocity := vLinear - vDifferential));
    right := right.(kinematics := right.kinematics.(velocity := vLinear + vDifferential));

    var aLinear := centre.kinematics.acceleration;
    var aAngular := aLinear * centre.curvature + vLinear * vLinear * centre.dcurvature;
    var aDifferential := aAngular * c.trackRadius;
    left := left.(kinematics := left.kinematics.(acceleration := aLinear - aDifferential));
    right := right.(kinematics := right.kinematics.(acceleration := aLinear + aDifferential));

    assert right.kinematics.velocity - left.kinematics.velocity == 2.0 * vDifferential;
    assert right.kinematics.acceleration - left.kinematics.acceleration == 2.0 * aDifferential;

    left := SolveElectrical(c, left, c.transLeft);
    right := SolveElectrical(c, right, c.transRight);
  }

  /**
   * The electrical solve inverts the motor model: at the solved voltage and
   * the wheel's speed the transmission draws exactly the solved current.
   */
  lemma SolvedCurrentIsDrawn(m: DcMotor, speed: real, current: real)
    requires m.Nondegenerate()
    ensures m.GetCurrent(m.GetFreeVoltage(speed) + m.GetCurrentVoltage(current), speed) == current
  {
    var r := m.InternalResistance();
    assert r != 0.0 by { assert r * m.stallCurrent == m.vNom by { DivCancel(m.stallCurrent, m.vNom); } }
    assert m.GetFreeVoltage(speed) + m.GetCurrentVoltage(current) - m.Kv() * speed == current * r;
    assert (current * r) / r == current;
  }
}
