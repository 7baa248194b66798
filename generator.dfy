/**
 * The causal trajectory generator of
 * Pathfinder/src/include/grpl/pf/coupled/causal_trajectory_generator.h: from
 * the last state of a coupled drivetrain it finds the curve of the path under
 * the distance travelled, configures the motion profile with the goal (the
 * path's length) and with the chassis's velocity and acceleration limits at
 * that point, and advances the kinematics by the profile.
 */
module Generator {
  import opened Wrappers
  import opened RealMath
  import opened Vectors
  import opened Paths
  import opened CoupledState
  import opened Chassis
  import Profile

  /** Sum of the lengths of a sequence of curves. */
  function TotalLength(curves: seq<Curve>): real {
    if curves == [] then 0.0 else TotalLength(curves[..|curves| - 1]) + curves[|curves| - 1].length
  }

  /** Curve j reaches the target distance: the path up to and including it is at least that long. */
  predicate Reaches(curves: seq<Curve>, j: nat, target: real)
    requires j < |curves|
  {
    curves[j].length + TotalLength(curves[..j]) >= target
  }

  /** The first curve at or after index i that reaches the target. */
  function FirstReachingFrom(curves: seq<Curve>, target: real, i: nat): (r: Option<nat>)
    requires i <= |curves|
    ensures r.Some? ==> i <= r.value < |curves| && Reaches(curves, r.value, target)
    decreases |curves| - i
  {
    if i == |curves| then None
    else if Reaches(curves, i, target) then Some(i)
    else FirstReachingFrom(curves, target, i + 1)
  }

  function FirstReaching(curves: seq<Curve>, target: real): (r: Option<nat>)
    ensures r.Some? ==> r.value < |curves|
  {
    FirstReachingFrom(curves, target, 0)
  }

  /**
   * find_curve (causal_trajectory_generator.h:112-133): the index of the
   * first curve whose cumulative length reaches the target, the distance
   * along it (the target itself when there is none), and the total length.
   */
  method FindCurve(target: real, curves: seq<Curve>) returns (found: Option<nat>, curveLen: real, totalLen: real)
    ensures found == FirstReaching(curves, target)
    ensures totalLen == TotalLength(curves)
    ensures curveLen == if found.Some? then target - TotalLength(curves[..found.value]) else target
  {
    found := None;
    curveLen := target;
    totalLen := 0.0;
    var i := 0;
    while i < |curves|
      invariant 0 <= i <= |curves|
      invariant totalLen == TotalLength(curves[..i])
      invariant found.None? ==> FirstReaching(curves, target) == FirstReachingFrom(curves, target, i) && curveLen == target
      invariant found.Some? ==>
        FirstReaching(curves, target) == found && found.value < i &&
        curveLen == target - TotalLength(curves[..found.value])
    {
      var len := curves[i].length;
      if found.None? && len + totalLen >= target {
        curveLen := target - totalLen;
        found := Some(i);
      }
      totalLen := totalLen + len;
      assert curves[..i + 1][..i] == curves[..i];
      i := i + 1;
    }
    assert curves[..i] == curves;
  }

  /** FirstReachingFrom finds a reaching curve with no reaching curve between i and it, and finds none only when there is none. */
  lemma {:induction false} FirstReachingFromSpec(curves: seq<Curve>, target: real, i: nat)
    requires i <= |curves|
    ensures var r := FirstReachingFrom(curves, target, i);
      (r.Some? ==>
        i <= r.value < |curves| && Reaches(curves, r.value, target) &&
        forall j :: i <= j < r.value ==> !Reaches(curves, j, target)) &&
      (r.None? <==> forall j :: i <= j < |curves| ==> !Reaches(curves, j, target))
    decreases |curves| - i
  {
    if i < |curves| && !Reaches(curves, i, target) {
      FirstReachingFromSpec(curves, target, i + 1);
    }
  }

  /**
   * The curve found is the first that reaches the target; the distance along
   * it is at most its length, and positive unless it is the first curve.
   */
  lemma FoundCurve(curves: seq<Curve>, target: real)
    requires FirstReaching(curves, target).Some?
    ensures var j := FirstReaching(curves, target).value;
      var local := target - TotalLength(curves[..j]);
      j < |curves| && Reaches(curves, j, target) &&
      (forall i :: 0 <= i < j ==> !Reaches(curves, i, target)) &&
      local <= curves[j].length &&
      (j > 0 ==> local > 0.0)
  {
    FirstReachingFromSpec(curves, target, 0);
    var j := FirstReaching(curves, target).value;
    if j > 0 {
      assert !Reaches(curves, j - 1, target);
      assert curves[..j][..j - 1] == curves[..j - 1];
    }
  }

  /** The total length only grows along a path of curves with nonnegative lengths. */
  lemma {:induction false} TotalLengthMonotone(curves: seq<Curve>, n: nat)
    requires n <= |curves|
    requires forall i :: 0 <= i < |curves| ==> curves[i].length >= 0.0
    ensures TotalLength(curves[..n]) <= TotalLength(curves)
    decreases |curves| - n
  {
    if n < |curves| {
      TotalLengthMonotone(curves, n + 1);
      assert curves[..n + 1][..n] == curves[..n];
    } else {
      assert curves[..n] == curves;
    }
  }

  /**
   * With nonnegative curve lengths, no curve is found exactly when the path
   * is empty or the target lies strictly beyond its end (the lookup compares
   * with >=).
   */
  lemma NotFoundIffPastEnd(curves: seq<Curve>, target: real)
    requires forall i :: 0 <= i < |curves| ==> curves[i].length >= 0.0
    ensures FirstReaching(curves, target).None? <==> curves == [] || target > TotalLength(curves)
  {
    FirstReachingFromSpec(curves, target, 0);
    if FirstReaching(curves, target).None? && curves != [] {
      var last := |curves| - 1;
      assert !Reaches(curves, last, target);
      assert curves[..last] == curves[..|curves| - 1];
    }
    if FirstReaching(curves, target).Some? {
      var j := FirstReaching(curves, target).value;
      TotalLengthMonotone(curves, j + 1);
      assert curves[..j + 1][..j] == curves[..j];
      assert TotalLength(curves[..j + 1]) == TotalLength(curves[..j]) + curves[j].length;
    }
  }

  /** The chassis's transmissions and dimensions admit the divisions its limits make at any curvature. */
  predicate ChassisDefined(c: Chassis) {
    SpeedDefined(c.transLeft) && SpeedDefined(c.transRight) &&
    c.TorqueDefined() && c.wheelRadius != 0.0 && c.mass * c.wheelRadius != 0.0
  }

  /**
   * The limits at a curvature divide by zero nowhere: the velocity limit is
   * defined there, and the reverse acceleration limit the profile divides by
   * is nonzero.
   */
  predicate Limitable(c: Chassis, curvature: real, velocity: real)
    requires ChassisDefined(c)
  {
    c.VelLimitDefined(curvature) && c.AccelerationLimits(curvature, velocity).0 != 0.0
  }

  /**
   * No division by zero at the one point generate samples: the curve under
   * the distance travelled, at the distance along it.
   */
  predicate Followable(c: Chassis, curves: seq<Curve>, distance: real, velocity: real) {
    FirstReaching(curves, distance).Some? ==>
      var j := FirstReaching(curves, distance).value;
      ChassisDefined(c) && Limitable(c, curves[j].curvature(distance - TotalLength(curves[..j])), velocity)
  }

  function ToProfileState(s: State): Profile.State {
    Profile.State(s.time, Profile.Kinematics(s.kinematics.distance, s.kinematics.velocity, s.kinematics.acceleration))
  }

  function FromProfileKinematics(k: Profile.Kinematics): KinematicState {
    KinematicState(k.position, k.velocity, k.acceleration)
  }

  /**
   * generate (causal_trajectory_generator.h:53-106). Past the end of the path
   * the last state is returned marked finished and the profile is left
   * alone. Otherwise the profile's goal becomes the path length, its velocity
   * limits [-v, v] for the chassis's linear velocity limit v (as written, so
   * without the right-wheel cap of negative curvature) at the curvature
   * under the last distance, its acceleration limits the chassis's at that
   * curvature and the last velocity; the output carries the profile's
   * kinematics at `time`, with curvature, dcurvature and configuration
   * sampled at the last distance.
   */
  method Generate(c: Chassis, curves: seq<Curve>, profile: Profile.TrapezoidalProfile, last: State, time: real, math: Math)
    returns (output: State)
    requires profile.Valid() && Followable(c, curves, last.kinematics.distance, last.kinematics.velocity)
    modifies profile, profile.limits
    ensures profile.Valid() && profile.timeslice == old(profile.timeslice)
    ensures FirstReaching(curves, last.kinematics.distance).None? ==>
      output == last.(finished := true) && unchanged(profile) && unchanged(profile.limits)
    ensures FirstReaching(curves, last.kinematics.distance).Some? ==>
      var j := FirstReaching(curves, last.kinematics.distance).value;
      j < |curves| &&
      var s := last.kinematics.distance - TotalLength(curves[..j]);
      var k := curves[j].curvature(s);
      var v := c.LinearVelLimitAsWritten(k);
      profile.goal == TotalLength(curves) &&
      profile.limits[0, 0] == old(profile.limits[0, 0]) && profile.limits[1, 0] == old(profile.limits[1, 0]) &&
      profile.limits[0, 1] == -v && profile.limits[1, 1] == v &&
      (profile.limits[0, 2], profile.limits[1, 2]) == c.AccelerationLimits(k, last.kinematics.velocity) &&
      output.time == time && !output.finished &&
      output.curvature == k && output.dcurvature == curves[j].dcurvature(s) &&
      output.config == Configuration(curves[j].position(s).x, curves[j].position(s).y,
        math.atan2(curves[j].rotation(s).y, curves[j].rotation(s).x)) &&
      output.kinematics == FromProfileKinematics(Profile.Run(ToProfileState(last),
        Profile.NatOf(Profile.SliceCount(time - last.time, profile.timeslice)), profile.goal,
        profile.CurrentLimits(), Profile.Timestep(time - last.time, profile.timeslice), time).kinematics) &&
      (last.time <= time && 0.0 <= v ==> -v <= output.kinematics.velocity <= v)
  {
    var distance := last.kinematics.distance;
    var found, curveDistance, totalLength := FindCurve(distance, curves);
    if found.None? {
      output := last.(finished := true);
      return;
    }
    FoundCurve(curves, distance);
    var curve := curves[found.value];

    profile.SetGoal(totalLength);

    var centre := curve.position(curveDistance);
    var centreRot := curve.rotation(curveDistance);
    var curvature := curve.curvature(curveDistance);
    var dcurvature := curve.dcurvature(curveDistance);

    var heading := math.atan2(centreRot.y, centreRot.x);
    var config := Configuration(centre.x, centre.y, heading);

    assert Limitable(c, curves[found.value].curvature(curveDistance), last.kinematics.velocity);
    var limitVel := c.LinearVelLimitAsWritten(curvature);
    var limitAcc := c.AccelerationLimits(curvature, last.kinematics.velocity);

    profile.ApplyLimit(1, -limitVel, limitVel);
    profile.ApplyLimit(2, limitAcc.0, limitAcc.1);

    var profState := ToProfileState(last);
    profState := profile.Calculate(profState, time);

    output := State(time, curvature, dcurvature, config, FromProfileKinematics(profState.kinematics), false);
  }
}
