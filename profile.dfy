/**
 * Motion profiles (Pathfinder/src/include/grpl/pf/profile/profile.h and
 * trapezoidal.h): a configuration of goal, timeslice and a 2 x 3 limits
 * matrix (rows min and max, columns position, velocity, acceleration), and
 * the trapezoidal profile's time-sliced step towards the goal.
 */
module Profile {
  import opened RealMath
  import opened Constants

  /** Position, velocity and acceleration of the profiled quantity. */
  datatype Kinematics = Kinematics(position: real, velocity: real, acceleration: real)

  datatype State = State(time: real, kinematics: Kinematics)

  /** The limits the trapezoidal profile uses: the velocity and acceleration columns. */
  datatype SliceLimits = SliceLimits(velMin: real, velMax: real, accelMin: real, accelMax: real)

  /** `static_cast<int>` of a double: truncation toward zero. */
  function TruncToInt(x: real): (n: int)
    ensures 0.0 <= x ==> n as real <= x < n as real + 1.0
    ensures x < 0.0 ==> n as real - 1.0 < x <= n as real
  {
    if 0.0 <= x then x.Floor else -((-x).Floor)
  }

  /** Number of slices `calculate` takes over `dt` (trapezoidal.h:33-43). */
  function SliceCount(dt: real, timeslice: real): int {
    if timeslice > 0.0 then
      var d := dt / timeslice;
      var n := TruncToInt(d);
      var n' := if d - n as real > 0.9 then n + 1 else n;
      if n' < 1 then n' + 1 else n'
    else
      1
  }

  /** Length of one slice: the timeslice when it is positive, otherwise the whole interval. */
  function Timestep(dt: real, timeslice: real): real {
    if timeslice > 0.0 then timeslice else dt
  }

  /** The clamp of trapezoidal.h:67 and :88: the upper bound is tested first. */
  function Clamp(v: real, lo: real, hi: real): (r: real)
    ensures lo <= hi ==> lo <= r <= hi
    ensures lo <= v <= hi ==> r == v
  {
    if v > hi then hi else if v < lo then lo else v
  }

  /** End time of slice i: start + i * timestep, capped at the target time. */
  function SliceEnd(start: real, i: int, timestep: real, time: real): (t: real)
    ensures t <= time
  {
    var t := start + i as real * timestep;
    if t > time then time else t
  }

  /** Velocity after dt at constant acceleration a. */
  function Accelerate(v: real, a: real, dt: real): real {
    v + a * dt
  }

  /** Distance covered in dt from velocity v at constant acceleration a. */
  function Displacement(v: real, a: real, dt: real): real {
    v * dt + 0.5 * a * dt * dt
  }

  /** Distance covered while braking from v to rest at the (negative) acceleration accelMin. */
  function DecelDistance(v: real, accelMin: real): real
    requires accelMin != 0.0
  {
    var decelTime := v / -accelMin;
    v * decelTime + 0.5 * accelMin * decelTime * decelTime
  }

  /** Acceleration chosen for one slice (trapezoidal.h:61-84). */
  function SliceAccel(kin: Kinematics, dt: real, goal: real, lim: SliceLimits): real
    requires lim.accelMin != 0.0
  {
    var error := kin.position - goal;
    var accel := if error < 0.0 then lim.accelMax else lim.accelMin;
    var vProjected := Clamp(Accelerate(kin.velocity, accel, dt), lim.velMin, lim.velMax);
    var decelError := kin.position + DecelDistance(vProjected, lim.accelMin) - goal;
    var crossesZero := (error > 0.0 && decelError < 0.0) || (error < 0.0 && decelError > 0.0);
    var notDecelerating := (error < 0.0 && kin.velocity > 0.0) || (error > 0.0 && kin.velocity < 0.0);
    if crossesZero && notDecelerating then
      (if accel < 0.0 then lim.accelMax else lim.accelMin)
    else if Abs(kin.velocity - lim.velMax) < DefaultAcceptableError then
      0.0
    else if Abs(error) < DefaultAcceptableError then
      0.0
    else
      accel
  }

  /** One slice of the loop of trapezoidal.h:54-91, advancing `cur` to time t. */
  function Slice(cur: State, t: real, goal: real, lim: SliceLimits): State
    requires lim.accelMin != 0.0
  {
    var dt := t - cur.time;
    var kin := cur.kinematics;
    var accel := SliceAccel(kin, dt, goal, lim);
    State(t, Kinematics(
      kin.position + Displacement(kin.velocity, accel, dt),
      Clamp(Accelerate(kin.velocity, accel, dt), lim.velMin, lim.velMax),
      accel))
  }

  /** The state after the first n slices starting from `last`. */
  function Run(last: State, n: nat, goal: real, lim: SliceLimits, timestep: real, time: real): State
    requires lim.accelMin != 0.0
  {
    if n == 0 then last
    else Slice(Run(last, n - 1, goal, lim, timestep, time), SliceEnd(last.time, n, timestep, time), goal, lim)
  }

  function NatOf(n: int): nat {
    if n < 0 then 0 else n
  }

  /** With a nonnegative interval the loop runs at least once; for a positive timeslice the count is
      the whole number of slices, plus one only when the leftover fraction exceeds 0.9. */
  lemma SliceCountBounds(dt: real, timeslice: real)
    requires 0.0 <= dt
    ensures SliceCount(dt, timeslice) >= 1
    ensures timeslice > 0.0 ==>
      var d := dt / timeslice;
      (d - d.Floor as real > 0.9 ==> SliceCount(dt, timeslice) == d.Floor + 1) &&
      (d - d.Floor as real <= 0.9 && 1 <= d.Floor ==> SliceCount(dt, timeslice) == d.Floor)
  {
    if timeslice > 0.0 {
      assert 0.0 <= dt / timeslice;
    }
  }

  /** The count is not a ceiling: 2.5 slices' worth of time runs 2 slices. */
  lemma SliceCountNotCeiling()
    ensures SliceCount(2.5, 1.0) == 2
  {
    assert TruncToInt(2.5) == 2;
  }

  /**
   * One slice keeps velocity within [velMin, velMax], picks acceleration
   * accelMin, accelMax or 0, ends at t, and integrates position exactly for
   * constant acceleration from the velocity before clamping.
   */
  lemma SliceProperties(cur: State, t: real, goal: real, lim: SliceLimits)
    requires lim.accelMin != 0.0
    ensures var next, dt := Slice(cur, t, goal, lim), t - cur.time;
      next.time == t &&
      (lim.velMin <= lim.velMax ==> lim.velMin <= next.kinematics.velocity <= lim.velMax) &&
      next.kinematics.acceleration in {lim.accelMin, lim.accelMax, 0.0} &&
      next.kinematics.position ==
        cur.kinematics.position + dt * (cur.kinematics.velocity + (cur.kinematics.velocity + next.kinematics.acceleration * dt)) / 2.0
  {
  }

  /** After at least one slice the result obeys the slice bounds and does not pass the target time. */
  lemma RunProperties(last: State, n: nat, goal: real, lim: SliceLimits, timestep: real, time: real)
    requires lim.accelMin != 0.0 && n >= 1
    ensures var cur := Run(last, n, goal, lim, timestep, time);
      cur.time <= time &&
      (lim.velMin <= lim.velMax ==> lim.velMin <= cur.kinematics.velocity <= lim.velMax) &&
      cur.kinematics.acceleration in {lim.accelMin, lim.accelMax, 0.0}
  {
    SliceProperties(Run(last, n - 1, goal, lim, timestep, time), SliceEnd(last.time, n, timestep, time), goal, lim);
  }

  /** At rest exactly on the goal, with 0 an allowed velocity, every slice keeps the state at rest. */
  lemma {:induction false} RunAtRest(last: State, n: nat, goal: real, lim: SliceLimits, timestep: real, time: real)
    requires lim.accelMin != 0.0 && lim.velMin <= 0.0 <= lim.velMax
    requires last.kinematics.position == goal && last.kinematics.velocity == 0.0
    ensures var cur := Run(last, n, goal, lim, timestep, time);
      cur.kinematics.position == goal && cur.kinematics.velocity == 0.0 &&
      (n >= 1 ==> cur.kinematics.acceleration == 0.0)
  {
    if n > 0 {
      RunAtRest(last, n - 1, goal, lim, timestep, time);
      var prev := Run(last, n - 1, goal, lim, timestep, time);
      SliceAtRest(prev, SliceEnd(last.time, n, timestep, time), goal, lim);
    }
  }

  lemma SliceAtRest(cur: State, t: real, goal: real, lim: SliceLimits)
    requires lim.accelMin != 0.0 && lim.velMin <= 0.0 <= lim.velMax
    requires cur.kinematics == Kinematics(goal, 0.0, cur.kinematics.acceleration)
    ensures Slice(cur, t, goal, lim).kinematics == Kinematics(goal, 0.0, 0.0)
  {
    var dt := t - cur.time;
    assert SliceAccel(cur.kinematics, dt, goal, lim) == 0.0;
  }

  /** How `calculate` divides the interval dt: the slice count and the step length (trapezoidal.h:33-45). */
  method Slicing(dt: real, timeslice: real) returns (sliceCount: int, timestep: real)
    ensures sliceCount == SliceCount(dt, timeslice) && timestep == Timestep(dt, timeslice)
    ensures 0.0 <= dt ==> sliceCount >= 1
  {
    timestep := dt;
    sliceCount := 1;
    if timeslice > 0.0 {
      var sliceCountD := dt / timeslice;
      sliceCount := TruncToInt(sliceCountD);
      if sliceCountD - sliceCount as real > 0.9 {
        sliceCount := sliceCount + 1;
      }
      if sliceCount < 1 {
        sliceCount := sliceCount + 1;
      }
      timestep := timeslice;
    }
    if 0.0 <= dt {
      SliceCountBounds(dt, timeslice);
    }
  }

  /** The acceleration decision of one slice, computed step by step as the source does. */
  method ChooseAccel(kin: Kinematics, dt: real, goal: real, lim: SliceLimits) returns (accel: real)
    requires lim.accelMin != 0.0
    ensures accel == SliceAccel(kin, dt, goal, lim)
    ensures accel in {lim.accelMin, lim.accelMax, 0.0}
  {
    var error := kin.position - goal;
    accel := if error < 0.0 then lim.accelMax else lim.accelMin;
    var vProjected := Accelerate(kin.velocity, accel, dt);
    vProjected := Clamp(vProjected, lim.velMin, lim.velMax);
    var decelDist := DecelDistance(vProjected, lim.accelMin);
    var decelError := kin.position + decelDist - goal;
    var decelCrossErrorZeros := (error > 0.0 && decelError < 0.0) || (error < 0.0 && decelError > 0.0);
    var decelNotInProgress := (error < 0.0 && kin.velocity > 0.0) || (error > 0.0 && kin.velocity < 0.0);
    if decelCrossErrorZeros && decelNotInProgress {
      accel := if accel < 0.0 then lim.accelMax else lim.accelMin;
    } else if Abs(kin.velocity - lim.velMax) < DefaultAcceptableError {
      accel := 0.0;
    } else if Abs(error) < DefaultAcceptableError {
      accel := 0.0;
    }
  }

  /** The body of one slice of the loop: choose the acceleration, then integrate and clamp. */
  method Step(cur: State, t: real, goal: real, lim: SliceLimits) returns (next: State)
    requires lim.accelMin != 0.0
    ensures next == Slice(cur, t, goal, lim)
  {
    var dt := t - cur.time;
    var kin := cur.kinematics;
    var accel := ChooseAccel(kin, dt, goal, lim);
    var vel := Accelerate(kin.velocity, accel, dt);
    var position := kin.position + Displacement(kin.velocity, accel, dt);
    next := State(t, Kinematics(position, Clamp(vel, lim.velMin, lim.velMax), accel));
  }

  /**
   * The trapezoidal profile with its configuration: goal, timeslice
   * (0.001 by default) and the limits matrix.
   */
  class TrapezoidalProfile {
    var goal: real
    var timeslice: real
    const limits: array2<real>

    ghost predicate Valid()
      reads this
    {
      limits.Length0 == 2 && limits.Length1 == 3
    }

    constructor ()
      ensures Valid() && fresh(limits) && timeslice == 0.001
    {
      timeslice := 0.001;
      limits := new real[2, 3];
    }

    /** The highest derivative the profile limits: acceleration. */
    function LimitedTerm(): (term: nat)
      ensures term == Acceleration && term < 3
    {
      Acceleration
    }

    method SetGoal(sp: real)
      modifies this`goal
      ensures goal == sp
    {
      goal := sp;
    }

    function GetGoal(): real
      reads this
    {
      goal
    }

    method SetTimeslice(ts: real)
      modifies this`timeslice
      ensures timeslice == ts
    {
      timeslice := ts;
    }

    function GetTimeslice(): real
      reads this
    {
      timeslice
    }

    /** Sets the min and max of one derivative's column; every other entry is kept. */
    method ApplyLimit(derivative: int, min: real, max: real)
      requires Valid() && 0 <= derivative < 3
      modifies limits
      ensures limits[0, derivative] == min && limits[1, derivative] == max
      ensures forall r, c :: 0 <= r < 2 && 0 <= c < 3 && c != derivative ==> limits[r, c] == old(limits[r, c])
    {
      limits[0, derivative] := min;
      limits[1, derivative] := max;
    }

    /** The limits matrix as rows [min; max]. */
    function GetLimits(): (m: seq<seq<real>>)
      reads this, limits
      requires Valid()
      ensures |m| == 2 && |m[0]| == 3 && |m[1]| == 3
      ensures forall r, c :: 0 <= r < 2 && 0 <= c < 3 ==> m[r][c] == limits[r, c]
    {
      [[limits[0, 0], limits[0, 1], limits[0, 2]], [limits[1, 0], limits[1, 1], limits[1, 2]]]
    }

    function CurrentLimits(): SliceLimits
      reads this, limits
      requires Valid()
    {
      SliceLimits(limits[0, 1], limits[1, 1], limits[0, 2], limits[1, 2])
    }

    /**
     * trapezoidal::calculate: advances a copy of `last` towards the goal in
     * slices up to `time`. Reads the configuration and changes nothing.
     */
    method Calculate(last: State, time: real) returns (cur: State)
      requires Valid() && limits[0, 2] != 0.0
      ensures cur == Run(last, NatOf(SliceCount(time - last.time, timeslice)), goal, CurrentLimits(),
        Timestep(time - last.time, timeslice), time)
      ensures last.time <= time && limits[0, 1] <= limits[1, 1] ==>
        limits[0, 1] <= cur.kinematics.velocity <= limits[1, 1]
      ensures last.time <= time ==> cur.kinematics.acceleration in {limits[0, 2], limits[1, 2], 0.0}
      ensures last.time <= time ==> cur.time <= time
      ensures timeslice <= 0.0 ==> cur.time == time
    {
      var sliceCount, timestep := Slicing(time - last.time, timeslice);
      var lim := SliceLimits(limits[0, 1], limits[1, 1], limits[0, 2], limits[1, 2]);
      cur := last;
      var startTime := cur.time;
      var i := 1;
      while i <= sliceCount
        invariant 1 <= i <= NatOf(sliceCount) + 1
        invariant cur == Run(last, i - 1, goal, lim, timestep, time)
      {
        var t := SliceEnd(startTime, i, timestep, time);
        cur := Step(cur, t, goal, lim);
        i := i + 1;
      }
      assert i - 1 == NatOf(sliceCount);
      if last.time <= time {
        SliceCountBounds(time - last.time, timeslice);
        RunProperties(last, sliceCount, goal, lim, timestep, time);
      }
      if timeslice <= 0.0 && sliceCount >= 1 {
        assert cur.time == SliceEnd(last.time, 1, timestep, time);
      }
    }
  }
}
