# Pathfinder trajectory core in Dafny

This project models the trajectory pipeline of Pathfinder, a motion-planning
library for differential-drive ("coupled") robots. It also proves properties
of that model.

The pipeline runs in five stages:

- **Hermite splines.** Cubic and quintic splines are built through waypoints.
- **Arc parameterization.** Each spline is cut into augmented arcs, whose
  curvature varies linearly with arc length. The bisection stops once each
  arc is short enough and its end curvatures are close enough.
- **Trapezoidal profile.** A time-sliced motion profile advances distance,
  velocity and acceleration towards a goal within limits.
- **Chassis.** A chassis with two DC-motor transmissions turns a curvature
  into a linear velocity limit and an acceleration envelope. It also splits
  a centre state into left and right wheel states and solves each wheel's
  electrical state.
- **Causal trajectory generator.** The generator finds the curve under the
  current distance, reconfigures the profile and advances it by one step.

The Java side's value classes (`Vec2` and the coupled state classes) encode
states as flat `double[]` arrays. They are modelled as datatypes with
encode and decode functions.

Modules, one per source header or Java class group:

| module | models |
|---|---|
| `Constants`, `RealMath`, `Wrappers` | numeric constants; abstract trig/sqrt record; `Option` |
| `Vectors` | `Vec2.java` and the 2-vector algebra used by the C++ core |
| `Paths` | the spline and curve interfaces (`spline.h`, `curve.h`) as records of closures |
| `Hermite` | `path/hermite.h` |
| `Arcs` | `path/augmented_arc.h` over an abstract three-point circle fit |
| `Parameterizer` | `path/arc_parameterizer.h` |
| `Profile` | `profile/profile.h` and `profile/trapezoidal.h` |
| `ModelTransmission` | `model/transmission.h` (the `dc_transmission` interface the chassis calls) |
| `Transmission`, `Dc` | `transmission/transmission.h` and `transmission/dc.h` |
| `CoupledState` | `coupled/state.h` |
| `Chassis` | `coupled/chassis.h` |
| `Generator` | `coupled/causal_trajectory_generator.h` |
| `JavaStates` | `CoupledKinematicState`, `CoupledConfigurationState`, `CoupledState`, `CoupledWheelState` and their native encoders |

The model follows each source file's own form:

- Pure expressions become functions.
- Objects whose fields change become classes:
  - `Hermite.Hermite`, with the control matrix as an `array<Vec2>`;
  - `Arcs.AugmentedArc`;
  - `Parameterizer.ArcParameterizer`;
  - `Profile.TrapezoidalProfile`, with the limits as an `array2<real>`.
- Loops become methods with loop invariants, each proved against a
  specification function:
  - `hermite_factory::generate`;
  - the trapezoidal slice loop;
  - `find_curve`;
  - the container overloads of the parameterizer;
  - the Java `toArray` loops.

Doubles are modelled as mathematical reals throughout.

Where the documentation and the code disagree, the model follows the code:

- The slice count of the trapezoidal profile is not a ceiling, although
  `Pathfinder-Java/src/main/java/grpl/pathfinder/profile/Profile.java:70-76`
  describes one. The code at `Pathfinder/src/include/grpl/pf/profile/trapezoidal.h:35-43`
  truncates dt/timeslice and adds one only if the fractional part exceeds 0.9
  (`Profile.SliceCountNotCeiling`).
- `trapezoidal.h` and `causal_trajectory_generator.h` use a non-template
  `profile::profile` and `profile::state`. These differ from the templated
  `profile<LIM_TERM>` in `profile.h`. Both are modelled as the single class
  `Profile.TrapezoidalProfile`, with a 2×3 limits matrix (limited term:
  acceleration).

## Model

| member | source | states |
|---|---|---|
| `Vectors.Cartesian` | Pathfinder-Java/src/main/java/grpl/pathfinder/Vec2.java:49-51 | the vector built has exactly the given x and y |
| `Vectors.CartesianFromArray` | Pathfinder-Java/src/main/java/grpl/pathfinder/Vec2.java:53-55 | an array shorter than two has no vector (the Java code throws); otherwise the components are xy[0] and xy[1] |
| `Vectors.Xy` | Pathfinder-Java/src/main/java/grpl/pathfinder/Vec2.java:28-30 | the two components, x first; decoding them with cartesian gives the vector back (`Vectors.CartesianXyRoundTrip`) |
| `Vectors.Plus` | Pathfinder-Java/src/main/java/grpl/pathfinder/Vec2.java:37-39 | componentwise sum; minus undoes it and zero is its identity (`Vectors.PlusMinusCancel`, `Vectors.ZeroIsOrigin`) |
| `Vectors.Minus` | Pathfinder-Java/src/main/java/grpl/pathfinder/Vec2.java:41-43 | componentwise difference; plus undoes it (`Vectors.PlusMinusCancel`) |
| `Vectors.Times` | Pathfinder-Java/src/main/java/grpl/pathfinder/Vec2.java:45-47 | each component times the scalar (`Vectors.Componentwise`) |
| `Vectors.CartesianXyRoundTrip` | Pathfinder-Java/src/main/java/grpl/pathfinder/Vec2.java:28-30 | cartesian(v.xy()) is v again |
| `Vectors.PlusMinusCancel` | Pathfinder-Java/src/main/java/grpl/pathfinder/Vec2.java:37-43 | minus undoes plus, and plus undoes minus |
| `Vectors.Componentwise` | Pathfinder-Java/src/main/java/grpl/pathfinder/Vec2.java:37-47 | plus, minus and times act per component; plus is commutative |
| `Vectors.ZeroIsOrigin` | Pathfinder-Java/src/main/java/grpl/pathfinder/Vec2.java:61-63 | zero() is (0, 0) and is the identity of plus |
| `Vectors.ApproxEqReflexive` | Pathfinder-Java/src/main/java/grpl/pathfinder/Vec2.java:65-72 | tolerance equality (each component within 1e-6) is reflexive |
| `Vectors.ApproxEqSymmetric` | Pathfinder-Java/src/main/java/grpl/pathfinder/Vec2.java:65-72 | tolerance equality is symmetric |
| `Vectors.ApproxEqNotTransitive` | Pathfinder-Java/src/main/java/grpl/pathfinder/Vec2.java:65-72 | three concrete vectors where a≈b and b≈c but not a≈c |
| `Hermite.Columns` | Pathfinder/src/include/grpl/pf/path/hermite.h:177-184 | the control-matrix columns: start position, tangent (and dtangent for quintic), then the same for the end; ORDER+1 columns |
| `Hermite.CubicBasisPolynomials` | Pathfinder/src/include/grpl/pf/path/hermite.h:120-128 | each cubic basis entry is the polynomial with the listed coefficients |
| `Hermite.CubicBasis1stIsDerivative` | Pathfinder/src/include/grpl/pf/path/hermite.h:130-134 | each cubic first-derivative basis entry is the formal derivative of the basis polynomial |
| `Hermite.CubicBasis2ndIsDerivative` | Pathfinder/src/include/grpl/pf/path/hermite.h:136-138 | each cubic second-derivative basis entry is the second formal derivative |
| `Hermite.QuinticBasisPolynomials` | Pathfinder/src/include/grpl/pf/path/hermite.h:187-201 | each quintic basis entry is the polynomial with the listed coefficients |
| `Hermite.QuinticBasis1stIsDerivative` | Pathfinder/src/include/grpl/pf/path/hermite.h:203-211 | each quintic first-derivative entry is the formal derivative of the basis polynomial |
| `Hermite.QuinticBasis2ndIsDerivative` | Pathfinder/src/include/grpl/pf/path/hermite.h:213-219 | each quintic second-derivative entry is the second formal derivative |
| `Hermite.BasisDerivatives` | Pathfinder/src/include/grpl/pf/path/hermite.h:120-219 | for either order, basis, basis_1st and basis_2nd are a polynomial and its first and second derivatives |
| `Hermite.Interpolates` | Pathfinder/src/include/grpl/pf/path/hermite.h:52-56 | at t=0 and t=1 the position and derivative are the waypoints' positions and tangents; for quintic the second derivative is their dtangents |
| `Hermite.CurvatureSign` | Pathfinder/src/include/grpl/pf/path/hermite.h:58-62 | for a nonzero derivative the curvature is defined, its sign is the sign of cross(derivative, derivative2), and its square times the squared norm of the derivative cubed is that cross product squared, so sign and square fix its value |
| `Hermite.Hermite.constructor` | Pathfinder/src/include/grpl/pf/path/hermite.h:104 | a fresh control matrix holding the waypoint columns; the resulting spline interpolates both waypoints |
| `Hermite.Hermite.SetWaypoints` | Pathfinder/src/include/grpl/pf/path/hermite.h:112-117 | the control matrix becomes the waypoint columns |
| `Hermite.Hermite.Curvature` | Pathfinder/src/include/grpl/pf/path/hermite.h:58-62 | the sign of the curvature is the turning direction (left positive), and k² times the squared norm of the derivative cubed = cross(derivative, derivative2)², which fixes k = cross over the norm cubed |
| `Hermite.Hermite.AsSpline` | Pathfinder/src/include/grpl/pf/path/hermite.h:52-62 | the spline interface agrees with position and curvature wherever the curvature is defined |
| `Hermite.Generate` | Pathfinder/src/include/grpl/pf/path/hermite.h:224-237 | nothing for an empty range or a capacity below the waypoint count; otherwise n−1 fresh splines, spline i from waypoint i to i+1 |
| `Arcs.AugmentedArc.FromThree` | Pathfinder/src/include/grpl/pf/path/augmented_arc.h:30 | the base arc is the circle fit; before set_curvature the curvature is the base arc's constant curvature |
| `Arcs.AugmentedArc.WithCurvature` | Pathfinder/src/include/grpl/pf/path/augmented_arc.h:43-46 | three-point construction followed by set_curvature: curvature(0)=k0, curvature(L)=k1 |
| `Arcs.AugmentedArc.SetCurvature` | Pathfinder/src/include/grpl/pf/path/augmented_arc.h:54-58 | only the interpolation fields change; curvature is affine with slope (k1−k0)/L, equal to k0 at 0 and k1 at L |
| `Arcs.AugmentedArc.AsCurve` | Pathfinder/src/include/grpl/pf/path/augmented_arc.h:60-67 | the curve interface agrees with the arc's length, position, curvature and dcurvature |
| `Arcs.AugmentedArc.Curvature` | Pathfinder/src/include/grpl/pf/path/augmented_arc.h:60-65 | the interpolated k0 + s·dk/ds once set_curvature has run, the base arc's curvature before; its ends are stated by `Arcs.AugmentedArc.SetCurvature` |
| `Arcs.InterpolationEnds` | Pathfinder/src/include/grpl/pf/path/augmented_arc.h:60-62 | the linear interpolation starts at k0 and ends at k1 |
| `Parameterizer.LeavesWithinBounds` | Pathfinder/src/include/grpl/pf/path/arc_parameterizer.h:119-130 | every emitted arc has \|Δk\| ≤ max_delta_curvature, length ≤ max_arc_length and nonzero length |
| `Parameterizer.LeavesChain` | Pathfinder/src/include/grpl/pf/path/arc_parameterizer.h:113-129 | the arcs tile [t_lo, t_hi] left to right, carry the spline's curvature at their ends, and consecutive arcs share the end curvature |
| `Parameterizer.LeavesIncreasing` | Pathfinder/src/include/grpl/pf/path/arc_parameterizer.h:121-126 | arcs come out in increasing t order within [t_lo, t_hi] |
| `Parameterizer.ArcsCurvatureContinuous` | Pathfinder/src/include/grpl/pf/path/arc_parameterizer.h:128-129 | arc[i].curvature(length) equals arc[i+1].curvature(0) |
| `Parameterizer.BudgetSplit` | Pathfinder/src/include/grpl/pf/path/arc_parameterizer.h:124-125 | giving the second half the budget left by the first emits min(total, budget) and overruns exactly when the total exceeds the budget |
| `Parameterizer.ArcParameterizer.Configure` | Pathfinder/src/include/grpl/pf/path/arc_parameterizer.h:41-44 | sets the two bounds and leaves the overrun flag |
| `Parameterizer.ArcParameterizer.CurveCount` | Pathfinder/src/include/grpl/pf/path/arc_parameterizer.h:56-72 | the count is the number of arcs the bisection ends with, added to the running count |
| `Parameterizer.ArcParameterizer.Parameterize` | Pathfinder/src/include/grpl/pf/path/arc_parameterizer.h:104-132 | returns min(curve_count, budget) arcs, the first ones of the bisection, each fresh with its curvature set; a budget of 0 gives 0 and an overrun; an ample budget gives curve_count and no overrun, a smaller one fewer and an overrun; the bounds are unchanged |
| `Parameterizer.ArcParameterizer.CurveCountAll` | Pathfinder/src/include/grpl/pf/path/arc_parameterizer.h:82-89 | the total is the number of arcs of all splines in order |
| `Parameterizer.ArcParameterizer.ParameterizeAll` | Pathfinder/src/include/grpl/pf/path/arc_parameterizer.h:146-154 | the splines' arcs in order, cut at the budget; overrun exactly when the total exceeds it |
| `Profile.TruncToInt` | Pathfinder/src/include/grpl/pf/profile/trapezoidal.h:38 | static_cast<int> truncates toward zero |
| `Profile.Clamp` | Pathfinder/src/include/grpl/pf/profile/trapezoidal.h:88 | with lo ≤ hi the result is in [lo, hi], and a value already inside is unchanged |
| `Profile.SliceCount` | Pathfinder/src/include/grpl/pf/profile/trapezoidal.h:33-43 | the slice count; its bounds are `Profile.SliceCountBounds` |
| `Profile.SliceAccel` | Pathfinder/src/include/grpl/pf/profile/trapezoidal.h:61-84 | the acceleration one slice applies; `Profile.ChooseAccel` computes it and shows it is accel_min, accel_max or 0 |
| `Profile.Slice` | Pathfinder/src/include/grpl/pf/profile/trapezoidal.h:55-90 | one slice of the loop; its bounds are `Profile.SliceProperties` |
| `Profile.Run` | Pathfinder/src/include/grpl/pf/profile/trapezoidal.h:54-91 | the slice loop as a fold; its bounds are `Profile.RunProperties` and `Profile.RunAtRest` |
| `Profile.SliceEnd` | Pathfinder/src/include/grpl/pf/profile/trapezoidal.h:55-56 | a slice never ends after the requested time |
| `Profile.SliceCountBounds` | Pathfinder/src/include/grpl/pf/profile/trapezoidal.h:33-43 | for dt ≥ 0 at least one slice; with a positive timeslice the count is floor(dt/ts), plus one if the fraction exceeds 0.9, and at least 1 |
| `Profile.SliceCountNotCeiling` | Pathfinder/src/include/grpl/pf/profile/trapezoidal.h:36-40 | 2.5 timeslices give 2 slices, not the ceiling 3 |
| `Profile.SliceProperties` | Pathfinder/src/include/grpl/pf/profile/trapezoidal.h:57-90 | one slice: time becomes t, velocity within the limits, acceleration one of accel_min, accel_max or 0, position advanced by the pre-clamp average velocity |
| `Profile.RunProperties` | Pathfinder/src/include/grpl/pf/profile/trapezoidal.h:54-91 | after one or more slices, the same bounds hold for the final state |
| `Profile.RunAtRest` | Pathfinder/src/include/grpl/pf/profile/trapezoidal.h:61-90 | a state at rest on the goal stays at rest there with acceleration 0 |
| `Profile.SliceAtRest` | Pathfinder/src/include/grpl/pf/profile/trapezoidal.h:61-90 | one slice from rest on the goal keeps position, velocity 0 and acceleration 0 |
| `Profile.Slicing` | Pathfinder/src/include/grpl/pf/profile/trapezoidal.h:31-43 | computes the slice count and timestep; at least one slice for dt ≥ 0 |
| `Profile.ChooseAccel` | Pathfinder/src/include/grpl/pf/profile/trapezoidal.h:61-84 | the acceleration choice; always accel_min, accel_max or 0 |
| `Profile.Step` | Pathfinder/src/include/grpl/pf/profile/trapezoidal.h:55-90 | one loop iteration computes the slice function |
| `Profile.TrapezoidalProfile.constructor` | Pathfinder/src/include/grpl/pf/profile/profile.h:30 | default timeslice 0.001 and a fresh 2×3 limits matrix |
| `Profile.TrapezoidalProfile.LimitedTerm` | Pathfinder/src/include/grpl/pf/profile/trapezoidal.h:28 | the limited term is ACCELERATION (2) |
| `Profile.TrapezoidalProfile.SetGoal` | Pathfinder/src/include/grpl/pf/profile/profile.h:20 | the goal becomes the argument and nothing else changes |
| `Profile.TrapezoidalProfile.SetTimeslice` | Pathfinder/src/include/grpl/pf/profile/profile.h:24 | the timeslice becomes the argument and nothing else changes |
| `Profile.TrapezoidalProfile.ApplyLimit` | Pathfinder/src/include/grpl/pf/profile/profile.h:48-51 | limits(0,d)=min, limits(1,d)=max, every other column unchanged |
| `Profile.TrapezoidalProfile.GetLimits` | Pathfinder/src/include/grpl/pf/profile/profile.h:53 | a 2×3 copy of the current limits |
| `Profile.TrapezoidalProfile.Calculate` | Pathfinder/src/include/grpl/pf/profile/trapezoidal.h:30-93 | the result is the slice function folded over the slice count; velocity within [vel_min, vel_max], acceleration one of the limits or 0, time never past `time`, exactly `time` when the timeslice is not positive; goal and limits untouched |
| `ModelTransmission.DcMotor.InternalResistance` | Pathfinder/src/include/grpl/pf/model/transmission.h:34 | V_nom / I_stall; `ModelTransmission.StallPoint` shows the stall current it implies |
| `ModelTransmission.DcMotor.Kv` | Pathfinder/src/include/grpl/pf/model/transmission.h:35 | the speed constant; `ModelTransmission.FreeVoltageRoundTrip` inverts it |
| `ModelTransmission.DcMotor.Kt` | Pathfinder/src/include/grpl/pf/model/transmission.h:36 | the torque constant; `ModelTransmission.TorqueCurrentRoundTrip` inverts it |
| `ModelTransmission.DcMotor.GetCurrent` | Pathfinder/src/include/grpl/pf/model/transmission.h:40-46 | the current whose drop across the winding is the voltage the back-EMF leaves: I·R = V − kv·w |
| `ModelTransmission.DcMotor.GetTorque` | Pathfinder/src/include/grpl/pf/model/transmission.h:48-51 | the torque T with kt·T = I |
| `ModelTransmission.DcMotor.GetFreeSpeed` | Pathfinder/src/include/grpl/pf/model/transmission.h:53-56 | the speed whose back-EMF is the whole voltage: kv·w = V |
| `ModelTransmission.DcMotor.GetFreeVoltage` | Pathfinder/src/include/grpl/pf/model/transmission.h:58-61 | the back-EMF kv·w; inverse of get_free_speed (`ModelTransmission.FreeVoltageRoundTrip`) |
| `ModelTransmission.DcMotor.GetCurrentVoltage` | Pathfinder/src/include/grpl/pf/model/transmission.h:63-66 | the winding drop I·R; with the back-EMF it makes up the voltage (`ModelTransmission.VoltageSplit`) |
| `ModelTransmission.DcMotor.GetTorqueCurrent` | Pathfinder/src/include/grpl/pf/model/transmission.h:68-71 | kt·T; inverse of get_torque (`ModelTransmission.TorqueCurrentRoundTrip`) |
| `ModelTransmission.TorqueCurrentRoundTrip` | Pathfinder/src/include/grpl/pf/model/transmission.h:48-71 | get_torque and get_torque_current are inverse in both directions |
| `ModelTransmission.TorqueOdd` | Pathfinder/src/include/grpl/pf/model/transmission.h:48-51 | torque of −I is −torque of I; zero current gives zero torque |
| `ModelTransmission.FreeSpeedDrawsNoCurrent` | Pathfinder/src/include/grpl/pf/model/transmission.h:40-56 | a motor at its free speed draws no current |
| `ModelTransmission.FreeVoltageRoundTrip` | Pathfinder/src/include/grpl/pf/model/transmission.h:53-61 | get_free_voltage and get_free_speed are inverse in both directions |
| `ModelTransmission.VoltageSplit` | Pathfinder/src/include/grpl/pf/model/transmission.h:40-66 | free voltage at a speed plus the voltage of the current drawn is the applied voltage |
| `ModelTransmission.StallPoint` | Pathfinder/src/include/grpl/pf/model/transmission.h:34-51 | at nominal voltage and zero speed the current is the stall current and the torque the stall torque |
| `Dc.NewDcMotor` | Pathfinder/src/include/grpl/pf/transmission/dc.h:26-36 | stores the datasheet values; rint·I_stall = V_nom, kt·τ_stall = I_stall, kw·ω_free + I_free·rint = V_nom |
| `Dc.DcMotor.FreeSpeed` | Pathfinder/src/include/grpl/pf/transmission/dc.h:72-75 | the free speed w with kw·w = signal·V_nom; the signal defaults to 1 as in transmission.h:43 |
| `Dc.DcMotor.Torque` | Pathfinder/src/include/grpl/pf/transmission/dc.h:77-85 | the torque T whose current kt·T drops across the winding what the back-EMF leaves: kt·T·R = signal·V_nom − kw·w; the signal defaults to 1 as in transmission.h:52 |
| `Dc.DcMotor.PartialSignalAtSpeed` | Pathfinder/src/include/grpl/pf/transmission/dc.h:89-92 | the signal share whose voltage is the back-EMF: share·V_nom = kw·w |
| `Dc.DcMotor.PartialSignalAtTorque` | Pathfinder/src/include/grpl/pf/transmission/dc.h:94-99 | the signal share whose voltage is the winding drop: share·V_nom = kt·T·R |
| `Dc.DcMotor.SignalToVoltage` | Pathfinder/src/include/grpl/pf/transmission/dc.h:109 | signal·V_nom; full signal is the nominal voltage (`Dc.SignalVoltage`) |
| `Dc.DcMotor.SignalToCurrent` | Pathfinder/src/include/grpl/pf/transmission/dc.h:118-121 | the current whose drop plus the back-EMF is the signal's voltage: I·R + kw·w = signal·V_nom |
| `Dc.DcMotor.TorqueToCurrent` | Pathfinder/src/include/grpl/pf/transmission/dc.h:129-132 | kt·T; equals signal_to_current where the torque is produced (`Dc.CurrentMatchesTorque`) |
| `Dc.PartialSignalInvertsFreeSpeed` | Pathfinder/src/include/grpl/pf/transmission/dc.h:72-92 | partial_signal_at_speed(free_speed(s)) = s |
| `Dc.PartialSignalsSum` | Pathfinder/src/include/grpl/pf/transmission/dc.h:77-99 | the speed and torque partial signals sum to the signal |
| `Dc.NoTorqueAtFreeSpeed` | Pathfinder/src/include/grpl/pf/transmission/dc.h:72-85 | torque(free_speed(s), s) = 0 |
| `Dc.StallTorque` | Pathfinder/src/include/grpl/pf/transmission/dc.h:26-85 | a constructed motor gives the stall torque at zero speed and full signal |
| `Dc.CurrentMatchesTorque` | Pathfinder/src/include/grpl/pf/transmission/dc.h:118-132 | signal_to_current(w, s) = torque_to_current(torque(w, s)) |
| `Dc.SignalVoltage` | Pathfinder/src/include/grpl/pf/transmission/dc.h:89-109 | full signal is nominal voltage; the voltage of the speed's partial signal is the back-EMF kw·w |
| `Dc.AsTransmission` | Pathfinder/src/include/grpl/pf/transmission/transmission.h:55-74 | the dc motor meets the transmission interface's inverse contracts |
| `Transmission.RpmToRad` | Pathfinder/src/include/grpl/pf/transmission/transmission.h:13-15 | keeps the sense of rotation: positive, zero and negative speeds stay so |
| `Transmission.RadToRpm` | Pathfinder/src/include/grpl/pf/transmission/transmission.h:17-19 | undoes rpm_to_rad: rpm_to_rad(rad_to_rpm(w)) = w |
| `Transmission.RpmRadRoundTrip` | Pathfinder/src/include/grpl/pf/transmission/transmission.h:13-19 | rpm_to_rad and rad_to_rpm are inverse in both directions |
| `Transmission.RpmToRadLinear` | Pathfinder/src/include/grpl/pf/transmission/transmission.h:13-15 | rpm_to_rad is linear and maps 0 to 0 |
| `CoupledState.DefaultState` | Pathfinder/src/include/grpl/pf/coupled/state.h:51-63 | all numerics zero and finished false |
| `CoupledState.DefaultWheelState` | Pathfinder/src/include/grpl/pf/coupled/state.h:70-91 | time, position, kinematics, voltage and current zero; finished false |
| `Chassis.CurvedWheelVelsAsWritten` | Pathfinder/src/include/grpl/pf/coupled/chassis.h:126-154 | the curved branch as written: the wheels keep v_l = v_r·ratio and one wheel runs at its maximum; it divides by the ratio only where `Chassis.DividesByRatio` says the code does |
| `Chassis.CurvedWheelVels` | Pathfinder/src/include/grpl/pf/coupled/chassis.h:126-154 | the curved branch with the right-wheel cap in place: v_l = v_r·ratio and one wheel at its maximum |
| `Chassis.Chassis.MaximumVels` | Pathfinder/src/include/grpl/pf/coupled/chassis.h:95-98 | each wheel's top linear speed, at which its motor draws no current at nominal voltage |
| `Chassis.Chassis.Ratio` | Pathfinder/src/include/grpl/pf/coupled/chassis.h:113-121 | the ratio v_l/v_r solving v_r·(1 − r·k) = v_l·(1 + r·k) |
| `Chassis.Chassis.LinearVelLimitAsWritten` | Pathfinder/src/include/grpl/pf/coupled/chassis.h:90-159 | linear_vel_limit as written: equal to the corrected limit except on curves of negative curvature, where it is (max_l + max_l/ratio)/2 whatever the right wheel's maximum |
| `Chassis.Chassis.LinearVelLimit` | Pathfinder/src/include/grpl/pf/coupled/chassis.h:90-159 | linear_vel_limit with the right-wheel cap: with nonnegative maxima and a positive ratio it lies between 0 and the mean of the maxima |
| `Chassis.Chassis.WheelSpeeds` | Pathfinder/src/include/grpl/pf/coupled/chassis.h:181-190 | wheel angular speeds whose mean, times the wheel radius, is v and whose difference is the turn's differential 2·v·k·r |
| `Chassis.Chassis.AccelerationLimits` | Pathfinder/src/include/grpl/pf/coupled/chassis.h:179-212 | the (min, max) acceleration from the wheels' torques at nominal voltage; with the linear dc_motor min = −max |
| `Chassis.CurvedWheelVelsWithinMaxima` | Pathfinder/src/include/grpl/pf/coupled/chassis.h:121-154 | corrected curved branch: both wheel speeds within their maxima and v_l = v_r·ratio |
| `Chassis.CurvedWheelVelsAsWrittenNegative` | Pathfinder/src/include/grpl/pf/coupled/chassis.h:140-154 | as written, negative curvature always pins the left wheel and takes right = left/ratio |
| `Chassis.CurvedWheelVelsAsWrittenExceedsRight` | Pathfinder/src/include/grpl/pf/coupled/chassis.h:147-152 | an input where the code as written exceeds the right maximum and the corrected code does not |
| `Chassis.LinearVelLimitCases` | Pathfinder/src/include/grpl/pf/coupled/chassis.h:90-159 | 0 beyond almost_inf curvature; min of the wheel maxima below epsilon; otherwise the mean of two wheel speeds within their maxima in the demanded ratio |
| `Chassis.RatioPositive` | Pathfinder/src/include/grpl/pf/coupled/chassis.h:121 | the wheel ratio is positive when \|r·k\| < 1 |
| `Chassis.VelLimitDefinedOutsideTrack` | Pathfinder/src/include/grpl/pf/coupled/chassis.h:113-121 | every curvature with \|r·k\| < 1 admits the velocity limit |
| `Chassis.LeftWheelPivot` | Pathfinder/src/include/grpl/pf/coupled/chassis.h:121-157 | a turn about the left wheel (r·k = 1): ratio 0, nothing divided by it, and the limit is half the right wheel's top speed |
| `Chassis.AccelerationLimitsAtRest` | Pathfinder/src/include/grpl/pf/coupled/chassis.h:190-200 | at zero velocity, max is the mean stall torque over mass × wheel radius |
| `Chassis.SolveElectrical` | Pathfinder/src/include/grpl/pf/coupled/chassis.h:278-290 | only voltage and current change; current = get_torque_current(m·a·r_wheel), voltage = free voltage at v/r_wheel + current voltage |
| `Chassis.SolvedCurrentIsDrawn` | Pathfinder/src/include/grpl/pf/coupled/chassis.h:278-290 | at the solved voltage the motor draws exactly the solved current |
| `Chassis.Split` | Pathfinder/src/include/grpl/pf/coupled/chassis.h:220-269 | time and finished copied; positions mid at the centre and apart by 2·r along the heading normal; velocity mean v and difference 2·v·k·r; acceleration mean a and difference 2·r·(a·k + v²·dk); distance 0; electrical state solved per wheel |
| `Generator.FirstReachingFrom` | Pathfinder/src/include/grpl/pf/coupled/causal_trajectory_generator.h:120-131 | a found index is in range and its cumulative length reaches the target |
| `Generator.FirstReachingFromSpec` | Pathfinder/src/include/grpl/pf/coupled/causal_trajectory_generator.h:120-131 | the index found is the first reaching one, and nothing is found exactly when no curve reaches |
| `Generator.FirstReaching` | Pathfinder/src/include/grpl/pf/coupled/causal_trajectory_generator.h:120-131 | the index found is in range; `Generator.FirstReachingFromSpec` shows it is the first reaching curve |
| `Generator.TotalLength` | Pathfinder/src/include/grpl/pf/coupled/causal_trajectory_generator.h:118-130 | the sum of the curves' lengths; no prefix is longer when lengths are nonnegative (`Generator.TotalLengthMonotone`) |
| `Generator.FindCurve` | Pathfinder/src/include/grpl/pf/coupled/causal_trajectory_generator.h:112-133 | finds the first reaching curve; local distance = target − preceding lengths; total = sum of all lengths |
| `Generator.FoundCurve` | Pathfinder/src/include/grpl/pf/coupled/causal_trajectory_generator.h:126-129 | the local distance is at most the found curve's length, and positive unless it is the first curve |
| `Generator.TotalLengthMonotone` | Pathfinder/src/include/grpl/pf/coupled/causal_trajectory_generator.h:122-126 | with nonnegative lengths a prefix is never longer than the whole path |
| `Generator.NotFoundIffPastEnd` | Pathfinder/src/include/grpl/pf/coupled/causal_trajectory_generator.h:61-69 | no curve exactly when the path is empty or the target is strictly past its end |
| `Generator.Generate` | Pathfinder/src/include/grpl/pf/coupled/causal_trajectory_generator.h:53-106 | not found: last with finished set, profile untouched; found: goal = total length, velocity limits ±v for v the chassis's linear_vel_limit as written (`Chassis.Chassis.LinearVelLimitAsWritten`), acceleration limits of the chassis, kinematics from calculate, curvature and configuration sampled at the last distance, velocity within ±v |
| `JavaStates.DefaultKinematics` | Pathfinder-Java/src/main/java/grpl/pathfinder/coupled/CoupledKinematicState.java:24-28 | all fields 0 |
| `JavaStates.KinematicsFromArray` | Pathfinder-Java/src/main/java/grpl/pathfinder/coupled/CoupledKinematicState.java:36-38 | an array shorter than three has no state (the Java code throws) |
| `JavaStates.KinematicsRoundTrip` | Pathfinder-Java/src/main/java/grpl/pathfinder/coupled/CoupledKinematicState.java:36-42 | decoding toArray gives the state back; encoding a decoded length-3 array gives the array back |
| `JavaStates.KinematicsApproxEqProperties` | Pathfinder-Java/src/main/java/grpl/pathfinder/coupled/CoupledKinematicState.java:44-52 | tolerance equality is reflexive and symmetric |
| `JavaStates.DefaultConfiguration` | Pathfinder-Java/src/main/java/grpl/pathfinder/coupled/CoupledConfigurationState.java:26-29 | position zero and heading 0 |
| `JavaStates.ConfigurationFromArray` | Pathfinder-Java/src/main/java/grpl/pathfinder/coupled/CoupledConfigurationState.java:40-42 | an array shorter than three has no state |
| `JavaStates.ConfigurationRoundTrip` | Pathfinder-Java/src/main/java/grpl/pathfinder/coupled/CoupledConfigurationState.java:36-46 | decoding toArray gives the state back, and back again |
| `JavaStates.ConfigurationApproxEqProperties` | Pathfinder-Java/src/main/java/grpl/pathfinder/coupled/CoupledConfigurationState.java:48-55 | Vec2 tolerance equality plus heading tolerance is reflexive and symmetric |
| `JavaStates.DefaultJavaState` | Pathfinder-Java/src/main/java/grpl/pathfinder/coupled/CoupledState.java:36-43 | all numerics zero and finished false |
| `JavaStates.EncodeState` | Pathfinder-Java/src/main/java/grpl/pathfinder/coupled/CoupledState.java:69-83 | the layout has ten entries |
| `JavaStates.DecodeState` | Pathfinder-Java/src/main/java/grpl/pathfinder/coupled/CoupledState.java:55-67 | fewer than ten entries give no state; finished decodes as arr[9] > 0.5 |
| `JavaStates.StateToArray` | Pathfinder-Java/src/main/java/grpl/pathfinder/coupled/CoupledState.java:69-83 | the index loops fill a fresh array with the encoding |
| `JavaStates.StateRoundTrip` | Pathfinder-Java/src/main/java/grpl/pathfinder/coupled/CoupledState.java:55-83 | decoding the encoding reproduces every field, finished included |
| `JavaStates.StateReencode` | Pathfinder-Java/src/main/java/grpl/pathfinder/coupled/CoupledState.java:63-81 | re-encoding a decoded array gives it back exactly when it has ten entries and arr[9] is 0 or 1 |
| `JavaStates.NativeStateLayout` | Pathfinder-Java/src/native/cpp/coupled/coupled_causaltrajgen.cpp:18-31 | the native encoder and decoder use the same layout as the Java class |
| `JavaStates.EncodeWheel` | Pathfinder-Java/src/main/java/grpl/pathfinder/coupled/CoupledWheelState.java:62-77 | the layout has nine entries |
| `JavaStates.DecodeWheel` | Pathfinder-Java/src/main/java/grpl/pathfinder/coupled/CoupledWheelState.java:48-60 | fewer than nine entries give no state; finished decodes as arr[8] > 0.5 |
| `JavaStates.WheelToArray` | Pathfinder-Java/src/main/java/grpl/pathfinder/coupled/CoupledWheelState.java:62-77 | the index loops fill a fresh array with the encoding |
| `JavaStates.WheelRoundTrip` | Pathfinder-Java/src/main/java/grpl/pathfinder/coupled/CoupledWheelState.java:48-77 | decoding the encoding reproduces every field |
| `JavaStates.NativeWheelLayout` | Pathfinder-Java/src/native/cpp/coupled/coupled_drivetrain.cpp:47-58 | the native wheel encoder uses the Java layout, and the Java decoder inverts it |

## Left out

- Trigonometry, `sqrt`, `pow` and `atan2` have no Dafny definition. They are
  fields of the record `RealMath.Math`, passed in as parameters. Only the
  predicate `IsSqrt` is assumed of `sqrt`, and only where a proof needs it.
  The rotation matrix in `split` and the heading in `generate` use these
  parameters.
- The three-point circle fit `arc2d` (`Pathfinder/src/include/grpl/pf/path/arc.h`)
  needs `atan2` and `cos`. It is the abstract closure `Arcs.CircleFit`, so
  arc position and length are whatever it returns.
- JNI and native-handle plumbing, the Java wrapper classes around native
  objects, and callbacks into Java are left out. The native encoders and
  decoders are modelled only as the array layouts they use.
- The equality methods' `instanceof` checks are not modelled: in Dafny the
  argument type is fixed.
- Doubles are reals: no rounding, overflow, infinities or NaN. Every division
  the code evaluates without a check becomes a precondition of the member that
  evaluates it. This covers stall current and torque, free speed, kv, arc
  length, accel_min, wheel radius and mass, 1 + r·k on a curve, and the wheel
  ratio wherever the wheel speeds divide by it (`Chassis.DividesByRatio`;
  a turn about the left wheel, r·k = 1, divides by neither). In
  `Generator.Generate` these are required only when a curve is found, and
  then at the point it samples, in the predicate `Followable`.
- Chassis.Chassis.LinearVelLimit, `Chassis.Chassis.LinearVelLimitAsWritten`
  and `Chassis.Chassis.VelLimitDefined` require both motors' free-speed
  constants on every call, even beyond almost_inf where chassis.h:92 returns
  0 before dividing. At the curvature generate samples, the acceleration
  limits divide by the same stall current and free speed, so only kv ≠ 0 is
  extra there.
- The `transmission` interface's default signal of 1 (transmission.h:43 and
  :52) is the default argument of `Dc.DcMotor.FreeSpeed` and
  `Dc.DcMotor.Torque`; the closures of the `Transmission.Transmission` record
  always take the signal.
- The arc parameterizer has no depth or degeneracy guard, so its recursion
  need not end. Every recursive member takes a ghost `depth` and requires
  `Bottoms`: the bisection finishes within `depth` levels. Nothing is claimed
  about termination in general.
- Output iterators are modelled as appending to a sequence, as
  `std::back_inserter` does. This is how the callers use them.
- Default constructors of `hermite` and `augmented_arc2d` (zero matrices,
  unset fields), `set_control_matrix` and `get_control_matrix` are not
  modelled.
- `Vec2.magnitude`, `angle`, `unit` and `polar` are not modelled; they need
  sqrt and trig.
- `Hermite.Hermite.AsSpline`: its curvature closure is defined where the
  derivative's norm is nonzero. Its contract relates the closure to
  `Curvature` only there.
- `Chassis.Split`: states the wheel offset as 2·r along (−sin h, cos h) but
  not that its length is 2·r. That would need sin² + cos² = 1 of the
  abstract trig.
- `Profile.TrapezoidalProfile.Calculate`: its velocity bound needs
  last.time ≤ time and vel_min ≤ vel_max. These are the conditions under
  which the code's loop runs at least once and its clamp lands inside the
  limits.
- `CoupledWheelState`'s field constructor is the datatype constructor of
  `CoupledState.WheelState`; it has no separate member.
- The chassis is modelled over the `dc_transmission` interface of
  `model/transmission.h`, through its only implementation
  `ModelTransmission.DcMotor`. The `transmission` interface of
  `transmission/transmission.h` is stated as the predicate
  `Transmission.Conforms`, and `Dc.DcMotor` is shown to meet it.
- Convergence of the profile to its goal, and completion of the whole
  pipeline in bounded time, are numerical-simulation claims. They are not
  modelled.

## Findings

| source | as written | input that shows it | evidently intended | confidence | as-written member | corrected member |
|---|---|---|---|---|---|---|
| Pathfinder/src/include/grpl/pf/coupled/chassis.h:147 | in the negative-curvature branch the guard re-tests the left wheel (`wheel_vels[0] > maximum_vels[0]`), which never holds right after line 143 sets it to its maximum, so the right wheel is never capped | maxima (left 2, right 1), track radius and curvature giving ratio 1.5 with k = −0.2: right = 2/1.5 > 1 | test the right wheel (`wheel_vels[1] > maximum_vels[1]`), then cap it and set left = right·ratio, mirroring lines 133-138; `Chassis.Chassis.LinearVelLimit` uses the corrected branch, while `Generator.Generate` calls the limit as written, as causal_trajectory_generator.h:87 does | not executed | `Chassis.CurvedWheelVelsAsWrittenExceedsRight` | `Chassis.CurvedWheelVelsWithinMaxima` |
