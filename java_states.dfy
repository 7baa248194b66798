/**
 * The Java value classes of the coupled drivetrain
 * (Pathfinder-Java/src/main/java/grpl/pathfinder/coupled/Coupled*State.java)
 * and their flat `double[]` encodings, which cross the native boundary. A
 * Java array too short for a decoding constructor throws; that is `None`
 * here.
 */
module JavaStates {
  import opened Wrappers
  import opened RealMath
  import opened Vectors
  import opened CoupledState

  // === CoupledKinematicState: the same three fields as the native kinematic state ===

  /** The default constructor: at rest at distance 0. */
  function DefaultKinematics(): (k: KinematicState)
    ensures k.distance == 0.0 && k.velocity == 0.0 && k.acceleration == 0.0
  {
    KinematicState(0.0, 0.0, 0.0)
  }

  function KinematicsToArray(k: KinematicState): seq<real> {
    [k.distance, k.velocity, k.acceleration]
  }

  function KinematicsFromArray(arr: seq<real>): (r: Option<KinematicState>)
    ensures r.None? <==> |arr| < 3
  {
    if |arr| < 3 then None else Some(KinematicState(arr[0], arr[1], arr[2]))
  }

  /** `equals`: every field differs by less than 1e-6. */
  predicate KinematicsApproxEq(a: KinematicState, b: KinematicState) {
    Abs(b.distance - a.distance) < Tolerance &&
    Abs(b.velocity - a.velocity) < Tolerance &&
    Abs(b.acceleration - a.acceleration) < Tolerance
  }

  /** The array constructor inverts `toArray`, and `toArray` inverts it on three-element arrays. */
  lemma KinematicsRoundTrip(k: KinematicState, arr: seq<real>)
    ensures KinematicsFromArray(KinematicsToArray(k)) == Some(k)
    ensures |arr| == 3 ==> KinematicsToArray(KinematicsFromArray(arr).value) == arr
  {
  }

  /** Tolerance equality is reflexive and symmetric, and exact for equal values. */
  lemma KinematicsApproxEqProperties(a: KinematicState, b: KinematicState)
    ensures KinematicsApproxEq(a, a)
    ensures KinematicsApproxEq(a, b) <==> KinematicsApproxEq(b, a)
  {
  }

  // === CoupledConfigurationState ===

  datatype ConfigurationState = ConfigurationState(position: Vec2, heading: real)

  /** The default constructor: at the origin with heading 0. */
  function DefaultConfiguration(): (c: ConfigurationState)
    ensures c.position == Zero() && c.heading == 0.0
  {
    ConfigurationState(Zero(), 0.0)
  }

  function ConfigurationToArray(c: ConfigurationState): seq<real> {
    [c.position.x, c.position.y, c.heading]
  }

  function ConfigurationFromArray(arr: seq<real>): (r: Option<ConfigurationState>)
    ensures r.None? <==> |arr| < 3
  {
    if |arr| < 3 then None else Some(ConfigurationState(Cartesian(arr[0], arr[1]), arr[2]))
  }

  /** `equals`: tolerance equality of the positions and of the headings. */
  predicate ConfigurationApproxEq(a: ConfigurationState, b: ConfigurationState) {
    ApproxEq(a.position, b.position) && Abs(b.heading - a.heading) < Tolerance
  }

  lemma ConfigurationRoundTrip(c: ConfigurationState, arr: seq<real>)
    ensures ConfigurationFromArray(ConfigurationToArray(c)) == Some(c)
    ensures |arr| == 3 ==> ConfigurationToArray(ConfigurationFromArray(arr).value) == arr
  {
  }

  lemma ConfigurationApproxEqProperties(a: ConfigurationState, b: ConfigurationState)
    ensures ConfigurationApproxEq(a, a)
    ensures ConfigurationApproxEq(a, b) <==> ConfigurationApproxEq(b, a)
  {
  }

  // === CoupledState ===

  datatype JavaState = JavaState(
    time: real,
    curvature: real,
    dcurvature: real,
    config: ConfigurationState,
    kinematics: KinematicState,
    finished: bool)

  /** The default constructor: all numbers 0, not finished. */
  function DefaultJavaState(): (s: JavaState)
    ensures s.time == 0.0 && s.curvature == 0.0 && s.dcurvature == 0.0
    ensures s.config == DefaultConfiguration() && s.kinematics == DefaultKinematics() && !s.finished
  {
    JavaState(0.0, 0.0, 0.0, DefaultConfiguration(), DefaultKinematics(), false)
  }

  function FlagToReal(b: bool): real {
    if b then 1.0 else 0.0
  }

  /** The ten-element layout [time, curvature, dcurvature, x, y, heading, distance, velocity, acceleration, finished]. */
  function EncodeState(s: JavaState): (arr: seq<real>)
    ensures |arr| == 10
  {
    [s.time, s.curvature, s.dcurvature] + ConfigurationToArray(s.config) + KinematicsToArray(s.kinematics) +
      [FlagToReal(s.finished)]
  }

  /** The array constructor; any flag element above 0.5 reads as finished. */
  function DecodeState(arr: seq<real>): (r: Option<JavaState>)
    ensures r.None? <==> |arr| < 10
    ensures r.Some? ==> r.value.finished == (arr[9] > 0.5)
  {
    if |arr| < 10 then None
    else
      var con := [arr[3], arr[4], arr[5]];
      var kin := [arr[6], arr[7], arr[8]];
      Some(JavaState(arr[0], arr[1], arr[2], ConfigurationFromArray(con).value, KinematicsFromArray(kin).value,
        arr[9] > 0.5))
  }

  /**
   * `toArray`: a fresh ten-element array filled field by field, with the
   * configuration and kinematics copied in by index loops.
   */
  method StateToArray(s: JavaState) returns (arr: array<real>)
    ensures fresh(arr) && arr[..] == EncodeState(s)
  {
    var kinArr := KinematicsToArray(s.kinematics);
    var conArr := ConfigurationToArray(s.config);
    arr := new real[4 + |kinArr| + |conArr|];
    arr[0] := s.time;
    arr[1] := s.curvature;
    arr[2] := s.dcurvature;
    for i := 0 to |conArr|
      invariant arr[..3] == [s.time, s.curvature, s.dcurvature]
      invariant arr[3..3 + i] == conArr[..i]
    {
      arr[3 + i] := conArr[i];
    }
    for i := 0 to |kinArr|
      invariant arr[..6] == [s.time, s.curvature, s.dcurvature] + conArr
      invariant arr[6..6 + i] == kinArr[..i]
    {
      arr[6 + i] := kinArr[i];
    }
    arr[9] := if s.finished then 1.0 else 0.0;
    assert arr[..] == arr[..6] + arr[6..9] + [arr[9]];
  }

  /** Decoding an encoded state gives back every field, the finished flag included. */
  lemma StateRoundTrip(s: JavaState)
    ensures DecodeState(EncodeState(s)) == Some(s)
  {
  }

  /** Re-encoding a decoded array reproduces it exactly when it has ten elements and a 0 or 1 flag. */
  lemma StateReencode(arr: seq<real>)
    requires |arr| >= 10
    ensures EncodeState(DecodeState(arr).value) == arr <==> |arr| == 10 && (arr[9] == 0.0 || arr[9] == 1.0)
  {
    var e := EncodeState(DecodeState(arr).value);
    if |arr| == 10 && (arr[9] == 0.0 || arr[9] == 1.0) {
      assert forall i :: 0 <= i < 10 ==> e[i] == arr[i];
    }
    if e == arr {
      assert e[9] == arr[9];
    }
  }

  // === The native side's encoding of the C++ state ===

  /** The Java view of a native state: x and y become a position vector. */
  function FromNative(s: State): JavaState {
    JavaState(s.time, s.curvature, s.dcurvature,
      ConfigurationState(Cartesian(s.config.x, s.config.y), s.config.heading), s.kinematics, s.finished)
  }

  function ToNative(s: JavaState): State {
    State(s.time, s.curvature, s.dcurvature, Configuration(s.config.position.x, s.config.position.y, s.config.heading),
      s.kinematics, s.finished)
  }

  /** state_to_java (coupled_causaltrajgen.cpp:18-31): the native encoder. */
  function NativeEncodeState(s: State): seq<real> {
    [s.time, s.curvature, s.dcurvature, s.config.x, s.config.y, s.config.heading,
      s.kinematics.distance, s.kinematics.velocity, s.kinematics.acceleration, if s.finished then 1.0 else 0.0]
  }

  /** jni_coupled_java_to_state (jnicoupled.cpp:3-13): the native decoder. */
  function NativeDecodeState(arr: seq<real>): State
    requires |arr| >= 10
  {
    State(arr[0], arr[1], arr[2], Configuration(arr[3], arr[4], arr[5]),
      KinematicState(arr[6], arr[7], arr[8]), arr[9] > 0.5)
  }

  /** The Java and native encodings agree, in both directions across the boundary. */
  lemma NativeStateLayout(s: State, js: JavaState)
    ensures NativeEncodeState(s) == EncodeState(FromNative(s))
    ensures DecodeState(NativeEncodeState(s)) == Some(FromNative(s))
    ensures NativeDecodeState(EncodeState(js)) == ToNative(js)
    ensures ToNative(FromNative(s)) == s
  {
  }

  // === CoupledWheelState: the same fields as the native wheel state ===

  /** The nine-element layout [time, x, y, distance, velocity, acceleration, voltage, current, finished]. */
  function EncodeWheel(w: WheelState): (arr: seq<real>)
    ensures |arr| == 9
  {
    [w.time] + Xy(w.position) + KinematicsToArray(w.kinematics) + [w.voltage, w.current, FlagToReal(w.finished)]
  }

  function DecodeWheel(arr: seq<real>): (r: Option<WheelState>)
    ensures r.None? <==> |arr| < 9
    ensures r.Some? ==> r.value.finished == (arr[8] > 0.5)
  {
    if |arr| < 9 then None
    else
      var posArr := [arr[1], arr[2]];
      var kinArr := [arr[3], arr[4], arr[5]];
      Some(WheelState(arr[0], CartesianFromArray(posArr).value, KinematicsFromArray(kinArr).value,
        arr[6], arr[7], arr[8] > 0.5))
  }

  /** `toArray`: a fresh nine-element array, position and kinematics copied in by index loops. */
  method WheelToArray(w: WheelState) returns (arr: array<real>)
    ensures fresh(arr) && arr[..] == EncodeWheel(w)
  {
    var posArr := Xy(w.position);
    var kinArr := KinematicsToArray(w.kinematics);
    arr := new real[4 + |kinArr| + |posArr|];
    arr[0] := w.time;
    for i := 0 to |posArr|
      invariant arr[0] == w.time
      invariant arr[1..1 + i] == posArr[..i]
    {
      arr[1 + i] := posArr[i];
    }
    for i := 0 to |kinArr|
      invariant arr[..3] == [w.time] + posArr
      invariant arr[3..3 + i] == kinArr[..i]
    {
      arr[3 + i] := kinArr[i];
    }
    arr[6] := w.voltage;
    arr[7] := w.current;
    arr[8] := if w.finished then 1.0 else 0.0;
    assert arr[..] == arr[..6] + [arr[6], arr[7], arr[8]];
  }

  /** Decoding an encoded wheel state gives back every field. */
  lemma WheelRoundTrip(w: WheelState)
    ensures DecodeWheel(EncodeWheel(w)) == Some(w)
  {
  }

  /** wheelstate_to_java (coupled_drivetrain.cpp:47-58): the native wheel encoder. */
  function NativeEncodeWheel(w: WheelState): seq<real> {
    [w.time, w.position.x, w.position.y, w.kinematics.distance, w.kinematics.velocity, w.kinematics.acceleration,
      w.voltage, w.current, if w.finished then 1.0 else 0.0]
  }

  lemma NativeWheelLayout(w: WheelState)
    ensures NativeEncodeWheel(w) == EncodeWheel(w)
    ensures DecodeWheel(NativeEncodeWheel(w)) == Some(w)
  {
  }
}
