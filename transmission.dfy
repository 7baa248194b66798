/**
 * The transmission interface of
 * Pathfinder/src/include/grpl/pf/transmission/transmission.h: a transmission
 * turns a control signal in [-1, 1] into free angular speed (rad/s) and
 * torque (Nm), and inverts each into a partial signal; the two partial
 * signals sum to the full signal. Also the rpm / rad-per-second conversions.
 */
module Transmission {
  import opened Constants

  /** Revolutions per minute to radians per second: keeps the sense of rotation. */
  function RpmToRad(rpm: real): (rad: real)
    ensures (0.0 < rad <==> 0.0 < rpm) && (rad == 0.0 <==> rpm == 0.0)
  {
    rpm * 2.0 * Pi / 60.0
  }

  /** Radians per second to revolutions per minute: undoes RpmToRad. */
  function RadToRpm(radPerSec: real): (rpm: real)
    ensures RpmToRad(rpm) == radPerSec
  {
    radPerSec * 60.0 / (2.0 * Pi)
  }

  /** The two unit conversions are inverse to each other, in both orders. */
  lemma RpmRadRoundTrip(rpm: real, rad: real)
    ensures RadToRpm(RpmToRad(rpm)) == rpm
    ensures RpmToRad(RadToRpm(rad)) == rad
  {
  }

  /** rpm_to_rad is linear: it maps 0 to 0 and preserves sums and scaling. */
  lemma RpmToRadLinear(a: real, b: real, k: real)
    ensures RpmToRad(0.0) == 0.0
    ensures RpmToRad(a + b) == RpmToRad(a) + RpmToRad(b)
    ensures RpmToRad(k * a) == k * RpmToRad(a)
  {
  }

  /** A transmission, as the four operations of the interface. */
  datatype Transmission = Transmission(
    freeSpeed: real -> real,
    torque: (real, real) -> real,
    partialSignalAtSpeed: real -> real,
    partialSignalAtTorque: real -> real)

  /**
   * The contract the interface documents: partial_signal_at_speed inverts
   * free_speed, and the speed and torque partial signals add up to the signal.
   */
  ghost predicate Conforms(tr: Transmission) {
    (forall signal :: tr.partialSignalAtSpeed(tr.freeSpeed(signal)) == signal) &&
    (forall speed, signal :: tr.partialSignalAtSpeed(speed) + tr.partialSignalAtTorque(tr.torque(speed, signal)) == signal)
  }
}
