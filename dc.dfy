/**
 * The brushed DC motor of Pathfinder/src/include/grpl/pf/transmission/dc.h as
 * an implementation of the transmission interface. The constructor derives
 * the winding resistance, torque constant and speed constant once; every
 * other operation is a closed-form expression over them.
 */
module Dc {
  import opened RealMath
  import opened Transmission

  datatype DcMotor = DcMotor(
    vNom: real,
    freeSpeed: real,
    freeCurrent: real,
    stallCurrent: real,
    stallTorque: real,
    rint: real,
    kt: real,
    kw: real)
  {
    function NominalVoltage(): real {
      vNom
    }

    /** Free speed at a control signal (full signal unless given): w = signal*V_nom / kw. */
    function FreeSpeed(signal: real := 1.0): (speed: real)
      requires kw != 0.0
      ensures kw * speed == signal * vNom
    {
      DivCancel(kw, signal * vNom);
      (signal * vNom) / kw
    }

    /**
     * Torque at a speed and signal (full signal unless given): the current
     * I = (signal*V_nom - kw*w) / R turned into torque, so that the winding
     * drop of the current kt*T is what the back-EMF leaves of the signal's voltage.
     */
    function Torque(speed: real, signal: real := 1.0): (torque: real)
      requires rint != 0.0 && kt != 0.0
      ensures (kt * torque) * rint == signal * vNom - kw * speed
    {
      var velVoltage := kw * speed;
      var current := (signal * vNom - velVoltage) / rint;
      DivCancel(kt, current);
      DivCancel(rint, signal * vNom - velVoltage);
      current / kt
    }

    /** Signal share that sustains a free speed: the share whose voltage is the back-EMF kw*w. */
    function PartialSignalAtSpeed(freeSpeed: real): (share: real)
      requires vNom != 0.0
      ensures share * vNom == kw * freeSpeed
    {
      DivCancel(vNom, kw * freeSpeed);
      (kw * freeSpeed) / vNom
    }

    /** Signal share that drives a torque through the winding: the share whose voltage is the drop kt*T*R. */
    function PartialSignalAtTorque(torque: real): (share: real)
      requires vNom != 0.0
      ensures share * vNom == (kt * torque) * rint
    {
      var current := kt * torque;
      DivCancel(vNom, current * rint);
      (current * rint) / vNom
    }

    function SignalToVoltage(signal: real): real {
      signal * vNom
    }

    /**
     * Current drawn at a speed and signal: the voltage left after the speed
     * share, over R, so that its drop plus the back-EMF is the signal's voltage.
     */
    function SignalToCurrent(speed: real, signal: real): (current: real)
      requires vNom != 0.0 && rint != 0.0
      ensures current * rint + kw * speed == signal * vNom
    {
      var voltage := (signal - PartialSignalAtSpeed(speed)) * vNom;
      DivCancel(rint, voltage);
      voltage / rint
    }

    function TorqueToCurrent(torque: real): real {
      kt * torque
    }

    /** Every denominator the operations use is nonzero. */
    predicate Nondegenerate() {
      vNom != 0.0 && rint != 0.0 && kt != 0.0 && kw != 0.0
    }
  }

  /**
   * dc_motor's constructor. Its derived constants satisfy Ohm's law at stall
   * (R * I_stall == V_nom), the torque law at stall (kt * T_stall == I_stall)
   * and Kirchhoff's law at free speed (kw * w_free + I_free * R == V_nom).
   */
  function NewDcMotor(vNom: real, freeSpeed: real, freeCurrent: real, stallCurrent: real, stallTorque: real): (m: DcMotor)
    requires stallCurrent != 0.0 && stallTorque != 0.0 && freeSpeed != 0.0
    ensures m.vNom == vNom && m.freeSpeed == freeSpeed && m.freeCurrent == freeCurrent
    ensures m.stallCurrent == stallCurrent && m.stallTorque == stallTorque
    ensures m.rint * stallCurrent == vNom
    ensures m.kt * stallTorque == stallCurrent
    ensures m.kw * freeSpeed + freeCurrent * m.rint == vNom
  {
    var rint := vNom / stallCurrent;
    var kt := stallCurrent / stallTorque;
    var kw := (vNom - freeCurrent * vNom / stallCurrent) / freeSpeed;
    DivCancel(stallCurrent, vNom);
    DivCancel(stallTorque, stallCurrent);
    DivCancel(freeSpeed, vNom - freeCurrent * rint);
    DcMotor(vNom, freeSpeed, freeCurrent, stallCurrent, stallTorque, rint, kt, kw)
  }

  /** partial_signal_at_speed is the inverse of free_speed. */
  lemma PartialSignalInvertsFreeSpeed(m: DcMotor, signal: real)
    requires m.Nondegenerate()
    ensures m.PartialSignalAtSpeed(m.FreeSpeed(signal)) == signal
  {
    DivCancel(m.kw, signal * m.vNom);
    DivCancel(m.vNom, signal);
  }

  /** The speed and torque partial signals sum to the signal that produced the torque. */
  lemma PartialSignalsSum(m: DcMotor, speed: real, signal: real)
    requires m.Nondegenerate()
    ensures m.PartialSignalAtSpeed(speed) + m.PartialSignalAtTorque(m.Torque(speed, signal)) == signal
  {
    var current := (signal * m.vNom - m.kw * speed) / m.rint;
    DivCancel(m.kt, current);
    DivCancel(m.rint, signal * m.vNom - m.kw * speed);
    assert m.PartialSignalAtTorque(m.Torque(speed, signal)) == (signal * m.vNom - m.kw * speed) / m.vNom;
    assert (m.kw * speed) / m.vNom + (signal * m.vNom - m.kw * speed) / m.vNom == (signal * m.vNom) / m.vNom;
    DivCancel(m.vNom, signal);
  }

  /** At its free speed the motor produces no torque. */
  lemma NoTorqueAtFreeSpeed(m: DcMotor, signal: real)
    requires m.Nondegenerate()
    ensures m.Torque(m.FreeSpeed(signal), signal) == 0.0
  {
    var w := m.FreeSpeed(signal);
    assert m.kw * w == signal * m.vNom by { DivCancel(m.kw, signal * m.vNom); }
    assert (signal * m.vNom - m.kw * w) / m.rint == 0.0;
  }

  /** Full signal with the rotor locked gives the stall torque. */
  lemma StallTorque(vNom: real, freeSpeed: real, freeCurrent: real, stallCurrent: real, stallTorque: real)
    requires vNom != 0.0 && stallCurrent != 0.0 && stallTorque != 0.0 && freeSpeed != 0.0
    ensures var m := NewDcMotor(vNom, freeSpeed, freeCurrent, stallCurrent, stallTorque);
      m.rint != 0.0 && m.kt != 0.0 && m.Torque(0.0) == stallTorque
  {
    var m := NewDcMotor(vNom, freeSpeed, freeCurrent, stallCurrent, stallTorque);
    assert m.rint != 0.0 && m.kt != 0.0;
    assert vNom / m.rint == stallCurrent by { DivCancel(m.rint, stallCurrent); }
    assert stallCurrent / m.kt == stallTorque by { DivCancel(m.kt, stallTorque); }
  }

  /** The current drawn at a speed and signal is the current behind the torque produced there. */
  lemma CurrentMatchesTorque(m: DcMotor, speed: real, signal: real)
    requires m.Nondegenerate()
    ensures m.SignalToCurrent(speed, signal) == m.TorqueToCurrent(m.Torque(speed, signal))
  {
    var current := (signal * m.vNom - m.kw * speed) / m.rint;
    DivCancel(m.kt, current);
    assert (signal - (m.kw * speed) / m.vNom) * m.vNom == signal * m.vNom - m.kw * speed by {
      DivCancel(m.vNom, m.kw * speed);
    }
  }

  /** The voltage of a signal: full signal is the nominal voltage, and the speed share is the back-EMF kw*w. */
  lemma SignalVoltage(m: DcMotor, speed: real)
    requires m.vNom != 0.0
    ensures m.SignalToVoltage(1.0) == m.NominalVoltage()
    ensures m.SignalToVoltage(m.PartialSignalAtSpeed(speed)) == m.kw * speed
  {
    DivCancel(m.vNom, m.kw * speed);
  }

  /** The motor as a transmission. */
  function AsTransmission(m: DcMotor): (tr: Transmission)
    requires m.Nondegenerate()
    ensures Conforms(tr)
    ensures forall signal :: tr.freeSpeed(signal) == m.FreeSpeed(signal)
    ensures forall speed, signal :: tr.torque(speed, signal) == m.Torque(speed, signal)
  {
    var tr := Transmission(
      signal => m.FreeSpeed(signal),
      (speed, signal) => m.Torque(speed, signal),
      speed => m.PartialSignalAtSpeed(speed),
      torque => m.PartialSignalAtTorque(torque));
    assert forall signal :: tr.partialSignalAtSpeed(tr.freeSpeed(signal)) == signal by {
      forall signal ensures tr.partialSignalAtSpeed(tr.freeSpeed(signal)) == signal {
        PartialSignalInvertsFreeSpeed(m, signal);
      }
    }
    assert forall speed, signal :: tr.partialSignalAtSpeed(speed) + tr.partialSignalAtTorque(tr.torque(speed, signal)) == signal by {
      forall speed, signal ensures tr.partialSignalAtSpeed(speed) + tr.partialSignalAtTorque(tr.torque(speed, signal)) == signal {
        PartialSignalsSum(m, speed, signal);
      }
    }
    tr
  }
}
