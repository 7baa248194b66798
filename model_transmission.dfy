/**
 * The purely functional DC transmission of
 * Pathfinder/src/include/grpl/pf/model/transmission.h: a brushed DC motor as
 * an ideal resistor in series with a back-EMF source, V = I*R + kv*w, with
 * torque proportional to current, I = kt*T. Every quantity is a closed-form
 * expression over the five constructor constants.
 *
 * Division by zero (IEEE infinities in the C++) is excluded by preconditions
 * on exactly the denominators each operation divides by.
 */
module ModelTransmission {
  import opened RealMath

  datatype DcMotor = DcMotor(
    vNom: real,
    freeSpeed: real,
    freeCurrent: real,
    stallCurrent: real,
    stallTorque: real)
  {
    /** R = V_nom / I_stall: at stall the back-EMF is zero. */
    function InternalResistance(): real
      requires stallCurrent != 0.0
    {
      vNom / stallCurrent
    }

    /** kv = (V_nom - I_free * V_nom / I_stall) / w_free. */
    function Kv(): real
      requires stallCurrent != 0.0 && freeSpeed != 0.0
    {
      (vNom - freeCurrent * vNom / stallCurrent) / freeSpeed
    }

    /** kt = I_stall / T_stall. */
    function Kt(): real
      requires stallTorque != 0.0
    {
      stallCurrent / stallTorque
    }

    function NominalVoltage(): real {
      vNom
    }

    /** The denominators of every operation are nonzero. */
    predicate Nondegenerate() {
      vNom != 0.0 && freeSpeed != 0.0 && stallCurrent != 0.0 && stallTorque != 0.0
    }

    /**
     * Current drawn at voltage V and speed w: the current whose drop across
     * the winding is what the back-EMF leaves of V, I*R == V - kv*w.
     */
    function GetCurrent(voltage: real, speed: real): (current: real)
      requires stallCurrent != 0.0 && freeSpeed != 0.0 && vNom != 0.0
      ensures current * InternalResistance() == voltage - Kv() * speed
    {
      assert InternalResistance() != 0.0 by { DivCancel(stallCurrent, vNom); }
      DivCancel(InternalResistance(), voltage - Kv() * speed);
      (voltage - Kv() * speed) / InternalResistance()
    }

    /** Torque produced by a current: the torque T with kt*T == I. */
    function GetTorque(current: real): (torque: real)
      requires stallTorque != 0.0 && stallCurrent != 0.0
      ensures Kt() * torque == current
    {
      assert Kt() != 0.0 by { DivCancel(stallTorque, stallCurrent); }
      DivCancel(Kt(), current);
      current / Kt()
    }

    /** Free (no load) speed at a voltage: the speed w whose back-EMF kv*w is the whole of V. */
    function GetFreeSpeed(voltage: real): (speed: real)
      requires stallCurrent != 0.0 && freeSpeed != 0.0 && Kv() != 0.0
      ensures Kv() * speed == voltage
    {
      DivCancel(Kv(), voltage);
      voltage / Kv()
    }

    /** Back-EMF at a speed: V_w = kv*w. */
    function GetFreeVoltage(speed: real): real
      requires stallCurrent != 0.0 && freeSpeed != 0.0
    {
      Kv() * speed
    }

    /** Voltage across the winding resistance: V_I = I*R. */
    function GetCurrentVoltage(current: real): real
      requires stallCurrent != 0.0
    {
      current * InternalResistance()
    }

    /** Current needed for a torque: I = kt*T. */
    function GetTorqueCurrent(torque: real): real
      requires stallTorque != 0.0
    {
      Kt() * torque
    }
  }

  /** Torque and torque current are inverse: get_torque(get_torque_current(T)) == T, and back. */
  lemma TorqueCurrentRoundTrip(m: DcMotor, torque: real, current: real)
    requires m.stallTorque != 0.0 && m.stallCurrent != 0.0
    ensures m.GetTorque(m.GetTorqueCurrent(torque)) == torque
    ensures m.GetTorqueCurrent(m.GetTorque(current)) == current
  {
    var kt := m.Kt();
    assert kt != 0.0;
    DivCancel(kt, torque);
    DivCancel(kt, current);
  }

  /** Torque is linear in current, so reversing the current reverses the torque. */
  lemma TorqueOdd(m: DcMotor, current: real)
    requires m.stallTorque != 0.0 && m.stallCurrent != 0.0
    ensures m.GetTorque(-current) == -m.GetTorque(current)
    ensures m.GetTorque(0.0) == 0.0
  {
  }

  /** A motor at its free speed for a voltage draws no current (kv != 0 forces V_nom != 0). */
  lemma FreeSpeedDrawsNoCurrent(m: DcMotor, voltage: real)
    requires m.stallCurrent != 0.0 && m.freeSpeed != 0.0 && m.Kv() != 0.0
    ensures m.vNom != 0.0
    ensures m.GetCurrent(voltage, m.GetFreeSpeed(voltage)) == 0.0
  {
    DivCancel(m.Kv(), voltage);
  }

  /** Free voltage and free speed are inverse. */
  lemma FreeVoltageRoundTrip(m: DcMotor, voltage: real, speed: real)
    requires m.stallCurrent != 0.0 && m.freeSpeed != 0.0 && m.Kv() != 0.0
    ensures m.GetFreeVoltage(m.GetFreeSpeed(voltage)) == voltage
    ensures m.GetFreeSpeed(m.GetFreeVoltage(speed)) == speed
  {
    DivCancel(m.Kv(), voltage);
    DivCancel(m.Kv(), speed);
  }

  /** Kirchhoff's voltage law around the motor: back-EMF plus resistive drop is the applied voltage. */
  lemma VoltageSplit(m: DcMotor, voltage: real, speed: real)
    requires m.Nondegenerate()
    ensures m.GetFreeVoltage(speed) + m.GetCurrentVoltage(m.GetCurrent(voltage, speed)) == voltage
  {
    var r := m.InternalResistance();
    assert r != 0.0 by { DivCancel(m.stallCurrent, m.vNom); }
    DivCancel(r, voltage - m.Kv() * speed);
  }

  /** At nominal voltage with the rotor locked the motor draws its stall current and makes its stall torque. */
  lemma StallPoint(m: DcMotor)
    requires m.Nondegenerate()
    ensures m.GetCurrent(m.NominalVoltage(), 0.0) == m.stallCurrent
    ensures m.GetTorque(m.GetCurrent(m.NominalVoltage(), 0.0)) == m.stallTorque
  {
    var r := m.InternalResistance();
    assert r * m.stallCurrent == m.vNom by { DivCancel(m.stallCurrent, m.vNom); }
    assert r != 0.0;
    assert m.vNom / r == m.stallCurrent by { DivCancel(r, m.stallCurrent); }
    assert m.Kt() * m.stallTorque == m.stallCurrent by { DivCancel(m.stallTorque, m.stallCurrent); }
    assert m.stallCurrent / m.Kt() == m.stallTorque by { DivCancel(m.Kt(), m.stallTorque); }
  }
}
