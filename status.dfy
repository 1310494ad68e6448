/**
 * The status the engine derives from each new snapshot: a thermal class from
 * the temperature alone, and the motor state from the operator's run flag and
 * the measured speed.
 */
module Status {
  import opened MotorTypes

  const WarningTemperature: real := 55.0
  const CriticalTemperature: real := 75.0
  /** Below this speed a motor that is meant to run is still reported idle. */
  const RunningRpmThreshold: real := 50.0

  /** A number per thermal class, ordered by severity. */
  function Severity(s: ThermalState): nat
  {
    match s
    case Normal => 0
    case Warning => 1
    case Critical => 2
  }

  /**
   * `getThermalState`: inclusive lower thresholds at 55 and 75 degrees. The
   * three classes cover every temperature and exclude each other.
   */
  function ThermalStateOf(temperature: real): (s: ThermalState)
    ensures s == Critical <==> temperature >= CriticalTemperature
    ensures s == Warning <==> WarningTemperature <= temperature < CriticalTemperature
    ensures s == Normal <==> temperature < WarningTemperature
  {
    if temperature >= CriticalTemperature then Critical
    else if temperature >= WarningTemperature then Warning
    else Normal
  }

  /** A hotter motor is never in a milder thermal class. */
  lemma ThermalStateMonotone(t1: real, t2: real)
    requires t1 <= t2
    ensures Severity(ThermalStateOf(t1)) <= Severity(ThermalStateOf(t2))
  {
  }

  /**
   * The motor state a tick derives: running exactly when the operator runs the
   * motor and it turns faster than 50 rpm; a tick never yields `Fault`.
   */
  function MotorStateOf(isRunning: bool, rpm: real): (s: MotorState)
    ensures s == Running <==> isRunning && rpm > RunningRpmThreshold
    ensures s == Idle <==> !(isRunning && rpm > RunningRpmThreshold)
    ensures s != Fault
  {
    if isRunning then (if rpm > RunningRpmThreshold then Running else Idle) else Idle
  }
}
