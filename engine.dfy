/**
 * The motor engine behind the dashboard (`useMotorData`): the telemetry
 * snapshot, the system status, the chart history and the operator's intent
 * (run flag and target duty cycle), updated by the periodic acquisition
 * tick and by four operator commands. Each tick and each command is one
 * method call; what the transport, the clock and `Math.random` produce is
 * passed in.
 */
module Engine {
  import opened MotorTypes
  import opened JsMath
  import opened Status
  import opened Alerts
  import opened History
  import opened Simulation
  import opened Remote

  /** `Math.max(0, Math.min(100, pwm))`: a duty cycle in percent. */
  function ClampPwm(pwm: real): (r: real)
    ensures 0.0 <= r <= 100.0
    ensures 0.0 <= pwm <= 100.0 ==> r == pwm
    ensures pwm < 0.0 ==> r == 0.0
    ensures pwm > 100.0 ==> r == 100.0
  {
    Max(0.0, Min(100.0, pwm))
  }

  /** Clamping an already clamped duty cycle changes nothing. */
  lemma ClampPwmIdempotent(pwm: real)
    ensures ClampPwm(ClampPwm(pwm)) == ClampPwm(pwm)
  {
  }

  /**
   * The snapshot a tick produces: the simulation step in simulation mode,
   * otherwise the normalised payload, or the previous snapshot when the
   * fetch failed.
   */
  function AcquiredMetrics(simulationMode: bool, fetched: FetchOutcome, previous: MotorMetrics,
                           targetPwm: real, isRunning: bool, j: Jitter, pow: real -> real): MotorMetrics
  {
    if simulationMode then Simulate(previous, targetPwm, isRunning, j, pow)
    else match fetched
      case Received(p) => Normalise(p)
      case FetchFailed => previous
  }

  /** The only alerts the engine ever raises. */
  predicate RaisedByEngine(a: Alert)
  {
    a.message == LostConnectionMessage || a.message == EmergencyStopMessage
  }

  class MotorController {
    var metrics: MotorMetrics
    var status: SystemStatus
    var powerHistory: seq<PowerHistoryPoint>
    var isRunning: bool
    var targetPwm: real

    /**
     * The history stays within its window, the alert list within five
     * entries, the target within [0, 100]; the engine never reports a fault,
     * and every alert is one the engine raised.
     */
    ghost predicate Valid()
      reads this
    {
      && |powerHistory| <= HistoryWindow
      && |status.alerts| <= MaxAlerts
      && 0.0 <= targetPwm <= 100.0
      && status.motorState != Fault
      && forall a :: a in status.alerts ==> RaisedByEngine(a)
    }

    /** The quiescent state at mount: motor stopped and idle, link stable, no alerts, empty chart. */
    constructor (simulationMode: bool, now: int)
      ensures Valid()
      ensures metrics == InitialMetrics && powerHistory == [] && !isRunning && targetPwm == 0.0
      ensures status == SystemStatus(Idle, Normal, Online, Stable, ModeOf(simulationMode), now, [])
    {
      metrics := InitialMetrics;
      status := SystemStatus(Idle, Normal, Online, Stable, ModeOf(simulationMode), now, []);
      powerHistory := [];
      isRunning := false;
      targetPwm := 0.0;
    }

    /**
     * `fetchFromESP32` after the transport: a payload marks the link stable
     * and is normalised; a failure marks it interrupted and pushes an error
     * alert, and yields no snapshot.
     */
    method FetchFromController(fetched: FetchOutcome, alertId: string, now: int) returns (m: Option<MotorMetrics>)
      requires Valid()
      modifies this`status
      ensures Valid()
      ensures fetched.Received? ==>
                m == Some(Normalise(fetched.payload)) &&
                status == old(status).(communicationStatus := Stable)
      ensures fetched.FetchFailed? ==>
                m == None &&
                status == old(status).(communicationStatus := Interrupted,
                                       alerts := PushAlert(old(status.alerts), Alert(alertId, ErrorAlert, LostConnectionMessage, now)))
    {
      match fetched
      case Received(p) =>
        status := status.(communicationStatus := Stable);
        m := Some(Normalise(p));
      case FetchFailed =>
        var alert := Alert(alertId, ErrorAlert, LostConnectionMessage, now);
        var alerts := PushAlert(status.alerts, alert);
        assert forall a :: a in alerts ==> a == alert || a in status.alerts;
        status := status.(communicationStatus := Interrupted, alerts := alerts);
        m := None;
    }

    /** `updatePowerHistory`: one chart point appended, the window kept at thirty. */
    method UpdatePowerHistory(power: real, current: real, timeLabel: string)
      requires Valid()
      modifies this`powerHistory
      ensures Valid()
      ensures powerHistory == AppendPoint(old(powerHistory), PowerHistoryPoint(timeLabel, power, current))
    {
      powerHistory := AppendPoint(powerHistory, PowerHistoryPoint(timeLabel, power, current));
    }

    /**
     * One acquisition tick: new metrics from the simulation or the
     * controller (the previous ones when the fetch failed), then the thermal
     * and motor states derived from them, the mode and the update time, and
     * a chart point with the tick's power and current.
     */
    method Tick(simulationMode: bool, fetched: FetchOutcome, j: Jitter, pow: real -> real,
                now: int, alertId: string, timeLabel: string)
      requires Valid()
      modifies this
      ensures Valid()
      ensures isRunning == old(isRunning) && targetPwm == old(targetPwm)
      ensures metrics == AcquiredMetrics(simulationMode, fetched, old(metrics), targetPwm, isRunning, j, pow)
      ensures status.motorState == MotorStateOf(isRunning, metrics.rpm)
      ensures status.thermalState == ThermalStateOf(metrics.temperature)
      ensures status.systemMode == ModeOf(simulationMode) && status.lastUpdate == now
      ensures status.controllerStatus == old(status.controllerStatus)
      ensures status.communicationStatus ==
        if simulationMode then old(status.communicationStatus)
        else if fetched.Received? then Stable else Interrupted
      ensures status.alerts ==
        if !simulationMode && fetched.FetchFailed?
        then PushAlert(old(status.alerts), Alert(alertId, ErrorAlert, LostConnectionMessage, now))
        else old(status.alerts)
      ensures powerHistory == AppendPoint(old(powerHistory), PowerHistoryPoint(timeLabel, metrics.power, metrics.current))
      ensures !simulationMode && fetched.FetchFailed? ==>
                metrics == old(metrics) && status.communicationStatus == Interrupted &&
                status.alerts[0].message == LostConnectionMessage
    {
      var newMetrics: MotorMetrics;
      if simulationMode {
        newMetrics := Simulate(metrics, targetPwm, isRunning, j, pow);
      } else {
        var fetchedMetrics := FetchFromController(fetched, alertId, now);
        if fetchedMetrics.Some? {
          newMetrics := fetchedMetrics.value;
        } else {
          newMetrics := metrics;
        }
      }
      metrics := newMetrics;
      var thermalState := ThermalStateOf(newMetrics.temperature);
      status := status.(motorState := MotorStateOf(isRunning, newMetrics.rpm),
                        thermalState := thermalState,
                        systemMode := ModeOf(simulationMode),
                        lastUpdate := now);
      UpdatePowerHistory(newMetrics.power, newMetrics.current, timeLabel);
    }

    /**
     * `startMotor`: whatever the send returns, the motor is meant to run and
     * is reported running, and the "Motor stopped" alerts are dropped, which
     * leaves the list as it was since the engine never raises one.
     */
    method StartMotor(simulationMode: bool, transportOk: bool)
      requires Valid()
      modifies this`isRunning, this`status
      ensures Valid()
      ensures isRunning
      ensures status == old(status).(motorState := Running,
                                     alerts := WithoutMessage(old(status.alerts), MotorStoppedMessage))
      ensures status.alerts == old(status.alerts)
    {
      var _ := Send(simulationMode, transportOk);
      isRunning := true;
      forall i | 0 <= i < |status.alerts|
        ensures status.alerts[i].message != MotorStoppedMessage
      {
        assert RaisedByEngine(status.alerts[i]);
      }
      WithoutMessageIdentity(status.alerts, MotorStoppedMessage);
      status := status.(motorState := Running, alerts := WithoutMessage(status.alerts, MotorStoppedMessage));
    }

    /** `stopMotor`: whatever the send returns, run flag off, target 0, reported idle; alerts untouched. */
    method StopMotor(simulationMode: bool, transportOk: bool)
      requires Valid()
      modifies this`isRunning, this`targetPwm, this`status
      ensures Valid()
      ensures !isRunning && targetPwm == 0.0
      ensures status == old(status).(motorState := Idle)
    {
      var _ := Send(simulationMode, transportOk);
      isRunning := false;
      targetPwm := 0.0;
      status := status.(motorState := Idle);
    }

    /**
     * `emergencyStop`: whatever the send returns, run flag off and target 0,
     * speed and duty cycle zeroed at once with every other metric kept, the
     * motor reported idle and a warning pushed to the front of the alerts.
     */
    method EmergencyStop(simulationMode: bool, transportOk: bool, alertId: string, now: int)
      requires Valid()
      modifies this`isRunning, this`targetPwm, this`metrics, this`status
      ensures Valid()
      ensures !isRunning && targetPwm == 0.0
      ensures metrics == old(metrics).(rpm := 0.0, pwmDuty := 0.0)
      ensures status == old(status).(motorState := Idle,
                                     alerts := PushAlert(old(status.alerts), Alert(alertId, WarningAlert, EmergencyStopMessage, now)))
    {
      var _ := Send(simulationMode, transportOk);
      isRunning := false;
      targetPwm := 0.0;
      metrics := metrics.(rpm := 0.0, pwmDuty := 0.0);
      var alert := Alert(alertId, WarningAlert, EmergencyStopMessage, now);
      var alerts := PushAlert(status.alerts, alert);
      assert forall a :: a in alerts ==> a == alert || a in status.alerts;
      status := status.(motorState := Idle, alerts := alerts);
    }

    /** `handleSetTargetPwm`: the clamped duty cycle becomes the target whatever the send returns. */
    method SetTargetPwm(pwm: real, simulationMode: bool, transportOk: bool)
      requires Valid()
      modifies this`targetPwm
      ensures Valid()
      ensures targetPwm == ClampPwm(pwm)
    {
      var clampedPwm := ClampPwm(pwm);
      var _ := Send(simulationMode, transportOk);
      targetPwm := clampedPwm;
    }
  }
}
