/**
 * The data the motor engine keeps and hands to the dashboard: one telemetry
 * snapshot, the derived system status with its alert list, and the points of
 * the live power chart. Numbers are JavaScript numbers in the source and
 * `real`s here; timestamps are milliseconds, and alert ids and chart time
 * labels are opaque strings supplied by the caller.
 */
module MotorTypes {

  /** One telemetry snapshot, replaced wholesale on every tick. */
  datatype MotorMetrics = MotorMetrics(
    rpm: real,
    voltage: real,
    current: real,
    power: real,
    efficiency: real,
    pwmDuty: real,
    temperature: real)

  datatype MotorState = Idle | Running | Fault
  datatype ThermalState = Normal | Warning | Critical
  datatype ControllerStatus = Online | Offline
  datatype CommunicationStatus = Stable | Interrupted
  datatype SystemMode = Prototype | Simulation
  datatype AlertKind = WarningAlert | ErrorAlert | InfoAlert

  datatype Alert = Alert(id: string, kind: AlertKind, message: string, timestamp: int)

  datatype SystemStatus = SystemStatus(
    motorState: MotorState,
    thermalState: ThermalState,
    controllerStatus: ControllerStatus,
    communicationStatus: CommunicationStatus,
    systemMode: SystemMode,
    lastUpdate: int,
    alerts: seq<Alert>)

  /** A point of the live chart: a time label with the power and current of that tick. */
  datatype PowerHistoryPoint = PowerHistoryPoint(time: string, power: real, current: real)

  datatype Option<T> = None | Some(value: T)

  /** The messages of the alerts the engine raises, and the one `startMotor` clears. */
  const LostConnectionMessage: string := "Lost connection to controller"
  const EmergencyStopMessage: string := "Emergency stop activated"
  const MotorStoppedMessage: string := "Motor stopped"

  /** The snapshot the engine starts from. */
  const InitialMetrics: MotorMetrics :=
    MotorMetrics(rpm := 0.0, voltage := 24.0, current := 0.12, power := 2.88,
                 efficiency := 0.0, pwmDuty := 0.0, temperature := 28.5)

  function ModeOf(simulationMode: bool): (m: SystemMode)
    ensures m == Simulation <==> simulationMode
  {
    if simulationMode then Simulation else Prototype
  }
}
