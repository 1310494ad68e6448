/**
 * The controller's HTTP side with the transport abstracted away. A fetch
 * either delivers the decoded `/api/metrics` body or fails (network error or
 * a non-2xx answer); a command send reports success or failure, and in
 * simulation mode succeeds without any request.
 */
module Remote {
  import opened MotorTypes

  /** The temperature a payload without one (or with 0) is given. */
  const DefaultTemperature: real := 28.5

  /**
   * The `/api/metrics` body. Speed, voltage and current are taken as sent;
   * the other fields may be missing.
   */
  datatype MetricsPayload = MetricsPayload(
    rpm: real,
    voltage: real,
    current: real,
    power: Option<real>,
    efficiency: Option<real>,
    pwm: Option<real>,
    temperature: Option<real>)

  /** What one poll of the controller produced. */
  datatype FetchOutcome = Received(payload: MetricsPayload) | FetchFailed

  /** JavaScript's `field || fallback` on a number that may be missing: missing and 0 are falsy. */
  function OrElse(field: Option<real>, fallback: real): (r: real)
    ensures field.Some? && field.value != 0.0 ==> r == field.value
    ensures field.None? || field.value == 0.0 ==> r == fallback
  {
    if field.Some? && field.value != 0.0 then field.value else fallback
  }

  /** The snapshot the engine makes of a payload, defaulting the optional fields. */
  function Normalise(p: MetricsPayload): MotorMetrics
  {
    MotorMetrics(
      rpm := p.rpm,
      voltage := p.voltage,
      current := p.current,
      power := OrElse(p.power, p.voltage * p.current),
      efficiency := OrElse(p.efficiency, 0.0),
      pwmDuty := OrElse(p.pwm, 0.0),
      temperature := OrElse(p.temperature, DefaultTemperature))
  }

  /**
   * Field by field: speed, voltage and current pass through; a missing or
   * zero power becomes voltage times current; a missing efficiency or duty
   * cycle becomes 0; a missing or zero temperature becomes 28.5.
   */
  lemma NormaliseFields(p: MetricsPayload)
    ensures var m := Normalise(p);
      && m.rpm == p.rpm && m.voltage == p.voltage && m.current == p.current
      && m.power == (if p.power.Some? && p.power.value != 0.0 then p.power.value else p.voltage * p.current)
      && m.efficiency == (if p.efficiency.Some? then p.efficiency.value else 0.0)
      && m.pwmDuty == (if p.pwm.Some? then p.pwm.value else 0.0)
      && m.temperature == (if p.temperature.Some? && p.temperature.value != 0.0 then p.temperature.value else DefaultTemperature)
  {
  }

  /** The payload a controller sends when it reports every field of `m`. */
  function Complete(m: MotorMetrics): MetricsPayload
  {
    MetricsPayload(m.rpm, m.voltage, m.current, Some(m.power), Some(m.efficiency), Some(m.pwmDuty), Some(m.temperature))
  }

  /**
   * A complete report is taken verbatim exactly when its temperature is not
   * 0 and its power is not 0 unless voltage times current is 0 too: a real
   * reading of 0 degrees comes out as 28.5.
   */
  lemma NormaliseCompleteExact(m: MotorMetrics)
    ensures Normalise(Complete(m)) == m <==>
      m.temperature != 0.0 && (m.power != 0.0 || m.voltage * m.current == 0.0)
  {
    if m.temperature == 0.0 {
      assert Normalise(Complete(m)).temperature != m.temperature;
    }
  }

  /** `sendToESP32`: in simulation mode the send succeeds with no request; otherwise it reports the transport. */
  function Send(simulationMode: bool, transportOk: bool): (sent: bool)
    ensures simulationMode ==> sent
    ensures !simulationMode ==> sent == transportOk
  {
    if simulationMode then true else transportOk
  }
}
