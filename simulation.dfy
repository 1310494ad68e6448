/**
 * `simulateMotorBehavior`: the next telemetry snapshot from the previous one,
 * the operator's target duty cycle and run flag. The random draws are the
 * fields of a `Jitter` value (each `Math.random()` lies in [0, 1)) and
 * `Math.pow(loadFactor, 1.3)` is the function parameter `pow`, about which
 * nothing is assumed. The stopped branch stores its speed unrounded; the
 * running branch rounds every output.
 */
module Simulation {
  import opened MotorTypes
  import opened JsMath

  const MaxRpm: real := 3000.0
  const AmbientTemperature: real := 25.0
  const MaxOperatingTemperature: real := 85.0
  const CoolingRate: real := 0.02
  const SpindownFactor: real := 0.85
  const Acceleration: real := 0.15
  const BaseCurrent: real := 0.5
  const EfficiencyBase: real := 85.0
  /** Below or at this (unrounded) speed the running motor reports no efficiency. */
  const EfficiencyRpmThreshold: real := 100.0
  const ThermalResistance: real := 0.08
  const ThermalTimeConstant: real := 0.03

  /** The `Math.random()` values one call draws, by the quantity they perturb. */
  datatype Jitter = Jitter(
    rpm: real,
    voltage: real,
    current: real,
    power: real,
    efficiency: real,
    temperature: real)

  predicate InRandomRange(x: real)
  {
    0.0 <= x < 1.0
  }

  predicate ValidJitter(j: Jitter)
  {
    InRandomRange(j.rpm) && InRandomRange(j.voltage) && InRandomRange(j.current) &&
    InRandomRange(j.power) && InRandomRange(j.efficiency) && InRandomRange(j.temperature)
  }

  /** The stopped motor's temperature before rounding: 2% of the way to ambient. */
  function CooledTemperature(temperature: real): real
  {
    temperature - (temperature - AmbientTemperature) * CoolingRate
  }

  /** The speed the running branch reaches before rounding: 15% of the gap plus up to 5 rpm either way. */
  function RunningRawRpm(rpm: real, targetPwm: real, j: Jitter): real
  {
    var targetRpm := (targetPwm / 100.0) * MaxRpm;
    Max(0.0, rpm + (targetRpm - rpm) * Acceleration + (j.rpm - 0.5) * 10.0)
  }

  /** Peak efficiency at 60% load, zero when the motor barely turns. */
  function RunningEfficiency(rawRpm: real, j: Jitter): (r: real)
    ensures r >= 0.0
    ensures rawRpm <= EfficiencyRpmThreshold ==> r == 0.0
  {
    var loadFactor := rawRpm / MaxRpm;
    if rawRpm > EfficiencyRpmThreshold
    then Max(0.0, EfficiencyBase - Abs(loadFactor - 0.6) * 20.0 + (j.efficiency - 0.5) * 2.0)
    else 0.0
  }

  /** The supply sags by up to 1.5 V under full load. */
  function RunningVoltage(loadFactor: real, j: Jitter): real
  {
    24.0 - loadFactor * 1.5 + (j.voltage - 0.5) * 0.3
  }

  /** The current grows with `pow(loadFactor)`, standing for `loadFactor` to the power 1.3. */
  function RunningCurrent(loadFactor: real, j: Jitter, pow: real -> real): real
  {
    BaseCurrent + pow(loadFactor) * 15.0 + (j.current - 0.5) * 0.3
  }

  /** `voltage * current`: the running motor's power, not jittered on its own. */
  function RunningPower(loadFactor: real, j: Jitter, pow: real -> real): real
  {
    RunningVoltage(loadFactor, j) * RunningCurrent(loadFactor, j, pow)
  }

  /**
   * The running motor's temperature before rounding: 3% of the way to a
   * target set by load and dissipated heat, capped at 85 degrees.
   */
  function HeatedTemperature(temperature: real, loadFactor: real, power: real, efficiency: real, j: Jitter): (r: real)
    ensures r <= MaxOperatingTemperature
  {
    var heat := power * (1.0 - efficiency / 100.0) * ThermalResistance;
    var targetTemp := AmbientTemperature + loadFactor * 35.0 + heat + (j.temperature - 0.5) * 1.0;
    Min(MaxOperatingTemperature, temperature + (targetTemp - temperature) * ThermalTimeConstant)
  }

  function Simulate(m: MotorMetrics, targetPwm: real, isRunning: bool, j: Jitter, pow: real -> real): MotorMetrics
  {
    if !isRunning then
      MotorMetrics(
        rpm := Max(0.0, m.rpm * SpindownFactor),
        voltage := 24.0 + (j.voltage - 0.5) * 0.2,
        current := 0.1 + j.current * 0.05,
        power := 2.4 + j.power * 0.5,
        efficiency := 0.0,
        pwmDuty := 0.0,
        temperature := Round1(Max(AmbientTemperature, CooledTemperature(m.temperature))))
    else
      var newRpm := RunningRawRpm(m.rpm, targetPwm, j);
      var loadFactor := newRpm / MaxRpm;
      var voltage := RunningVoltage(loadFactor, j);
      var current := RunningCurrent(loadFactor, j, pow);
      var power := RunningPower(loadFactor, j, pow);
      var efficiency := RunningEfficiency(newRpm, j);
      MotorMetrics(
        rpm := Round(newRpm),
        voltage := Round1(voltage),
        current := Round2(current),
        power := Round1(power),
        efficiency := Round1(efficiency),
        pwmDuty := targetPwm,
        temperature := Round1(HeatedTemperature(m.temperature, loadFactor, power, efficiency, j)))
  }

  /**
   * A stopped tick: no efficiency, no duty cycle, standby electrical values,
   * the speed down by 15% and never negative, the temperature at least
   * ambient and on the one-decimal grid.
   */
  lemma StoppedStep(m: MotorMetrics, targetPwm: real, j: Jitter, pow: real -> real)
    requires ValidJitter(j)
    ensures var r := Simulate(m, targetPwm, false, j, pow);
      && r.efficiency == 0.0 && r.pwmDuty == 0.0
      && r.rpm >= 0.0 && (m.rpm > 0.0 ==> r.rpm < m.rpm) && (m.rpm <= 0.0 ==> r.rpm == 0.0)
      && 23.9 <= r.voltage < 24.1 && 0.1 <= r.current < 0.15 && 2.4 <= r.power < 2.9
      && r.temperature >= AmbientTemperature && OnTenthGrid(r.temperature)
  {
    var r := Simulate(m, targetPwm, false, j, pow);
    var cooled := Max(AmbientTemperature, CooledTemperature(m.temperature));
    assert OnTenthGrid(AmbientTemperature) by { RoundOfInteger(250); }
    Round1Monotone(AmbientTemperature, cooled);
    Round1OnGrid(cooled);
  }

  /**
   * A stopped motor cools toward ambient without overshooting: a motor at or
   * above 25 degrees gets no warmer, one below it is brought up to 25. The
   * first needs the previous temperature on the one-decimal grid, which every
   * simulated temperature is: rounding can lift an off-grid 25.06 to 25.1.
   */
  lemma StoppedCoolsTowardAmbient(m: MotorMetrics, targetPwm: real, j: Jitter, pow: real -> real)
    ensures var r := Simulate(m, targetPwm, false, j, pow);
      && (m.temperature >= AmbientTemperature && OnTenthGrid(m.temperature) ==>
            AmbientTemperature <= r.temperature <= m.temperature)
      && (m.temperature < AmbientTemperature ==> r.temperature == AmbientTemperature)
  {
    var cooled := Max(AmbientTemperature, CooledTemperature(m.temperature));
    assert OnTenthGrid(AmbientTemperature) by { RoundOfInteger(250); }
    if m.temperature >= AmbientTemperature && OnTenthGrid(m.temperature) {
      Round1Between(AmbientTemperature, cooled, m.temperature);
    }
  }

  /** Off the one-decimal grid a stopped motor can warm: rounding lifts 25.06 to 25.1. */
  lemma OffGridStoppedCanWarm(m: MotorMetrics, j: Jitter, pow: real -> real)
    requires m.temperature == 25.06
    ensures Simulate(m, 0.0, false, j, pow).temperature == 25.1
  {
    assert CooledTemperature(m.temperature) == 25.0588;
    assert (25.0588 * 10.0 + 0.5).Floor == 251;
  }

  /** A running tick drives at the target duty cycle and reports a non-negative whole speed. */
  lemma RunningSpeed(m: MotorMetrics, targetPwm: real, j: Jitter, pow: real -> real)
    ensures var r := Simulate(m, targetPwm, true, j, pow);
      && r.pwmDuty == targetPwm
      && r.rpm == Round(RunningRawRpm(m.rpm, targetPwm, j))
      && r.rpm >= 0.0 && r.rpm == r.rpm.Floor as real
  {
  }

  /** A running tick never reports more than 85 degrees, and reports them to one decimal. */
  lemma RunningTemperature(m: MotorMetrics, targetPwm: real, j: Jitter, pow: real -> real)
    ensures var r := Simulate(m, targetPwm, true, j, pow);
      r.temperature <= MaxOperatingTemperature && OnTenthGrid(r.temperature)
  {
    var newRpm := RunningRawRpm(m.rpm, targetPwm, j);
    var loadFactor := newRpm / MaxRpm;
    var power := RunningPower(loadFactor, j, pow);
    var newTemp := HeatedTemperature(m.temperature, loadFactor, power, RunningEfficiency(newRpm, j), j);
    assert OnTenthGrid(MaxOperatingTemperature) by { RoundOfInteger(850); }
    Round1Monotone(newTemp, MaxOperatingTemperature);
    Round1OnGrid(newTemp);
  }

  /**
   * A running tick's efficiency is non-negative and zero whenever the
   * unrounded speed is at most 100 rpm, so whenever the stored speed is at
   * most 99 (a stored 100 can come with an efficiency).
   */
  lemma RunningEfficiencyGate(m: MotorMetrics, targetPwm: real, j: Jitter, pow: real -> real)
    ensures var r := Simulate(m, targetPwm, true, j, pow);
      && r.efficiency >= 0.0
      && (RunningRawRpm(m.rpm, targetPwm, j) <= EfficiencyRpmThreshold ==> r.efficiency == 0.0)
      && (r.rpm <= 99.0 ==> r.efficiency == 0.0)
  {
    Round1NonNegative(RunningEfficiency(RunningRawRpm(m.rpm, targetPwm, j), j));
  }

  /**
   * The gate is on the unrounded speed: 100.2 rpm is stored as 100 rpm yet
   * comes with an efficiency.
   */
  lemma StoredHundredRpmCanHaveEfficiency(m: MotorMetrics, pow: real -> real)
    requires m.rpm == 100.2
    ensures var r := Simulate(m, 3.34, true, Jitter(0.5, 0.5, 0.5, 0.5, 0.5, 0.5), pow);
      r.rpm == 100.0 && r.efficiency > 0.0
  {
    var j := Jitter(0.5, 0.5, 0.5, 0.5, 0.5, 0.5);
    assert RunningRawRpm(m.rpm, 3.34, j) == 100.2;
    assert RunningEfficiency(100.2, j) == 73.668;
  }

  /**
   * The running speed moves toward the target: the new gap is at most 85%
   * of the old one, plus the jitter (5 rpm) and the rounding (half an rpm).
   */
  lemma RunningApproachesTarget(m: MotorMetrics, targetPwm: real, j: Jitter, pow: real -> real)
    requires ValidJitter(j) && targetPwm >= 0.0
    ensures var target := (targetPwm / 100.0) * MaxRpm;
      Abs(Simulate(m, targetPwm, true, j, pow).rpm - target) <= SpindownFactor * Abs(m.rpm - target) + 5.5
  {
  }

  /**
   * Under duty cycles of at most 100% the running speed, once within
   * [0, 3030] rpm, stays there: the jitter can carry it past the rated 3000
   * but the raw speed stays below 3030.5.
   */
  lemma RunningRpmBounded(m: MotorMetrics, targetPwm: real, j: Jitter, pow: real -> real)
    requires ValidJitter(j) && 0.0 <= targetPwm <= 100.0
    requires 0.0 <= m.rpm <= 3030.0
    ensures 0.0 <= Simulate(m, targetPwm, true, j, pow).rpm <= 3030.0
  {
    RunningSpeed(m, targetPwm, j, pow);
    RoundedRawRpmBounded(m.rpm, targetPwm, j);
  }

  /** The rounded raw speed of a running step from [0, 3030] rpm stays in [0, 3030]. */
  lemma RoundedRawRpmBounded(rpm: real, targetPwm: real, j: Jitter)
    requires ValidJitter(j) && 0.0 <= targetPwm <= 100.0
    requires 0.0 <= rpm <= 3030.0
    ensures 0.0 <= Round(RunningRawRpm(rpm, targetPwm, j)) <= 3030.0
  {
    var targetRpm := (targetPwm / 100.0) * MaxRpm;
    assert targetRpm <= MaxRpm;
    assert rpm + (targetRpm - rpm) * Acceleration <= 3025.5;
    var newRpm := RunningRawRpm(rpm, targetPwm, j);
    assert newRpm < 3030.5;
    var f := (newRpm + 0.5).Floor;
    assert f as real <= newRpm + 0.5 < 3031.0;
  }

  /** 3030 is the smallest whole bound kept: from 3029 rpm at full duty one tick can report 3030. */
  lemma RunningRpmReachesBound(m: MotorMetrics, pow: real -> real)
    requires m.rpm == 3029.0
    ensures Simulate(m, 100.0, true, Jitter(0.99, 0.5, 0.5, 0.5, 0.5, 0.5), pow).rpm == 3030.0
  {
    assert RunningRawRpm(m.rpm, 100.0, Jitter(0.99, 0.5, 0.5, 0.5, 0.5, 0.5)) == 3029.55;
    assert (3029.55 + 0.5).Floor == 3030;
  }

  /** At full duty from rated speed, one running tick can report 3005 rpm. */
  lemma RunningRpmCanExceedRated(m: MotorMetrics, pow: real -> real)
    requires m.rpm == MaxRpm
    ensures Simulate(m, 100.0, true, Jitter(0.99, 0.5, 0.5, 0.5, 0.5, 0.5), pow).rpm == 3005.0
  {
    assert RunningRawRpm(m.rpm, 100.0, Jitter(0.99, 0.5, 0.5, 0.5, 0.5, 0.5)) == 3004.9;
    assert (3004.9 + 0.5).Floor == 3005;
  }
}
