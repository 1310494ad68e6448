# Motor dashboard engine, modelled in Dafny

This project models the telemetry engine of a browser dashboard for a single
motor controller (an ESP32 board, real or simulated), the logic of
`src/hooks/useMotorData.ts`. The engine keeps five pieces of state:

- the latest telemetry snapshot: speed, voltage, current, power, efficiency,
  PWM duty cycle and temperature;
- the derived system status, which includes a newest-first alert list;
- a rolling window of chart points;
- the operator's run flag;
- the target duty cycle.

It changes that state in two ways:

- **The periodic acquisition tick.** In simulation mode it runs one step of a
  motor simulation. Otherwise it polls the controller, and a failed poll keeps
  the previous snapshot. Either way it then derives the thermal and motor
  states and appends a chart point.
- **Four operator commands.** These are start, stop, emergency stop and set
  speed. Each sends a request that is skipped in simulation mode, and each
  changes the local state whatever the send returns.

Layout, one module per file:

- `js_math.dfy` (`JsMath`): `Math.round`, `max`, `min` and `abs` over `real`,
  and rounding to one decimal, with the monotonicity and grid lemmas the
  bounds need.
- `motor_types.dfy` (`MotorTypes`): snapshots, status, alerts, chart points
  and the initial snapshot.
- `status.dfy` (`Status`): `getThermalState` and the motor-state derivation.
- `alerts.dfy` (`Alerts`): the push-front list capped at five, and the
  exact-message filter.
- `history.dfy` (`History`): the `slice(-30)` chart window.
- `simulation.dfy` (`Simulation`): `simulateMotorBehavior`. The random draws
  are a `Jitter` argument. `Math.pow(loadFactor, 1.3)` is a function argument
  about which nothing is assumed.
- `remote.dfy` (`Remote`): payload normalisation with JavaScript's `||`
  defaults, the fetch outcome and the simulation short-circuit of sends.
- `engine.dfy` (`Engine`): the class `MotorController`. Its fields are the
  hook's state, with the tick and the commands as methods. Each method states
  its whole new state. The object invariant `Valid()` holds after every
  method:
  - history of at most 30 points;
  - at most 5 alerts;
  - target within [0, 100];
  - no `fault` state;
  - only alerts the engine raises.

Behaviour of the code that the proofs pin down:

- **The speed can pass its documented range.** The comment at
  `useMotorData.ts:9` gives 0-3000 rpm, but the running step's jitter can
  carry the speed past 3000. One tick from 3000 rpm at full duty can report
  3005 rpm (`RunningRpmCanExceedRated`). The smallest whole bound the step
  keeps is 3030: a speed in [0, 3030] stays there (`RunningRpmBounded`), and
  from 3029 rpm one tick can report 3030 (`RunningRpmReachesBound`).
- **Efficiency is gated on the unrounded speed.** The efficiency test uses the
  speed before rounding (`newRpm > 100`), but the stored speed is rounded. So a
  stored 100 rpm can come with a non-zero efficiency: 100.2 rpm is stored as
  100 with an efficiency above 0 (`StoredHundredRpmCanHaveEfficiency`). Only a
  stored speed of at most 99 guarantees zero efficiency
  (`RunningEfficiencyGate`).
- **A stopped motor never warms, if its temperature is on the one-decimal
  grid.** A stopped motor at or above 25 °C never gets warmer, provided its
  temperature is a multiple of 0.1, as every simulated temperature is. Off that
  grid, rounding can raise the value: 25.06 °C becomes 25.1 °C
  (`StoppedCoolsTowardAmbient`, `OffGridStoppedCanWarm`).
- **Falsy fields are defaulted, not only absent ones.** Payload fields are
  defaulted when they are falsy (`||`), so 0 is treated like a missing value.
  A reported power of 0 is replaced by voltage × current. A reported
  temperature of 0 °C becomes 28.5 °C.
- **The "Motor stopped" filter has nothing to remove.** No code path ever
  raises a "Motor stopped" alert. The filter in `startMotor` therefore leaves
  every reachable alert list unchanged.
- **A simulation tick leaves the communication status alone.** It does not
  reset it to `stable`. A tick updates `lastUpdate` even when the fetch
  failed.

## Model

| member | source | states |
|---|---|---|
| `JsMath.Round` | src/hooks/useMotorData.ts:139-145 | `Math.round` gives a whole number within half a unit of its argument |
| `MotorTypes.ModeOf` | src/hooks/useMotorData.ts:286 | the system mode is `simulation` exactly when simulation mode is on |
| `Status.ThermalStateOf` | src/hooks/useMotorData.ts:273-277 | critical iff temp ≥ 75, warning iff 55 ≤ temp < 75, normal iff temp < 55 (total and exclusive) |
| `Status.ThermalStateMonotone` | src/hooks/useMotorData.ts:273-277 | a hotter temperature never gets a milder thermal class |
| `Status.MotorStateOf` | src/hooks/useMotorData.ts:284 | running iff the run flag is set and rpm > 50, idle otherwise, never fault |
| `Alerts.PushAlert` | src/hooks/useMotorData.ts:207-210 | new alert at index 0, followed by the first (at most four) old alerts in order; length ≤ 5 |
| `Alerts.PushAllNewestFirst` | src/hooks/useMotorData.ts:326-329 | any run of pushes leaves the first five of (pushed alerts newest first) ++ (old list) |
| `Alerts.WithoutMessage` | src/hooks/useMotorData.ts:304 | no surviving alert carries the message, each survivor came from the list, the list never grows |
| `Alerts.WithoutMessageKeeps` | src/hooks/useMotorData.ts:304 | every alert with a different message survives the filter |
| `Alerts.WithoutMessageAppend` | src/hooks/useMotorData.ts:304 | the filter distributes over concatenation, so survivors keep their order |
| `Alerts.WithoutMessageIdentity` | src/hooks/useMotorData.ts:304 | a list without the message passes unchanged |
| `History.AppendPoint` | src/hooks/useMotorData.ts:243-247 | length min(30, n+1), new point last, below 30 a plain append, at 30 the oldest point evicted |
| `History.AppendAllIsWindow` | src/hooks/useMotorData.ts:243-247 | after any number of ticks the history is the last 30 of everything appended, in order |
| `History.ThirtyFirstTickEvictsFirst` | src/hooks/useMotorData.ts:243-247 | 31 ticks from empty: the first point is gone, the other 30 remain in order |
| `Simulation.StoppedStep` | src/hooks/useMotorData.ts:78-92 | stopped: efficiency and duty 0, rpm ≥ 0 and strictly smaller when positive, standby voltage/current/power ranges, temperature ≥ 25 on the 0.1 grid |
| `Simulation.OffGridStoppedCanWarm` | src/hooks/useMotorData.ts:80-91 | stopped from 25.06 °C, the stored temperature is 25.1 °C, warmer than before |
| `Simulation.StoppedCoolsTowardAmbient` | src/hooks/useMotorData.ts:80-91 | stopped: temperature ≥ 25 on the grid does not rise and stays ≥ 25; below 25 it becomes 25 |
| `Simulation.RunningSpeed` | src/hooks/useMotorData.ts:96-102 | running: duty cycle equals the target, rpm is the rounded raw speed, a non-negative whole number |
| `Simulation.RunningApproachesTarget` | src/hooks/useMotorData.ts:97-102 | running: the gap to the target speed shrinks to at most 85% plus 5.5 rpm of jitter and rounding |
| `Simulation.RunningRpmBounded` | src/hooks/useMotorData.ts:96-102 | running with duty in [0, 100] and an old speed in [0, 3030]: the new rpm is in [0, 3030] |
| `Simulation.RunningRpmReachesBound` | src/hooks/useMotorData.ts:96-102 | from 3029 rpm at full duty one tick can report 3030 rpm, so 3030 is the smallest whole bound kept |
| `Simulation.RunningRpmCanExceedRated` | src/hooks/useMotorData.ts:102 | from 3000 rpm at full duty, one tick can report 3005 rpm |
| `Simulation.RunningEfficiency` | src/hooks/useMotorData.ts:116-121 | efficiency is ≥ 0 and is 0 when the raw speed is ≤ 100 rpm |
| `Simulation.RunningEfficiencyGate` | src/hooks/useMotorData.ts:119-143 | running: stored efficiency ≥ 0, 0 when the raw rpm ≤ 100, and so when the stored rpm ≤ 99 |
| `Simulation.StoredHundredRpmCanHaveEfficiency` | src/hooks/useMotorData.ts:119-143 | running from 100.2 rpm at 3.34% duty: stored rpm is 100 and stored efficiency is above 0 |
| `Simulation.HeatedTemperature` | src/hooks/useMotorData.ts:128-136 | the running temperature before rounding never exceeds 85 °C |
| `Simulation.RunningTemperature` | src/hooks/useMotorData.ts:128-145 | running: stored temperature ≤ 85 and on the 0.1 grid |
| `Remote.OrElse` | src/hooks/useMotorData.ts:197-200 | `field \|\| fallback`: a present non-zero field passes, a missing or zero one gives the fallback |
| `Remote.NormaliseFields` | src/hooks/useMotorData.ts:193-201 | rpm/voltage/current passed through; power missing or 0 → voltage×current; efficiency, pwm missing → 0; temperature missing or 0 → 28.5 |
| `Remote.NormaliseCompleteExact` | src/hooks/useMotorData.ts:193-201 | a complete payload is taken verbatim iff temperature ≠ 0 and (power ≠ 0 or voltage×current = 0) |
| `Remote.Send` | src/hooks/useMotorData.ts:219-232 | in simulation mode a send succeeds without a request; otherwise it reports the transport's outcome |
| `Engine.ClampPwm` | src/hooks/useMotorData.ts:334 | result in [0, 100]; unchanged inside, 0 below, 100 above |
| `Engine.ClampPwmIdempotent` | src/hooks/useMotorData.ts:334 | clamping twice is clamping once |
| `Engine.MotorController.constructor` | src/hooks/useMotorData.ts:154-176 | quiescent start: initial snapshot, idle, normal, online, stable, no alerts, empty history, stopped, target 0 |
| `Engine.MotorController.FetchFromController` | src/hooks/useMotorData.ts:184-214 | success: normalised payload, link stable; failure: no snapshot, link interrupted, "Lost connection to controller" error pushed |
| `Engine.MotorController.UpdatePowerHistory` | src/hooks/useMotorData.ts:235-248 | history becomes the windowed append of the new point |
| `Engine.MotorController.Tick` | src/hooks/useMotorData.ts:252-293 | new metrics from simulation, payload or (on failure) the old snapshot; thermal and motor state derived from them; link status and alerts per fetch outcome; history point appended; run flag and target unchanged |
| `Engine.MotorController.StartMotor` | src/hooks/useMotorData.ts:298-306 | run flag set, reported running, "Motor stopped" alerts filtered out, which leaves the reachable alert list as it was |
| `Engine.MotorController.StopMotor` | src/hooks/useMotorData.ts:308-316 | run flag cleared, target 0, reported idle, alerts and metrics untouched |
| `Engine.MotorController.EmergencyStop` | src/hooks/useMotorData.ts:318-331 | run flag cleared, target 0, rpm and duty zeroed with all other metrics kept, idle, warning pushed to the front |
| `Engine.MotorController.SetTargetPwm` | src/hooks/useMotorData.ts:333-337 | target becomes the clamped value whatever the send returns |

## Left out

- React plumbing is not modelled. This covers `useState`, `useEffect`,
  `useRef` and `useCallback`. It also covers the `setInterval` schedule, its
  restart when a dependency changes and its teardown. A tick is one call of
  `Tick`.
- Interleaving of async command handlers with ticks is not modelled, and
  neither are stale closures. Methods run one at a time, and a tick reads the
  current run flag and target.
- `fetch`, HTTP, JSON parsing and `console.error` are not modelled. A poll is
  a `FetchOutcome` argument. A command send is a `transportOk` argument, and
  its result is discarded as the source discards it. Endpoints and request
  bodies are not modelled.
- Payload fields that are not numbers are not modelled. This includes
  `undefined` speed, voltage or current, and `NaN`. Optional fields are
  `Option<real>`.
- Floating point is not modelled: arithmetic is exact over `real`.
  `Math.round(x)` is `floor(x + 0.5)`. The model does not prove that power
  equals voltage × current after rounding, nor exact trajectories.
- `Math.random` is not modelled: its draws are the fields of `Jitter`.
- `Math.pow(loadFactor, 1.3)` is not modelled: it is a function argument, so
  no bound on the running current is claimed.
- `Date.now()` ids, `new Date()` times and `toLocaleTimeString` labels are
  opaque arguments. One `now` serves both the alert and `lastUpdate`.
- Of the settings, only `simulationMode` is modelled. `refreshRate` only
  schedules the timer, and `apiBaseUrl` only addresses requests.
  src/hooks/useSettings.ts is not part of this model.
- The dashboard components and src/pages/Index.tsx are not modelled. They
  render the engine's state and call its commands.
- Simulation.StoppedCoolsTowardAmbient: "no warmer than before" is proved only
  for a previous temperature on the 0.1 grid, because rounding can raise an
  off-grid value.
- Simulation.RunningEfficiencyGate: "zero efficiency at low speed" is proved
  for a stored speed of at most 99 rpm, not 100. The code tests the unrounded
  speed.
