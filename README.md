# EasyDriver stepper-motor driver, modelled in Dafny

This project models the EasyDriver driver of gobot, a Go robotics framework.
EasyDriver drives a stepper-motor board through four digital pins:

- step, which gets one low/high pulse per motor step;
- direction, where low means forward and high means backward;
- enable, optional, active low;
- sleep, optional, active low.

The behaviour modelled is the one the driver's test suite,
`drivers/gpio/easy_driver_test.go`, fixes case by case:

- the speed ceiling, and the delay between pulses;
- the step sequencer and its signed step counter;
- the bounded move `MoveDeg`;
- the free run `Run`/`Stop`/`Halt`, as a two-state machine (idle or moving);
- the direction and speed setters;
- `Enable`, `Disable`, `Sleep` and `Wake`. They commit their new state only
  after the pin write succeeded.

Files and modules:

- `options.dfy`, module `Options`: success (`None`) or an error (`Some(e)`).
- `gpio.dfy`, module `Gpio`: the digital-output adaptor. It is a class with
  two logs. `written` holds the writes that succeeded. `attempts` holds every
  write the driver asked for. A fault switch `failWrites` makes every write fail.
- `stepping.dfy`, module `Stepping`: directions and their literals, the pulse a
  step is made of, and the number of steps a move in degrees takes.
- `speed.dfy`, module `SpeedModel`: the speed ceiling set by the 700 pulses per
  second limit, and the delay per step in whole microseconds, with their bounds.
- `driver.dfy`, module `Driver`: the class `EasyDriver`. Its fields are the
  four pins, the steps per revolution, `speedRpm`, `direction`, `stepNum`,
  `disabled`, `sleeping` and `moving`. `moving` stands for the presence of the
  run-stop handle. Each method's frame names the fields it may change. Its
  `ensures` gives their new values and the exact writes made to the adaptor.
  `IsMoving`, `IsEnabled`, `IsSleeping` and `CurrentStep` read these fields.
- `scenarios.dfy`, module `Scenarios`: one method per test table, except that
  the Stop and Halt tests share `StopAfterRunCase` and the speed-ceiling table
  is the lemma `SpeedModel.MaxSpeedTable`. Each method builds a fresh adaptor and driver, arranges the case as the test does, calls the
  operation and returns what the test observes. Where the table has a concrete
  case, the `ensures` generalise it over the table's inputs.

The step angle is a float in the source. Here the motor is given by its whole
number of steps per revolution: the test motor's 0.5 degrees per step is 720
steps per revolution.

Two behaviours are fixed by the tests and are not what a first reading of
their constants suggests:

- The speed ceiling is `42000 / stepsPerRev`, truncated. 42000 is 700 pulses
  per second times 60. It is not derived from the 1428 microsecond pulse period
  the speed test names (`drivers/gpio/easy_driver_test.go:274`):
  `60000000 / (stepsPerRev * 1428)` gives 1167 for 36 steps per revolution,
  where the test expects 1166 (`drivers/gpio/easy_driver_test.go:284-287`).
- `Enable` without an enable pin leaves the board enabled even when it was
  marked disabled before. The test disables the driver, calls `Enable` and
  expects `IsEnabled()` to be true next to the "enPin is not set" error
  (`drivers/gpio/easy_driver_test.go:492-496, 513-526`). So the model clears
  `disabled` on that path and writes nothing.

The tests leave some points open. The model settles them as follows:

- The number of steps of a move is `|degrees| / stepAngle`, rounded to the
  nearest step. The tests only use moves that divide exactly.
- A disabled driver is reported as disabled before a running one is reported
  as already running.
- An unknown direction literal is reported before a missing direction pin.
- `Stop` and `Halt` on an idle driver succeed and change nothing.

## Model

| member | source | states |
|---|---|---|
| `Gpio.Adaptor.DigitalWrite` | drivers/gpio/easy_driver_test.go:575-587 | every write is logged as attempted; it succeeds and is logged as written exactly when the fault switch is off |
| `Stepping.ParseDirection` | drivers/gpio/easy_driver_test.go:215-233 | a literal is accepted exactly when it is the name of a direction, and then as that direction ("forward", "backward"); any other literal is rejected |
| `Stepping.DirectionLevel` | drivers/gpio/easy_driver_test.go:215-226 | the direction pin level is 0 or 1, and it is 0 exactly for forward |
| `Stepping.PulsesShape` | drivers/gpio/easy_driver_test.go:377-433 | n pulses are 2n writes to the step pin, alternating 0 then 1 |
| `Stepping.StepsForDegrees` | drivers/gpio/easy_driver_test.go:60-71 | the step count of a move is the whole number of steps nearest to abs(degrees) / step angle |
| `Stepping.ExactSteps` | drivers/gpio/easy_driver_test.go:60-71 | when abs(degrees) * steps-per-revolution is a multiple of 360, the step count is exactly that product / 360, with no rounding (1 and 20 degrees at 0.5 degrees per step give 2 and 40 steps) |
| `Stepping.DirectionName` | drivers/gpio/easy_driver_test.go:42 | the literal a direction is held and reported as: "forward" or "backward" (also 257, 268) |
| `Stepping.StepDelta` | drivers/gpio/easy_driver_test.go:379 | how one pulse moves the step counter: +1 forward, -1 backward (also 402, 424) |
| `Stepping.Pulse` | drivers/gpio/easy_driver_test.go:380-383 | one pulse on the step pin: (pin, 0) then (pin, 1) |
| `Stepping.Pulses` | drivers/gpio/easy_driver_test.go:380-432 | the expected write log of n steps: n times (pin, 0) then (pin, 1) |
| `SpeedModel.MaxSpeed` | drivers/gpio/easy_driver_test.go:273-312 | the ceiling is the largest rpm whose pulse rate, rpm * steps-per-revolution per minute, is at most 700 per second |
| `SpeedModel.DelayPerStepUs` | drivers/gpio/easy_driver_test.go:309-313 | the delay is the whole number of microseconds in one minute divided by rpm * steps-per-revolution, truncated |
| `SpeedModel.WithinMaxSpeed` | drivers/gpio/easy_driver_test.go:274-312 | an rpm is at most the ceiling if and only if its pulse rate is at most 700 per second |
| `SpeedModel.DelayNotBelowMinimum` | drivers/gpio/easy_driver_test.go:274 | at any speed from 1 up to the ceiling, pulses are at least 1428 microseconds apart |
| `SpeedModel.DelayAtMaxSpeedExact` | drivers/gpio/easy_driver_test.go:280-313 | when steps-per-revolution divides 42000, the delay at the ceiling is exactly 1428 microseconds |
| `SpeedModel.DelayAtMaxSpeedNearMinimum` | drivers/gpio/easy_driver_test.go:284-313 | for at most 41 steps per revolution, the delay at the ceiling is 1428 or 1429 microseconds, so it equals 1428 in the tens digit |
| `SpeedModel.MaxSpeedTable` | drivers/gpio/easy_driver_test.go:276-313 | the ceilings for 20/36/50/100/400 steps per revolution are 2100/1166/840/420/105, and each delay at the ceiling is 142x microseconds |
| `Gpio.Adaptor.Wrote` | drivers/gpio/easy_driver_test.go:575-587 | exactly one write was attempted since the old state, and it is in the written log exactly when it succeeded (the difference between 501 and 562) |
| `Gpio.Adaptor.constructor` | drivers/gpio/easy_driver_test.go:16 | a new test adaptor has empty written and attempted logs and does not fail writes (also 25, 253) |
| `Driver.EasyDriver.constructor` | drivers/gpio/easy_driver_test.go:27-46 | a new driver keeps its adaptor and pins, runs at 14 rpm forward at step 0, and is enabled, awake and idle; nothing is written |
| `Driver.EasyDriver.IsMoving` | drivers/gpio/easy_driver_test.go:119 | whether a free run is active, the presence of the run-stop handle; read by the Run, Stop, Halt, Disable and MotionBlocker contracts; Sleep leaves it unchanged through its frame (also 175, 189, 201, 605) |
| `Driver.EasyDriver.IsEnabled` | drivers/gpio/easy_driver_test.go:514-526 | the board is enabled exactly when it is not marked disabled; the Enable contract uses it for the enabled-by-default case (also 594, 604) |
| `Driver.EasyDriver.IsSleeping` | drivers/gpio/easy_driver_test.go:684 | whether the board is marked sleeping; read by the Sleep and Wake contracts (also 654, 726, 753) |
| `Driver.EasyDriver.CurrentStep` | drivers/gpio/easy_driver_test.go:466 | the signed step counter, net displacement rather than a pulse count |
| `Driver.EasyDriver.MotionBlocker` | drivers/gpio/easy_driver_test.go:72-81 | a move or run may start exactly when the driver is enabled and idle; otherwise the error is "is disabled" or "already running or moving" |
| `Driver.EasyDriver.AfterStart` | drivers/gpio/easy_driver_test.go:32 | the start hook returns no error |
| `Driver.EasyDriver.OnePinStepping` | drivers/gpio/easy_driver_test.go:368-469 | a successful step writes exactly (step pin, 0), (step pin, 1) and moves the counter by +1 forward or -1 backward; a failing write returns the write error, logs no write and leaves the counter |
| `Driver.EasyDriver.MoveDeg` | drivers/gpio/easy_driver_test.go:49-121 | disabled or running: the matching error, no write, counter unchanged; otherwise, with writes succeeding, one pulse per step in the current direction; with the fault switch on, the first write fails, so the result is the write error with nothing written and the counter unchanged (a zero-step move still succeeds); the moving flag is untouched |
| `Driver.EasyDriver.Run` | drivers/gpio/easy_driver_test.go:124-177 | from an enabled idle driver it succeeds and the driver is moving; otherwise it returns the blocking error, and a running driver keeps running |
| `Driver.EasyDriver.Stop` | drivers/gpio/easy_driver_test.go:180-190 | returns no error and the driver is idle |
| `Driver.EasyDriver.Halt` | drivers/gpio/easy_driver_test.go:192-202 | returns no error and the driver is idle |
| `Driver.EasyDriver.SetSpeed` | drivers/gpio/easy_driver_test.go:318-366 | 0 is refused and the speed is kept; a speed from 1 to the ceiling is stored; a higher one is stored as the ceiling and still reported as above the maximum |
| `Driver.EasyDriver.WriteOptionalPin` | drivers/gpio/easy_driver_test.go:234-247 | an empty pin gives "not set" and no write; otherwise exactly one write is attempted and its failure is the write error |
| `Driver.EasyDriver.SetDirection` | drivers/gpio/easy_driver_test.go:204-270 | an unknown literal or an empty direction pin gives its error with no write; otherwise the pin gets the direction's level, and the direction changes exactly when that write succeeded |
| `Driver.EasyDriver.Enable` | drivers/gpio/easy_driver_test.go:472-528 | with an enable pin: one write of 0, and the driver is enabled if the write succeeded and keeps its flag if it failed; without one: the "not set" error, no write, and the driver counts as enabled |
| `Driver.EasyDriver.Disable` | drivers/gpio/easy_driver_test.go:531-609 | with an enable pin: the run is stopped, then one write of 1, and the driver is disabled exactly if it succeeded; without one: the error and nothing else changes |
| `Driver.EasyDriver.Sleep` | drivers/gpio/easy_driver_test.go:612-688 | with a sleep pin: one write of 0, and sleeping is set if it succeeded and kept if it failed; without one: the error, no write, no change; a run is not stopped |
| `Driver.EasyDriver.Wake` | drivers/gpio/easy_driver_test.go:691-757 | with a sleep pin: one write of 1, and sleeping is cleared if it succeeded and kept if it failed; without one: the error, no write, no change |
| `Scenarios.NewTestDriver` | drivers/gpio/easy_driver_test.go:13-19 | builds a fresh adaptor, with the given fault switch, and a fresh driver on step pin "1" in its default state |
| `Scenarios.NewDriverCase` | drivers/gpio/easy_driver_test.go:21-47 | a new driver reports speed 14, "forward", step 0, not disabled, not sleeping, not moving, and its start and halt hooks return no error |
| `Scenarios.SteppingCase` | drivers/gpio/easy_driver_test.go:368-470 | f forward then b backward steps give step f - b (also as CurrentStep) and the writes of f + b pulses; with failing writes every call errs, step stays 0 and nothing is written |
| `Scenarios.MoveDegCase` | drivers/gpio/easy_driver_test.go:49-122 | at 0.5 degrees per step a move of d degrees gives 2abs(d) steps and 4abs(d) writes; disabled, running or failing gives its error with step 0 and no write (a 0 degree move succeeds even with failing writes); moving only when it was running already |
| `Scenarios.RunCase` | drivers/gpio/easy_driver_test.go:124-178 | run: moving, no error; disabled: its error and idle; already running: its error and still moving; a failing adaptor does not stop it starting |
| `Scenarios.StopAfterRunCase` | drivers/gpio/easy_driver_test.go:180-202 | after a successful run the driver is moving; after Stop or Halt it is idle and no error is returned |
| `Scenarios.SetDirectionCase` | drivers/gpio/easy_driver_test.go:204-271 | "forward" writes 0 and "backward" writes 1 to the direction pin and set the direction; an unknown literal, an empty pin or a failing write gives its error, no logged write and the direction stays "forward" |
| `Scenarios.SetSpeedCase` | drivers/gpio/easy_driver_test.go:318-366 | at 36 steps per revolution: 0 fails and the speed stays 0; 1 to 1166 are stored; above 1166 stores 1166 and fails with the maximum 1166 |
| `Scenarios.EnableCase` | drivers/gpio/easy_driver_test.go:472-529 | disabled then enabled: one write (enPin, 0) and enabled; no pin: its error, no write, enabled; failing write: its error, no logged write, still disabled |
| `Scenarios.DisableCase` | drivers/gpio/easy_driver_test.go:531-610 | with a pin the one attempt is (enPin, 1) and the run is stopped; success disables, a write error keeps it enabled; no pin: its error, no attempt, still enabled |
| `Scenarios.SleepCase` | drivers/gpio/easy_driver_test.go:612-689 | with a pin the one attempt is (sleepPin, 0); success sets sleeping, failure keeps it awake; no pin: its error and no attempt; a run keeps running |
| `Scenarios.WakeCase` | drivers/gpio/easy_driver_test.go:691-758 | with a pin the one attempt is (sleepPin, 1); success wakes, failure keeps it sleeping; no pin: its error and no attempt |

## Left out

- The background loop behind `Run` is not modelled. This covers its goroutine, the cancellation and join through the run-stop function, the mutex and the pulse delays. These exist for concurrency and timing. `Run` only sets `moving`; `Stop`, `Halt` and `Disable` clear it. The loop's own step writes are not modelled either.
- The skip-step-errors mode of the run loop is not modelled. It is observable only through the timing of the concurrent loop.
- Any delay between `MoveDeg`'s pulses is not modelled.
- The step angle is a float in the source. The model uses a positive whole number of steps per revolution instead, so step angles that do not divide 360 into a whole number of steps cannot be expressed. The model does not cover non-positive angles; the type excludes them.
- `Driver.EasyDriver.AfterStart`: pin writes made by the start hook are not modelled. The hook only returns no error here; the tests reset the write log after construction (`drivers/gpio/easy_driver_test.go:107, 255, 444, 511`), which suggests the source's start path writes.
- `Driver.EasyDriver.MoveDeg`: partial progress is not captured. With an adaptor that fails in the middle of a move, the source returns after k good pulses with the counter moved by k. Under the model's all-or-nothing fault switch only the first write can fail, so the early return after some pulses cannot arise.
- Durations are whole microseconds, not `time.Duration`.
- The named-command dispatch and the driver's name prefix are wrappers over code not shown.
- The adaptor's fault model is one switch that makes every write fail. Adaptors that fail only the first write or only some pins are not modelled. A pulse whose high write fails after its low write succeeded therefore cannot arise here, though `OnePinStepping` handles that path like the first.
- Error messages are kept as comments on the `Error` constructors; the model does not build the strings.
- `Stepping.ParseDirection`: accepts only the two exact literals. Whether the source folds case is not fixed by the tests, and strings here have no case folding.
- `SpeedModel.DelayPerStepUs`: requires a positive speed; the source's behaviour at 0 rpm is not shown, and the model does not cover it.
- `Driver.EasyDriver.Stop`: always returns no error. An error returned by joining the run loop is not modelled, since the loop is not.
