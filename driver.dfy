/**
 * The EasyDriver stepper-motor driver: four pins (step, direction, and the
 * optional enable and sleep), the speed setting, the direction, the signed step
 * counter, the disabled and sleeping flags, and whether a free run is active.
 * Every pin write goes through the driver's `Adaptor`.
 */
module Driver {
  import opened Options
  import opened Gpio
  import opened Stepping
  import SpeedModel

  /** The optional pins, named in the "not set" errors. */
  datatype PinRole = DirPin | EnPin | SleepPin

  /** The errors the driver returns; the comment gives the message each one stands for. */
  datatype Error =
    | WriteError                      // the adaptor's "write error"
    | Disabled                        // "... is disabled"
    | AlreadyRunning                  // "... already running or moving"
    | PinNotSet(role: PinRole)        // "dirPin is not set", "enPin is not set", "sleepPin is not set"
    | InvalidDirection(given: string) // "Invalid direction '<given>'"
    | ZeroRpm                         // "RPM (0) cannot be a zero or negative value"
    | RpmAboveMaximum(max: nat)       // "... cannot be greater then maximal value <max>"

  /** The speed a new driver starts with, in rpm. */
  const DefaultSpeedRpm: nat := 14

  class EasyDriver {
    const connection: Adaptor
    const stepPin: string
    const dirPin: string
    const enPin: string
    const sleepPin: string
    const stepsPerRev: StepsPerRev

    var speedRpm: nat
    var direction: Direction
    /** Net displacement in steps: +1 per forward pulse, -1 per backward pulse. */
    var stepNum: int
    var disabled: bool
    var sleeping: bool
    /** Whether a free run started by `Run` is active (the run-stop handle is present). */
    var moving: bool

    /** A new driver: default speed, forward, at step 0, enabled, awake, idle; nothing is written. */
    constructor (connection: Adaptor, stepsPerRev: StepsPerRev,
                 stepPin: string, dirPin: string, enPin: string, sleepPin: string)
      ensures this.connection == connection && this.stepsPerRev == stepsPerRev
      ensures this.stepPin == stepPin && this.dirPin == dirPin
      ensures this.enPin == enPin && this.sleepPin == sleepPin
      ensures speedRpm == DefaultSpeedRpm && direction == Forward && CurrentStep() == 0
      ensures IsEnabled() && !IsSleeping() && !IsMoving()
    {
      this.connection := connection;
      this.stepsPerRev := stepsPerRev;
      this.stepPin, this.dirPin := stepPin, dirPin;
      this.enPin, this.sleepPin := enPin, sleepPin;
      speedRpm := DefaultSpeedRpm;
      direction := Forward;
      stepNum := 0;
      disabled, sleeping, moving := false, false, false;
    }

    function IsMoving(): bool reads this { moving }
    function IsEnabled(): bool reads this { !disabled }
    function IsSleeping(): bool reads this { sleeping }
    function CurrentStep(): int reads this { stepNum }

    /** Why a bounded move or a free run may not start now, if at all. */
    function MotionBlocker(): (r: Option<Error>)
      reads this
      ensures r == None <==> IsEnabled() && !IsMoving()
      ensures r != None ==> r == Some(if disabled then Disabled else AlreadyRunning)
    {
      if disabled then Some(Disabled)
      else if moving then Some(AlreadyRunning)
      else None
    }

    /** The start hook: it returns no error; any pin writes of the start hook are not modelled. */
    method AfterStart() returns (err: Option<Error>)
      ensures err == None
    {
      err := None;
    }

    /**
     * One step: a low, then a high write to the step pin; once both succeed the
     * step counter moves one step in the current direction. A failing write
     * ends the call with that error and leaves the counter where it was.
     */
    method OnePinStepping() returns (err: Option<Error>)
      modifies this`stepNum, connection`written, connection`attempts
      ensures err == None <==> !connection.failWrites
      ensures err != None ==> err == Some(WriteError)
      ensures connection.written == old(connection.written) + (if err == None then Pulse(stepPin) else [])
      ensures connection.attempts == old(connection.attempts) +
                (if err == None then Pulse(stepPin) else [PinWrite(stepPin, Low)])
      ensures CurrentStep() == old(CurrentStep()) + (if err == None then StepDelta(direction) else 0)
    {
      var ok := connection.DigitalWrite(stepPin, Low);
      if !ok {
        return Some(WriteError);
      }
      ok := connection.DigitalWrite(stepPin, High);
      if !ok {
        return Some(WriteError);
      }
      stepNum := stepNum + StepDelta(direction);
      err := None;
    }

    /**
     * A bounded move of `degs` degrees in the current direction. A disabled or
     * already running driver refuses it before any write. Otherwise it issues
     * one pulse per step and stops at the first write error, which it returns.
     */
    method MoveDeg(degs: int) returns (err: Option<Error>)
      modifies this`stepNum, connection`written, connection`attempts
      ensures MotionBlocker() != None ==>
        err == MotionBlocker() && CurrentStep() == old(CurrentStep()) && unchanged(connection)
      ensures MotionBlocker() == None && !connection.failWrites ==>
        var n := StepsForDegrees(degs, stepsPerRev);
        err == None &&
        CurrentStep() == old(CurrentStep()) + n * StepDelta(direction) &&
        connection.written == old(connection.written) + Pulses(stepPin, n) &&
        connection.attempts == old(connection.attempts) + Pulses(stepPin, n)
      ensures MotionBlocker() == None && connection.failWrites ==>
        var n := StepsForDegrees(degs, stepsPerRev);
        err == (if n == 0 then None else Some(WriteError)) &&
        CurrentStep() == old(CurrentStep()) &&
        connection.written == old(connection.written) &&
        connection.attempts == old(connection.attempts) + (if n == 0 then [] else [PinWrite(stepPin, Low)])
    {
      err := MotionBlocker();
      if err != None {
        return;
      }
      var n := StepsForDegrees(degs, stepsPerRev);
      var i := 0;
      while i < n
        invariant 0 <= i <= n
        invariant connection.failWrites ==> i == 0
        invariant err == None
        invariant stepNum == old(stepNum) + i * StepDelta(direction)
        invariant connection.written == old(connection.written) + Pulses(stepPin, i)
        invariant connection.attempts == old(connection.attempts) + Pulses(stepPin, i)
      {
        err := OnePinStepping();
        if err != None {
          return;
        }
        i := i + 1;
      }
    }

    /**
     * Starts the free run. A disabled or already running driver refuses, and
     * what was running keeps running; otherwise the driver is moving afterwards.
     */
    method Run() returns (err: Option<Error>)
      modifies this`moving
      ensures err == old(MotionBlocker())
      ensures IsMoving() <==> old(IsMoving()) || err == None
    {
      err := MotionBlocker();
      if err == None {
        moving := true;
      }
    }

    /** Stops the free run, if any, and waits for it: the driver is idle afterwards. */
    method Stop() returns (err: Option<Error>)
      modifies this`moving
      ensures err == None && !IsMoving()
    {
      moving := false;
      err := None;
    }

    /** The halt hook: stops the free run, if any. */
    method Halt() returns (err: Option<Error>)
      modifies this`moving
      ensures err == None && !IsMoving()
    {
      err := Stop();
    }

    /**
     * Sets the maximal speed: zero is refused and changes nothing; a speed above
     * the ceiling is stored as the ceiling and still reported as an error.
     */
    method SetSpeed(rpm: nat) returns (err: Option<Error>)
      modifies this`speedRpm
      ensures rpm == 0 ==> err == Some(ZeroRpm) && speedRpm == old(speedRpm)
      ensures 0 < rpm <= SpeedModel.MaxSpeed(stepsPerRev) ==> err == None && speedRpm == rpm
      ensures rpm > SpeedModel.MaxSpeed(stepsPerRev) ==>
        err == Some(RpmAboveMaximum(SpeedModel.MaxSpeed(stepsPerRev))) &&
        speedRpm == SpeedModel.MaxSpeed(stepsPerRev)
    {
      var max := SpeedModel.MaxSpeed(stepsPerRev);
      if rpm == 0 {
        return Some(ZeroRpm);
      }
      if rpm > max {
        speedRpm := max;
        return Some(RpmAboveMaximum(max));
      }
      speedRpm := rpm;
      err := None;
    }

    /**
     * The commit-on-success helper: an empty pin is reported as not set and
     * gets no write; otherwise exactly one write is attempted, and its failure
     * is the write error.
     */
    method WriteOptionalPin(role: PinRole, pin: string, val: Byte) returns (err: Option<Error>)
      modifies connection`written, connection`attempts
      ensures pin == "" ==> err == Some(PinNotSet(role)) && unchanged(connection)
      ensures pin != "" ==>
        connection.Wrote(PinWrite(pin, val), err == None) &&
        err == (if connection.failWrites then Some(WriteError) else None)
    {
      if pin == "" {
        return Some(PinNotSet(role));
      }
      var ok := connection.DigitalWrite(pin, val);
      err := if ok then None else Some(WriteError);
    }

    /**
     * Sets the direction from its literal. An unknown literal or a missing
     * direction pin is refused without a write; otherwise the pin gets the
     * direction's level and the direction changes only if that write succeeded.
     */
    method SetDirection(value: string) returns (err: Option<Error>)
      modifies this`direction, connection`written, connection`attempts
      ensures ParseDirection(value) == None ==>
        err == Some(InvalidDirection(value)) && direction == old(direction) && unchanged(connection)
      ensures ParseDirection(value) != None && dirPin == "" ==>
        err == Some(PinNotSet(DirPin)) && direction == old(direction) && unchanged(connection)
      ensures ParseDirection(value) != None && dirPin != "" ==>
        var d := ParseDirection(value).value;
        connection.Wrote(PinWrite(dirPin, DirectionLevel(d)), err == None) &&
        err == (if connection.failWrites then Some(WriteError) else None) &&
        direction == (if err == None then d else old(direction))
    {
      var parsed := ParseDirection(value);
      if parsed == None {
        return Some(InvalidDirection(value));
      }
      var d := parsed.value;
      err := WriteOptionalPin(DirPin, dirPin, DirectionLevel(d));
      if err == None {
        direction := d;
      }
    }

    /**
     * Enables the board by writing low to the enable pin. Without an enable pin
     * the board counts as enabled (it is enabled by default) and the call
     * reports the missing pin without a write.
     */
    method Enable() returns (err: Option<Error>)
      modifies this`disabled, connection`written, connection`attempts
      ensures enPin == "" ==> err == Some(PinNotSet(EnPin)) && IsEnabled() && unchanged(connection)
      ensures enPin != "" ==>
        connection.Wrote(PinWrite(enPin, Low), err == None) &&
        err == (if connection.failWrites then Some(WriteError) else None) &&
        IsEnabled() == (err == None || old(IsEnabled()))
    {
      if enPin == "" {
        disabled := false;
        return Some(PinNotSet(EnPin));
      }
      err := WriteOptionalPin(EnPin, enPin, Low);
      if err == None {
        disabled := false;
      }
    }

    /**
     * Disables the board: stops the free run first, then writes high to the
     * enable pin; the flag is set only when that write succeeded. Without an
     * enable pin nothing happens but the error.
     */
    method Disable() returns (err: Option<Error>)
      modifies this`disabled, this`moving, connection`written, connection`attempts
      ensures enPin == "" ==>
        err == Some(PinNotSet(EnPin)) && disabled == old(disabled) && moving == old(moving) &&
        unchanged(connection)
      ensures enPin != "" ==>
        !IsMoving() &&
        connection.Wrote(PinWrite(enPin, High), err == None) &&
        err == (if connection.failWrites then Some(WriteError) else None) &&
        IsEnabled() == (err != None && old(IsEnabled()))
    {
      if enPin == "" {
        return Some(PinNotSet(EnPin));
      }
      var _ := Stop();
      err := WriteOptionalPin(EnPin, enPin, High);
      if err == None {
        disabled := true;
      }
    }

    /** Puts the board to sleep by writing low to the sleep pin; a free run is not stopped. */
    method Sleep() returns (err: Option<Error>)
      modifies this`sleeping, connection`written, connection`attempts
      ensures sleepPin == "" ==> err == Some(PinNotSet(SleepPin)) && sleeping == old(sleeping) && unchanged(connection)
      ensures sleepPin != "" ==>
        connection.Wrote(PinWrite(sleepPin, Low), err == None) &&
        err == (if connection.failWrites then Some(WriteError) else None) &&
        IsSleeping() == (err == None || old(IsSleeping()))
    {
      err := WriteOptionalPin(SleepPin, sleepPin, Low);
      if err == None {
        sleeping := true;
      }
    }

    /** Wakes the board by writing high to the sleep pin. */
    method Wake() returns (err: Option<Error>)
      modifies this`sleeping, connection`written, connection`attempts
      ensures sleepPin == "" ==> err == Some(PinNotSet(SleepPin)) && sleeping == old(sleeping) && unchanged(connection)
      ensures sleepPin != "" ==>
        connection.Wrote(PinWrite(sleepPin, High), err == None) &&
        err == (if connection.failWrites then Some(WriteError) else None) &&
        IsSleeping() == (err != None && old(IsSleeping()))
    {
      err := WriteOptionalPin(SleepPin, sleepPin, High);
      if err == None {
        sleeping := false;
      }
    }
  }
}
