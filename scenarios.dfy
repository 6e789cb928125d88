/**
 * The driver's test cases, each as a method that builds a fresh adaptor and
 * driver, arranges the case, calls the operation and returns what the case
 * observes. The test motor has a step angle of 0.5 degrees (720 steps per
 * revolution) and the pins "1" (step), "2" (direction), "3" (enable), "4" (sleep).
 */
module Scenarios {
  import opened Options
  import opened Gpio
  import opened Stepping
  import opened Driver
  import SpeedModel

  const TestStepsPerRev: StepsPerRev := 720

  /** A new driver over a new adaptor whose fault switch is `simulateWriteErr`. */
  method NewTestDriver(stepsPerRev: StepsPerRev, dirPin: string, enPin: string, sleepPin: string,
                       simulateWriteErr: bool)
    returns (d: EasyDriver, a: Adaptor)
    ensures fresh(d) && fresh(a) && d.connection == a
    ensures d.stepsPerRev == stepsPerRev && d.stepPin == "1"
    ensures d.dirPin == dirPin && d.enPin == enPin && d.sleepPin == sleepPin
    ensures d.speedRpm == DefaultSpeedRpm && d.direction == Forward && d.stepNum == 0
    ensures !d.disabled && !d.sleeping && !d.moving
    ensures a.written == [] && a.attempts == [] && a.failWrites == simulateWriteErr
  {
    a := new Adaptor();
    a.failWrites := simulateWriteErr;
    d := new EasyDriver(a, stepsPerRev, "1", dirPin, enPin, sleepPin);
  }

  /** A new driver has the default state, and its start and halt hooks succeed. */
  method NewDriverCase()
    returns (speedRpm: nat, direction: string, stepNum: int, disabled: bool, sleeping: bool,
             moving: bool, startErr: Option<Error>, haltErr: Option<Error>)
    ensures speedRpm == 14 && direction == "forward" && stepNum == 0
    ensures !disabled && !sleeping && !moving
    ensures startErr == None && haltErr == None
  {
    var d, a := NewTestDriver(TestStepsPerRev, "2", "3", "4", false);
    startErr := d.AfterStart();
    haltErr := d.Halt();
    speedRpm, direction, stepNum := d.speedRpm, DirectionName(d.direction), d.stepNum;
    disabled, sleeping, moving := d.disabled, d.sleeping, d.moving;
  }

  /**
   * Calls the step sequencer `forth` times forward and then `back` times
   * backward, collecting the errors, as the stepping cases do.
   */
  method SteppingCase(forth: nat, back: nat, simulateWriteErr: bool)
    returns (errs: nat, stepNum: int, currentStep: int, written: seq<PinWrite>)
    ensures currentStep == stepNum
    ensures !simulateWriteErr ==> errs == 0 && stepNum == forth - back && written == Pulses("1", forth + back)
    ensures simulateWriteErr ==> errs == forth + back && stepNum == 0 && written == []
  {
    var d, a := NewTestDriver(TestStepsPerRev, "2", "3", "4", simulateWriteErr);
    errs := 0;
    var i := 0;
    while i < forth
      invariant 0 <= i <= forth
      invariant d.direction == Forward && a.failWrites == simulateWriteErr
      invariant !simulateWriteErr ==> errs == 0 && d.stepNum == i && a.written == Pulses("1", i)
      invariant simulateWriteErr ==> errs == i && d.stepNum == 0 && a.written == []
    {
      var err := d.OnePinStepping();
      if err != None {
        errs := errs + 1;
      }
      i := i + 1;
    }
    d.direction := Backward;
    var j := 0;
    while j < back
      invariant 0 <= j <= back
      invariant d.direction == Backward && a.failWrites == simulateWriteErr
      invariant !simulateWriteErr ==> errs == 0 && d.stepNum == forth - j && a.written == Pulses("1", forth + j)
      invariant simulateWriteErr ==> errs == forth + j && d.stepNum == 0 && a.written == []
    {
      var err := d.OnePinStepping();
      if err != None {
        errs := errs + 1;
      }
      j := j + 1;
    }
    stepNum, currentStep, written := d.stepNum, d.CurrentStep(), a.written;
  }

  /** A bounded move on the 0.5-degree motor, with the driver disabled, already running or failing writes as asked. */
  method MoveDegCase(inputDeg: int, simulateDisabled: bool, simulateAlreadyRunning: bool, simulateWriteErr: bool)
    returns (err: Option<Error>, stepNum: int, writes: nat, moving: bool)
    ensures moving == simulateAlreadyRunning
    ensures simulateDisabled ==> err == Some(Disabled) && stepNum == 0 && writes == 0
    ensures !simulateDisabled && simulateAlreadyRunning ==>
      err == Some(AlreadyRunning) && stepNum == 0 && writes == 0
    ensures !simulateDisabled && !simulateAlreadyRunning && !simulateWriteErr ==>
      err == None && stepNum == 2 * Abs(inputDeg) && writes == 4 * Abs(inputDeg)
    ensures !simulateDisabled && !simulateAlreadyRunning && simulateWriteErr ==>
      stepNum == 0 && writes == 0 && (err == None <==> inputDeg == 0) &&
      (err != None ==> err == Some(WriteError))
  {
    var d, a := NewTestDriver(TestStepsPerRev, "2", "3", "4", simulateWriteErr);
    d.disabled := simulateDisabled;
    d.moving := simulateAlreadyRunning;
    err := d.MoveDeg(inputDeg);
    ExactSteps(inputDeg, TestStepsPerRev);
    PulsesShape("1", 2 * Abs(inputDeg));
    stepNum, writes, moving := d.stepNum, |a.written|, d.IsMoving();
  }

  /** Starts the free run, with the driver disabled or already running as asked; a failing adaptor makes no difference. */
  method RunCase(simulateDisabled: bool, simulateAlreadyRunning: bool, simulateWriteErr: bool)
    returns (err: Option<Error>, moving: bool)
    ensures err == (if simulateDisabled then Some(Disabled)
                    else if simulateAlreadyRunning then Some(AlreadyRunning) else None)
    ensures moving == (!simulateDisabled || simulateAlreadyRunning)
  {
    var d, a := NewTestDriver(TestStepsPerRev, "2", "3", "4", simulateWriteErr);
    d.disabled := simulateDisabled;
    d.moving := simulateAlreadyRunning;
    err := d.Run();
    moving := d.IsMoving();
  }

  /** Runs, then stops (or halts, when `halt`): running in between, idle afterwards. */
  method StopAfterRunCase(halt: bool)
    returns (runErr: Option<Error>, movingBefore: bool, err: Option<Error>, movingAfter: bool)
    ensures runErr == None && movingBefore
    ensures err == None && !movingAfter
  {
    var d, a := NewTestDriver(TestStepsPerRev, "2", "3", "4", false);
    runErr := d.Run();
    movingBefore := d.IsMoving();
    if halt {
      err := d.Halt();
    } else {
      err := d.Stop();
    }
    movingAfter := d.IsMoving();
  }

  /** Sets the direction of a new (forward) driver from a literal, with the given direction pin. */
  method SetDirectionCase(input: string, dirPin: string, simulateWriteErr: bool)
    returns (err: Option<Error>, direction: string, written: seq<PinWrite>)
    ensures input != "forward" && input != "backward" ==>
      err == Some(InvalidDirection(input)) && direction == "forward" && written == []
    ensures (input == "forward" || input == "backward") && dirPin == "" ==>
      err == Some(PinNotSet(DirPin)) && direction == "forward" && written == []
    ensures (input == "forward" || input == "backward") && dirPin != "" && simulateWriteErr ==>
      err == Some(WriteError) && direction == "forward" && written == []
    ensures input == "forward" && dirPin != "" && !simulateWriteErr ==>
      err == None && direction == "forward" && written == [PinWrite(dirPin, 0)]
    ensures input == "backward" && dirPin != "" && !simulateWriteErr ==>
      err == None && direction == "backward" && written == [PinWrite(dirPin, 1)]
  {
    var d, a := NewTestDriver(TestStepsPerRev, dirPin, "3", "4", simulateWriteErr);
    err := d.SetDirection(input);
    direction, written := DirectionName(d.direction), a.written;
  }

  /** Sets the speed of a 36-steps-per-revolution driver whose speed was 0 (ceiling 1166 rpm). */
  method SetSpeedCase(input: nat) returns (err: Option<Error>, speedRpm: nat)
    ensures input == 0 ==> err == Some(ZeroRpm) && speedRpm == 0
    ensures 1 <= input <= 1166 ==> err == None && speedRpm == input
    ensures input > 1166 ==> err == Some(RpmAboveMaximum(1166)) && speedRpm == 1166
  {
    var d, a := NewTestDriver(36, "2", "3", "4", false);
    d.speedRpm := 0;
    assert SpeedModel.MaxSpeed(36) == 1166;
    err := d.SetSpeed(input);
    speedRpm := d.speedRpm;
  }

  /** Enables a driver that was disabled, with the given enable pin. */
  method EnableCase(enPin: string, simulateWriteErr: bool)
    returns (err: Option<Error>, written: seq<PinWrite>, enabled: bool)
    ensures enPin == "" ==> err == Some(PinNotSet(EnPin)) && written == [] && enabled
    ensures enPin != "" && !simulateWriteErr ==> err == None && written == [PinWrite(enPin, 0)] && enabled
    ensures enPin != "" && simulateWriteErr ==> err == Some(WriteError) && written == [] && !enabled
  {
    var d, a := NewTestDriver(TestStepsPerRev, "2", enPin, "4", simulateWriteErr);
    d.disabled := true;
    err := d.Enable();
    written, enabled := a.written, d.IsEnabled();
  }

  /** Disables an enabled driver, optionally while it runs; `attempts` are the writes asked of the adaptor. */
  method DisableCase(enPin: string, runBefore: bool, simulateWriteErr: bool)
    returns (err: Option<Error>, attempts: seq<PinWrite>, enabled: bool, moving: bool)
    ensures enPin == "" ==> err == Some(PinNotSet(EnPin)) && attempts == [] && enabled && moving == runBefore
    ensures enPin != "" ==> !moving && attempts == [PinWrite(enPin, 1)]
    ensures enPin != "" && !simulateWriteErr ==> err == None && !enabled
    ensures enPin != "" && simulateWriteErr ==> err == Some(WriteError) && enabled
  {
    var d, a := NewTestDriver(TestStepsPerRev, "2", enPin, "4", simulateWriteErr);
    if runBefore {
      var _ := d.Run();
    }
    err := d.Disable();
    attempts, enabled, moving := a.attempts, d.IsEnabled(), d.IsMoving();
  }

  /** Puts an awake driver to sleep, optionally while it runs; the run is not stopped. */
  method SleepCase(sleepPin: string, runBefore: bool, simulateWriteErr: bool)
    returns (err: Option<Error>, attempts: seq<PinWrite>, sleeping: bool, moving: bool)
    ensures moving == runBefore
    ensures sleepPin == "" ==> err == Some(PinNotSet(SleepPin)) && attempts == [] && !sleeping
    ensures sleepPin != "" ==> attempts == [PinWrite(sleepPin, 0)]
    ensures sleepPin != "" && !simulateWriteErr ==> err == None && sleeping
    ensures sleepPin != "" && simulateWriteErr ==> err == Some(WriteError) && !sleeping
  {
    var d, a := NewTestDriver(TestStepsPerRev, "2", "3", sleepPin, simulateWriteErr);
    if runBefore {
      var _ := d.Run();
    }
    err := d.Sleep();
    attempts, sleeping, moving := a.attempts, d.IsSleeping(), d.IsMoving();
  }

  /** Wakes a sleeping driver. */
  method WakeCase(sleepPin: string, simulateWriteErr: bool)
    returns (err: Option<Error>, attempts: seq<PinWrite>, sleeping: bool)
    ensures sleepPin == "" ==> err == Some(PinNotSet(SleepPin)) && attempts == [] && sleeping
    ensures sleepPin != "" ==> attempts == [PinWrite(sleepPin, 1)]
    ensures sleepPin != "" && !simulateWriteErr ==> err == None && !sleeping
    ensures sleepPin != "" && simulateWriteErr ==> err == Some(WriteError) && sleeping
  {
    var d, a := NewTestDriver(TestStepsPerRev, "2", "3", sleepPin, simulateWriteErr);
    d.sleeping := true;
    err := d.Wake();
    attempts, sleeping := a.attempts, d.IsSleeping();
  }
}
