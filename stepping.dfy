/**
 * The step sequencer's vocabulary: the two directions, the pulse a step is made
 * of, and how a move given in degrees turns into a number of steps.
 */
module Stepping {
  import opened Options
  import opened Gpio

  /** Full steps per revolution of the motor, 360 divided by the step angle. */
  type StepsPerRev = n: int | n > 0 witness 1

  datatype Direction = Forward | Backward

  /** The literal a direction is set with and reported as. */
  function DirectionName(d: Direction): string {
    match d
    case Forward => "forward"
    case Backward => "backward"
  }

  /** Reads a direction literal; only the two exact names are accepted. */
  function ParseDirection(s: string): (r: Option<Direction>)
    ensures forall d :: r == Some(d) <==> s == DirectionName(d)
  {
    if s == "forward" then Some(Forward)
    else if s == "backward" then Some(Backward)
    else None
  }

  /** The level written to the direction pin: low means forward. */
  function DirectionLevel(d: Direction): (v: Byte)
    ensures v == Low || v == High
    ensures v == Low <==> d == Forward
  {
    if d == Forward then Low else High
  }

  /** How one pulse moves the signed step counter. */
  function StepDelta(d: Direction): int {
    if d == Forward then 1 else -1
  }

  /** One pulse on the step pin: low, then high (a step happens on the rising edge). */
  function Pulse(pin: string): seq<PinWrite> {
    [PinWrite(pin, Low), PinWrite(pin, High)]
  }

  /** The writes of `n` pulses in a row. */
  function Pulses(pin: string, n: nat): seq<PinWrite> {
    if n == 0 then [] else Pulses(pin, n - 1) + Pulse(pin)
  }

  /** `n` pulses are `2 * n` writes to the step pin that alternate low, high, low, high, ... */
  lemma {:induction false} PulsesShape(pin: string, n: nat)
    ensures |Pulses(pin, n)| == 2 * n
    ensures forall k :: 0 <= k < 2 * n ==>
      Pulses(pin, n)[k] == PinWrite(pin, if k % 2 == 0 then Low else High)
  {
    if n > 0 {
      PulsesShape(pin, n - 1);
    }
  }

  function Abs(x: int): nat {
    if x < 0 then -x else x
  }

  /**
   * The number of steps for a move of `degs` degrees: |degs| divided by the
   * step angle 360 / spr, rounded to the nearest whole step (halves round up).
   * The sign of `degs` does not choose the direction.
   */
  function StepsForDegrees(degs: int, spr: StepsPerRev): (steps: nat)
    ensures 360 * steps - 180 <= Abs(degs) * spr < 360 * steps + 180
  {
    (Abs(degs) * spr + 180) / 360
  }

  /** When the step angle divides the move exactly, no rounding happens: the steps are |degs| * spr / 360. */
  lemma ExactSteps(degs: int, spr: StepsPerRev)
    requires (Abs(degs) * spr) % 360 == 0
    ensures StepsForDegrees(degs, spr) == Abs(degs) * spr / 360
  {
    var x := Abs(degs) * spr;
    assert x == 360 * (x / 360);
    assert (x + 180) / 360 == x / 360;
  }
}
