/**
 * The speed model: the speed ceiling that a fixed maximum pulse rate imposes,
 * and the time between two pulses at a given speed, in whole microseconds.
 */
module SpeedModel {
  import opened Stepping

  /** The highest pulse rate the board is driven at, in pulses per second. */
  const MaxStepsPerSecond: nat := 700
  /** That rate in pulses per minute, the unit rpm times steps-per-revolution is in. */
  const MaxStepsPerMinute: nat := 60 * MaxStepsPerSecond
  const MicrosPerMinute: nat := 60_000_000
  /** The pulse period at the maximum rate, 1/700 s, in whole microseconds. */
  const MinStepDelayUs: nat := 1428

  /** The speed ceiling in rpm: the highest whole rpm whose pulse rate does not exceed 700 per second. */
  function MaxSpeed(spr: StepsPerRev): (rpm: nat)
    ensures rpm * spr <= MaxStepsPerMinute < (rpm + 1) * spr
  {
    MaxStepsPerMinute / spr
  }

  /** The time to wait between two pulses at `rpm`, in whole microseconds (truncated). */
  function DelayPerStepUs(spr: StepsPerRev, rpm: nat): (us: nat)
    requires rpm > 0
    ensures us * (rpm * spr) <= MicrosPerMinute < (us + 1) * (rpm * spr)
  {
    MicrosPerMinute / (rpm * spr)
  }

  /** A speed is within the ceiling exactly when its pulse rate stays within 700 per second. */
  lemma WithinMaxSpeed(spr: StepsPerRev, rpm: nat)
    ensures rpm <= MaxSpeed(spr) <==> rpm * spr <= MaxStepsPerMinute
  {
    var m := MaxSpeed(spr);
    if rpm <= m {
      MulMonotone(rpm, m, spr);
    } else {
      MulMonotone(m + 1, rpm, spr);
    }
  }

  /** At any speed up to the ceiling the pulses are at least 1428 microseconds apart. */
  lemma DelayNotBelowMinimum(spr: StepsPerRev, rpm: nat)
    requires 1 <= rpm <= MaxSpeed(spr)
    ensures DelayPerStepUs(spr, rpm) >= MinStepDelayUs
  {
    WithinMaxSpeed(spr, rpm);
    var x := rpm * spr;
    MulMonotone(x, MaxStepsPerMinute, MinStepDelayUs);
    QuotientAtLeast(MicrosPerMinute, x, MinStepDelayUs);
  }

  /** When steps-per-revolution divides 42000, the ceiling hits 700 pulses per second exactly: 1428 microseconds. */
  lemma DelayAtMaxSpeedExact(spr: StepsPerRev)
    requires MaxStepsPerMinute % spr == 0
    ensures MaxSpeed(spr) > 0
    ensures DelayPerStepUs(spr, MaxSpeed(spr)) == MinStepDelayUs
  {
    var m := MaxSpeed(spr);
    assert m * spr == MaxStepsPerMinute;
  }

  /**
   * For coarse motors (at most 41 steps per revolution) the delay at the ceiling
   * is 1428 or 1429 microseconds: it agrees with 1428 to the tens digit.
   */
  lemma DelayAtMaxSpeedNearMinimum(spr: StepsPerRev)
    requires spr <= 41
    ensures MaxSpeed(spr) > 0
    ensures MinStepDelayUs <= DelayPerStepUs(spr, MaxSpeed(spr)) <= MinStepDelayUs + 1
    ensures DelayPerStepUs(spr, MaxSpeed(spr)) / 10 == MinStepDelayUs / 10
  {
    var m := MaxSpeed(spr);
    var x := m * spr;
    assert x > MaxStepsPerMinute - 41;
    DelayNotBelowMinimum(spr, m);
    MulMonotone(MaxStepsPerMinute - 40, x, MinStepDelayUs + 2);
    QuotientBelow(MicrosPerMinute, x, MinStepDelayUs + 2);
  }

  lemma MulMonotone(a: nat, b: nat, c: nat)
    requires a <= b
    ensures a * c <= b * c
  {
  }

  /** If `q * x` fits in `n`, the quotient `n / x` is at least `q`. */
  lemma QuotientAtLeast(n: nat, x: int, q: nat)
    requires x > 0 && q * x <= n
    ensures n / x >= q
  {
    var d := n / x;
    assert n < (d + 1) * x;
    MulCancel(q, d + 1, x);
  }

  /** If `q * x` exceeds `n`, the quotient `n / x` is below `q`. */
  lemma QuotientBelow(n: nat, x: int, q: nat)
    requires x > 0 && q * x > n
    ensures n / x < q
  {
    var d := n / x;
    assert d * x <= n;
    MulCancel(d, q, x);
  }

  lemma MulCancel(a: int, b: int, x: int)
    requires x > 0 && a * x < b * x
    ensures a < b
  {
  }

  /** The five motors of the speed table: their ceilings, and the delay at each ceiling. */
  lemma MaxSpeedTable()
    ensures MaxSpeed(20) == 2100 && MaxSpeed(36) == 1166 && MaxSpeed(50) == 840
    ensures MaxSpeed(100) == 420 && MaxSpeed(400) == 105
    ensures DelayPerStepUs(20, 2100) / 10 == 142 && DelayPerStepUs(36, 1166) / 10 == 142
    ensures DelayPerStepUs(50, 840) / 10 == 142 && DelayPerStepUs(100, 420) / 10 == 142
    ensures DelayPerStepUs(400, 105) / 10 == 142
  {
    DelayAtMaxSpeedExact(20);
    DelayAtMaxSpeedNearMinimum(36);
    DelayAtMaxSpeedExact(50);
    DelayAtMaxSpeedExact(100);
    DelayAtMaxSpeedExact(400);
  }
}
