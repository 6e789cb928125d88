/**
 * The digital-output capability the driver writes through. It is abstracted as
 * the log of the writes the adaptor accepted, the log of every write attempted
 * (accepted or not) and a fault switch that makes every write fail.
 */
module Gpio {

  /** A value written to a digital pin; the driver only writes 0 and 1. */
  newtype Byte = x: int | 0 <= x < 256

  const Low: Byte := 0
  const High: Byte := 1

  /** One write of `val` to the pin named `pin`. */
  datatype PinWrite = PinWrite(pin: string, val: Byte)

  class Adaptor {
    /** The writes that succeeded, oldest first. */
    var written: seq<PinWrite>
    /** Every write the driver asked for, including the ones that failed. */
    var attempts: seq<PinWrite>
    /** When set, every write fails and is left out of `written`. */
    var failWrites: bool

    constructor ()
      ensures written == [] && attempts == [] && !failWrites
    {
      written, attempts, failWrites := [], [], false;
    }

    /** The one hardware primitive: write `val` to `pin`; `ok` is false when the write failed. */
    method DigitalWrite(pin: string, val: Byte) returns (ok: bool)
      modifies this`written, this`attempts
      ensures ok == !failWrites
      ensures Wrote(PinWrite(pin, val), ok)
    {
      ok := !failWrites;
      attempts := attempts + [PinWrite(pin, val)];
      if ok {
        written := written + [PinWrite(pin, val)];
      }
    }

    /** Since the old state exactly one write, `w`, was attempted; it is logged as written iff `ok`. */
    twostate predicate Wrote(w: PinWrite, ok: bool)
      reads this
    {
      attempts == old(attempts) + [w] &&
      written == old(written) + (if ok then [w] else [])
    }
  }
}
