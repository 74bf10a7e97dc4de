/**
 * The generator as the library's implementation file defines it: built from
 * a signal type, a timer and two pins (real and imaginary), it range-checks
 * the pins against the board's pin count and keeps them only when they pass.
 */
module GeneratorImpl {
  import opened Capabilities

  /** Whether the generator drives one pin (REAL) or a pair of pins (COMPLEX). */
  datatype SignalType = REAL | COMPLEX

  type PinCount = n: int | 0 < n witness 1

  /** The board's number of digital pins, supplied by the Arduino core; only its positivity is known. */
  const NumDigitalPins: PinCount

  /** A pin number the board actually has. */
  predicate InDeviceRange(p: int) {
    0 <= p < NumDigitalPins
  }

  /**
   * The range check of `validate`, with its operators grouped as the
   * compiler groups them: `&&` before `||`. A real pin above the pin count
   * fails; an imaginary pin fails when it is above the pin count, or when it
   * is negative and the signal is complex. Nothing else fails.
   */
  function PinsInRange(signalType: SignalType, realPin: DigitalPin, imaginaryPin: DigitalPin): (ok: bool)
    ensures realPin > NumDigitalPins ==> !ok
    ensures imaginaryPin > NumDigitalPins ==> !ok
    ensures signalType == COMPLEX && imaginaryPin < 0 ==> !ok
    ensures realPin <= NumDigitalPins && imaginaryPin <= NumDigitalPins && (signalType == COMPLEX ==> imaginaryPin >= 0) ==> ok
  {
    if realPin > NumDigitalPins then false
    else if (signalType == COMPLEX && imaginaryPin < 0) || imaginaryPin > NumDigitalPins then false
    else true
  }

  /**
   * The implementation's view of a generator. The signal type and timer are
   * fixed at construction; the pins are recorded by `Validate`.
   */
  class SignalGenerator {
    const signalType: SignalType
    const timer: Timer
    var realPin: DigitalPin
    var imaginaryPin: DigitalPin

    /**
     * Records the signal type and timer whatever the pins are, then keeps
     * the pins if they pass the range check. A failed check has no further
     * effect; the pins are then unspecified.
     */
    constructor (signalType: SignalType, timer: Timer, realPin: DigitalPin, imaginaryPin: DigitalPin)
      ensures this.signalType == signalType && this.timer == timer
      ensures PinsInRange(signalType, realPin, imaginaryPin) ==> this.realPin == realPin && this.imaginaryPin == imaginaryPin
    {
      this.signalType := signalType;
      this.timer := timer;
      new;
      var ok := Validate(realPin, imaginaryPin);
    }

    /**
     * Range-checks the pins; on success records them and answers true, on
     * failure answers false and leaves the recorded pins as they were.
     */
    method Validate(realPin: DigitalPin, imaginaryPin: DigitalPin) returns (ok: bool)
      modifies this`realPin, this`imaginaryPin
      ensures ok == PinsInRange(signalType, realPin, imaginaryPin)
      ensures ok ==> this.realPin == realPin && this.imaginaryPin == imaginaryPin
      ensures !ok ==> this.realPin == old(this.realPin) && this.imaginaryPin == old(this.imaginaryPin)
    {
      if realPin > NumDigitalPins {
        return false;
      }
      if (signalType == COMPLEX && imaginaryPin < 0) || imaginaryPin > NumDigitalPins {
        return false;
      }
      this.realPin := realPin;
      this.imaginaryPin := imaginaryPin;
      return true;
    }
  }

  /** Pins the board has always pass the check, for either signal type. */
  lemma AcceptsPinsInDeviceRange(signalType: SignalType, realPin: DigitalPin, imaginaryPin: DigitalPin)
    requires InDeviceRange(realPin) && InDeviceRange(imaginaryPin)
    ensures PinsInRange(signalType, realPin, imaginaryPin)
  {
  }

  /** For a complex signal the imaginary pin is bounded on both sides. */
  lemma ComplexImaginaryBounds(realPin: DigitalPin, imaginaryPin: DigitalPin)
    requires realPin <= NumDigitalPins
    ensures PinsInRange(COMPLEX, realPin, imaginaryPin) <==> 0 <= imaginaryPin <= NumDigitalPins
  {
  }

  /**
   * For a real signal the imaginary pin has an upper bound only: a negative
   * imaginary pin is accepted, while one above the pin count is refused.
   */
  lemma RealImaginaryUpperBoundOnly(realPin: DigitalPin, imaginaryPin: DigitalPin)
    requires realPin <= NumDigitalPins
    ensures PinsInRange(REAL, realPin, imaginaryPin) <==> imaginaryPin <= NumDigitalPins
    ensures imaginaryPin < 0 ==> PinsInRange(REAL, realPin, imaginaryPin)
  {
  }

  /**
   * The check accepts pins the board does not have: real pin -1 for either
   * signal type and, for a real signal, imaginary pin -1; and, on a board
   * whose pin count fits a pin number, a real pin equal to the pin count.
   */
  lemma AcceptsPinsOutsideDeviceRange(signalType: SignalType)
    ensures !InDeviceRange(-1) && PinsInRange(signalType, -1, 0)
    ensures PinsInRange(REAL, 0, -1)
    ensures NumDigitalPins < 128 ==>
              !InDeviceRange(NumDigitalPins) && PinsInRange(signalType, NumDigitalPins as DigitalPin, 0)
  {
  }
}
