/**
 * The static hardware knowledge of the signal generator library: which
 * timers exist, which PWM output pins each timer drives, which timers each
 * Arduino board has, and each board's clock speed.
 */
module Capabilities {

  /** A digital pin number; the source stores pins in a signed 8-bit integer. */
  type DigitalPin = p: int | -128 <= p < 128

  /** A frequency in Hz; the source stores frequencies in an unsigned 64-bit integer. */
  type Frequency = f: int | 0 <= f < 0x1_0000_0000_0000_0000

  /** The hardware timers a generator can be built on. */
  datatype Timer = T0 | T1 | T2 | T3 | T4

  /** The supported board families. */
  datatype ArduinoSize = UNO | DUE

  // PWM output pins wired to each timer (channels A, B and, for T3 and T4, C).
  const Timer0PwmPinA: DigitalPin := 4
  const Timer0PwmPinB: DigitalPin := 13
  const Timer1PwmPinA: DigitalPin := 11
  const Timer1PwmPinB: DigitalPin := 12
  const Timer2PwmPinA: DigitalPin := 9
  const Timer2PwmPinB: DigitalPin := 10
  const Timer3PwmPinA: DigitalPin := 2
  const Timer3PwmPinB: DigitalPin := 3
  const Timer3PwmPinC: DigitalPin := 5
  const Timer4PwmPinA: DigitalPin := 6
  const Timer4PwmPinB: DigitalPin := 7
  const Timer4PwmPinC: DigitalPin := 8

  // Clock speeds in Hz.
  const UnoClockSpeed: Frequency := 16_000_000
  const DueClockSpeed: Frequency := 84_000_000

  /** True for the timers that have a third output channel (C). */
  predicate HasChannelC(t: Timer) {
    t == T3 || t == T4
  }

  /**
   * The pins timer `t` drives, in channel order A, B[, C]: two pins for
   * T0..T2, three for T3 and T4, never the same pin twice.
   */
  function Pins(t: Timer): (ps: seq<DigitalPin>)
    ensures |ps| == if HasChannelC(t) then 3 else 2
    ensures forall i, j :: 0 <= i < j < |ps| ==> ps[i] != ps[j]
  {
    match t
    case T0 => [Timer0PwmPinA, Timer0PwmPinB]
    case T1 => [Timer1PwmPinA, Timer1PwmPinB]
    case T2 => [Timer2PwmPinA, Timer2PwmPinB]
    case T3 => [Timer3PwmPinA, Timer3PwmPinB, Timer3PwmPinC]
    case T4 => [Timer4PwmPinA, Timer4PwmPinB, Timer4PwmPinC]
  }

  /** Channel A of timer `t`: the pin a generator uses when none is named. */
  function PinA(t: Timer): (p: DigitalPin)
    ensures p == Pins(t)[0]
  {
    match t
    case T0 => Timer0PwmPinA
    case T1 => Timer1PwmPinA
    case T2 => Timer2PwmPinA
    case T3 => Timer3PwmPinA
    case T4 => Timer4PwmPinA
  }

  /**
   * Whether pin `p` is wired to timer `t`, decided one timer at a time by
   * comparing against that timer's pin constants; agrees with the table.
   */
  function PinMatches(t: Timer, p: int): (b: bool)
    ensures b <==> p in Pins(t)
  {
    match t
    case T0 => p == Timer0PwmPinA || p == Timer0PwmPinB
    case T1 => p == Timer1PwmPinA || p == Timer1PwmPinB
    case T2 => p == Timer2PwmPinA || p == Timer2PwmPinB
    case T3 => p == Timer3PwmPinA || p == Timer3PwmPinB || p == Timer3PwmPinC
    case T4 => p == Timer4PwmPinA || p == Timer4PwmPinB || p == Timer4PwmPinC
  }

  /** The timers a board exposes. */
  function SupportedTimers(a: ArduinoSize): set<Timer> {
    match a
    case UNO => {T0, T1, T2}
    case DUE => {T0, T1, T2, T3, T4}
  }

  /** Whether a generator for board `a` may use timer `t`. */
  predicate IsValidCombination(a: ArduinoSize, t: Timer) {
    t in SupportedTimers(a)
  }

  /** The clock speed of board `a`, in Hz; defined for every board. */
  function ClockSpeed(a: ArduinoSize): (hz: Frequency)
    ensures hz == UnoClockSpeed || hz == DueClockSpeed
  {
    match a
    case UNO => UnoClockSpeed
    case DUE => DueClockSpeed
  }

  /** The pins some timer of board `a` can drive. */
  function DrivablePins(a: ArduinoSize): set<DigitalPin> {
    set t, p | t in SupportedTimers(a) && p in Pins(t) :: p
  }

  /** The pin table holds exactly the library's twelve pin constants. */
  lemma PinTable()
    ensures Pins(T0) == [4, 13] && Pins(T1) == [11, 12] && Pins(T2) == [9, 10]
    ensures Pins(T3) == [2, 3, 5] && Pins(T4) == [6, 7, 8]
  {
  }

  /** No pin is wired to two timers. */
  lemma PinSetsDisjoint(t1: Timer, t2: Timer, p: int)
    requires PinMatches(t1, p) && PinMatches(t2, p)
    ensures t1 == t2
  {
  }

  /** Channel A of every timer is wired to that timer and to no other. */
  lemma PinABelongsToItsTimer(t: Timer, u: Timer)
    ensures PinMatches(t, PinA(t))
    ensures PinMatches(u, PinA(t)) <==> u == t
  {
  }

  /** An UNO may use T0, T1 and T2 only; a DUE may use all five timers. */
  lemma ValidCombinations(t: Timer)
    ensures IsValidCombination(UNO, t) <==> t == T0 || t == T1 || t == T2
    ensures IsValidCombination(DUE, t)
  {
  }

  /** The UNO runs at 16 MHz and the DUE at 84 MHz. */
  lemma ClockSpeeds()
    ensures ClockSpeed(UNO) == 16_000_000
    ensures ClockSpeed(DUE) == 84_000_000
  {
  }

  /** The pins an UNO can drive are those of T0, T1 and T2. */
  lemma UnoDrivablePins()
    ensures DrivablePins(UNO) == {4, 13, 11, 12, 9, 10}
  {
    var expected: set<DigitalPin> := {4, 13, 11, 12, 9, 10};
    forall p | p in DrivablePins(UNO)
      ensures p in expected
    {
      var t :| t in SupportedTimers(UNO) && p in Pins(t);
    }
    forall p | p in expected
      ensures p in DrivablePins(UNO)
    {
      var t := if p in Pins(T0) then T0 else if p in Pins(T1) then T1 else T2;
      assert t in SupportedTimers(UNO) && p in Pins(t);
    }
  }

  /** A DUE can drive all twelve timer pins. */
  lemma DueDrivablePins()
    ensures DrivablePins(DUE) == {4, 13, 11, 12, 9, 10, 2, 3, 5, 6, 7, 8}
  {
    var expected: set<DigitalPin> := {4, 13, 11, 12, 9, 10, 2, 3, 5, 6, 7, 8};
    forall p | p in DrivablePins(DUE)
      ensures p in expected
    {
      var t :| t in SupportedTimers(DUE) && p in Pins(t);
    }
    forall p | p in expected
      ensures p in DrivablePins(DUE)
    {
      var t :=
        if p in Pins(T0) then T0 else if p in Pins(T1) then T1 else if p in Pins(T2) then T2
        else if p in Pins(T3) then T3 else T4;
      assert t in SupportedTimers(DUE) && p in Pins(t);
    }
  }
}
