/**
 * The generators as the library header declares them: a base generator that
 * records a board and a timer and whether the two go together, and a
 * single-channel ("real") generator that checks an output pin against its
 * timer before handing the work to the hardware PWM driver.
 */
module Generator {
  import opened Capabilities

  /** Why a setup request was refused before reaching the hardware. */
  datatype SetupError =
    | InvalidCapability  // the board does not have the generator's timer
    | InvalidPin         // the pin is not wired to the generator's timer

  /** What setup asks the hardware PWM driver to do. */
  datatype DriverRequest = DriverRequest(timer: Timer, pin: DigitalPin, frequency: Frequency)

  /** The outcome of the checks that precede any hardware access. */
  datatype SetupPlan = Refused(error: SetupError) | Program(request: DriverRequest)

  /**
   * A generator for one board on one timer. Its fields are fixed at
   * construction; `valid` records whether the board has the timer.
   */
  class SignalGenerator {
    const arduino: ArduinoSize
    const selectedTimer: Timer
    const valid: bool

    ghost predicate Valid() {
      valid == IsValidCombination(arduino, selectedTimer)
    }

    /** Builds a generator; an unsupported combination yields a generator that is not valid. */
    constructor (arduino: ArduinoSize, timer: Timer)
      ensures this.arduino == arduino && selectedTimer == timer
      ensures Valid()
      ensures valid <==> IsValidCombination(arduino, timer)
    {
      this.arduino := arduino;
      selectedTimer := timer;
      valid := IsValidCombination(arduino, timer);
    }

    /** The clock speed of this generator's board, in Hz. */
    function MaxClockSpeed(): (hz: Frequency)
      ensures hz == if arduino == UNO then 16_000_000 else 84_000_000
    {
      ClockSpeed(arduino)
    }

    /** The timer this generator uses. */
    function GetTimer(): (t: Timer)
      ensures t == selectedTimer
    {
      selectedTimer
    }

    /** The board this generator was built for. */
    function Type(): (a: ArduinoSize)
      ensures a == arduino
    {
      arduino
    }

    /** Whether the board has the timer: for an UNO only T0, T1 and T2; for a DUE every timer. */
    function IsValid(): (b: bool)
      requires Valid()
      ensures b <==> selectedTimer in SupportedTimers(arduino)
      ensures arduino == UNO ==> (b <==> selectedTimer == T0 || selectedTimer == T1 || selectedTimer == T2)
      ensures arduino == DUE ==> b
    {
      ValidCombinations(selectedTimer);
      valid
    }
  }

  /** A generator that drives a single output pin of its timer. */
  class RealSignalGenerator {
    const base: SignalGenerator

    ghost predicate Valid() {
      base.Valid()
    }

    constructor (arduino: ArduinoSize, timer: Timer)
      ensures fresh(base)
      ensures base.arduino == arduino && base.selectedTimer == timer
      ensures Valid()
    {
      base := new SignalGenerator(arduino, timer);
    }

    /** Whether `pin` is one of the pins wired to this generator's timer. */
    function PinMatchesTimer(pin: DigitalPin): (b: bool)
      ensures b <==> pin in Pins(base.selectedTimer)
    {
      PinMatches(base.GetTimer(), pin)
    }

    /**
     * The checks setup makes before touching hardware: a generator that is
     * not valid, or a pin not wired to the timer, is refused; otherwise the
     * driver is asked to program the timer on that pin at that frequency,
     * the frequency passed on unchanged.
     */
    function Plan(frequency: Frequency, pin: DigitalPin): (plan: SetupPlan)
      requires Valid()
      ensures plan.Program? <==>
                IsValidCombination(base.arduino, base.selectedTimer) && pin in Pins(base.selectedTimer)
      ensures plan.Program? ==> plan.request == DriverRequest(base.selectedTimer, pin, frequency)
      ensures !IsValidCombination(base.arduino, base.selectedTimer) ==> plan == Refused(InvalidCapability)
      ensures IsValidCombination(base.arduino, base.selectedTimer) && pin !in Pins(base.selectedTimer) ==>
                plan == Refused(InvalidPin)
    {
      if !base.IsValid() then Refused(InvalidCapability)
      else if !PinMatchesTimer(pin) then Refused(InvalidPin)
      else Program(DriverRequest(base.GetTimer(), pin, frequency))
    }

    /**
     * Sets up the signal on `pin` at `frequency`. `driver` stands for the
     * hardware PWM driver; it is consulted only once the checks pass and its
     * answer is returned as it is.
     */
    function SetupOnPin(frequency: Frequency, pin: DigitalPin, driver: DriverRequest -> bool): (ok: bool)
      requires Valid()
      ensures pin !in Pins(base.selectedTimer) ==> !ok
      ensures !base.IsValid() ==> !ok
      ensures base.IsValid() && pin in Pins(base.selectedTimer) ==>
                ok == driver(DriverRequest(base.selectedTimer, pin, frequency))
    {
      match Plan(frequency, pin)
      case Refused(_) => false
      case Program(request) => driver(request)
    }

    /** Sets up the signal on channel A of the timer at `frequency`. */
    function Setup(frequency: Frequency, driver: DriverRequest -> bool): (ok: bool)
      requires Valid()
      ensures ok == SetupOnPin(frequency, PinA(base.selectedTimer), driver)
      ensures ok <==> base.IsValid() && driver(DriverRequest(base.selectedTimer, PinA(base.selectedTimer), frequency))
    {
      SetupOnPin(frequency, PinA(base.GetTimer()), driver)
    }
  }

  /** A driver request never names a pin that belongs to a timer other than the generator's. */
  lemma PlannedPinBelongsOnlyToTimer(g: RealSignalGenerator, frequency: Frequency, pin: DigitalPin, u: Timer)
    requires g.Valid()
    requires g.Plan(frequency, pin).Program?
    ensures PinMatches(u, pin) <==> u == g.base.selectedTimer
  {
  }

  /** A setup that reaches the driver only ever names a pin the generator's board can drive. */
  lemma PlannedPinIsDrivable(g: RealSignalGenerator, frequency: Frequency, pin: DigitalPin)
    requires g.Valid() && g.Plan(frequency, pin).Program?
    ensures pin in DrivablePins(g.base.arduino)
  {
  }

  /**
   * An UNO generator on T1 is valid, accepts pin 11 (its channel A, also
   * its default pin) and refuses pin 9, which belongs to T2.
   */
  lemma UnoTimer1Scenario(g: RealSignalGenerator, driver: DriverRequest -> bool)
    requires g.Valid() && g.base.arduino == UNO && g.base.selectedTimer == T1
    ensures g.base.IsValid()
    ensures g.PinMatchesTimer(11) && !g.PinMatchesTimer(9)
    ensures !g.SetupOnPin(1000, 9, driver)
    ensures g.SetupOnPin(1000, 11, driver) == driver(DriverRequest(T1, 11, 1000))
    ensures g.Setup(1000, driver) == g.SetupOnPin(1000, 11, driver)
  {
  }

  /** An UNO has no T3 or T4, so a generator for either is not valid, while a DUE accepts T4. */
  lemma UnoHasNoTimer3Or4(g: SignalGenerator)
    requires g.Valid()
    ensures g.arduino == UNO && (g.selectedTimer == T3 || g.selectedTimer == T4) ==> !g.IsValid()
    ensures g.arduino == UNO && g.selectedTimer == T0 ==> g.IsValid()
    ensures g.arduino == DUE && g.selectedTimer == T4 ==> g.IsValid()
  {
  }

  /** A generator whose board lacks its timer refuses every setup without consulting the driver. */
  lemma InvalidGeneratorRefusesSetup(g: RealSignalGenerator, frequency: Frequency, pin: DigitalPin)
    requires g.Valid() && !g.base.IsValid()
    ensures g.Plan(frequency, pin) == Refused(InvalidCapability)
    ensures forall driver: DriverRequest -> bool :: !g.SetupOnPin(frequency, pin, driver)
  {
  }
}
