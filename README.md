# SignalGenerator — a Dafny model

A model of the Arduino `SignalGenerator` library. The library generates a
square wave on a PWM pin driven by one of the board's hardware timers. The
model covers:

- the capability table: the five timers `T0`–`T4`, the two boards (`UNO`, `DUE`),
  the PWM pins wired to each timer, the timers each board has, and each board's
  clock speed (module `Capabilities`, file `capabilities.dfy`);
- the generator classes the header declares: `SignalGenerator` records a board,
  a timer and whether the board has that timer; `RealSignalGenerator` checks a
  requested pin against its timer before it hands the work to the hardware PWM
  driver (module `Generator`, file `generator.dfy`);
- the generator the implementation file defines: built from a signal type
  (`REAL` or `COMPLEX`), a timer and two pins, it range-checks the pins against
  the board's pin count `NUM_DIGITAL_PINS` and records them only when they pass
  (module `GeneratorImpl`, file `generator_impl.dfy`).

The header and the implementation file describe two different versions of the
generator. The header's constructor takes a board and a timer. The
implementation's constructor takes a signal type, a timer and two pins, and
uses fields the header does not declare. The model keeps the two as separate
classes in separate modules. The header's board/timer validity and the
implementation's pin range check are separate operations.

Modelling decisions:

- The clock-speed macros are written `#define UNO_CLOCK_SPEED = 16000000`, which
  does not define a usable number. The model uses the intended values, 16 MHz
  and 84 MHz.
- `timer()` returns a field named `timer_`, but the field is declared as
  `_timer`. `GetTimer` returns the stored timer, which is the evident intent.
- The header's `(arduino, timer)` constructor and `maxClockSpeed` have no body
  in either file. Their behaviour comes from their doc comments only: the
  constructor records whether the board has the timer, and `maxClockSpeed`
  gives the board's clock speed.
- `NUM_DIGITAL_PINS` comes from the Arduino core. It is an abstract positive
  constant (`GeneratorImpl.NumDigitalPins`), so every property about the range
  check holds for every board.
- The range check is modelled exactly as the compiler parses it:
  `(type == COMPLEX && imaginary < 0) || imaginary > NUM_DIGITAL_PINS`. This
  grouping makes a real signal refuse an imaginary pin above
  `NUM_DIGITAL_PINS`, although a real signal does not use that pin
  (`GeneratorImpl.RealImaginaryUpperBoundOnly`). A real signal accepts a
  negative imaginary pin under either grouping. The real pin has no lower
  bound and its upper bound is strict, so pin `-1` and pin `NUM_DIGITAL_PINS`
  both pass, although neither is a pin the board has
  (`GeneratorImpl.AcceptsPinsOutsideDeviceRange`).
- The header declares `setup` but gives it no body. The model splits setup in
  two. `Plan` makes the checks that come before any hardware access. It refuses
  a generator that is not valid, and then a pin that is not wired to the timer.
  Otherwise it produces a request to the hardware PWM driver, with the
  frequency passed on unchanged. The driver is a function parameter, and its
  answer is what setup returns. Refusing an invalid generator before the pin
  check is a modelling decision; the header does not say it.
- `RealSignalGenerator` derives from `SignalGenerator` in the source. Here it
  holds its base generator in a `const base` field.
- Pins are bounded to the signed 8-bit range of `DigitalPin`. Frequencies are
  bounded to the unsigned 64-bit range of `Frequency`.

## Model

| member | source | states |
|---|---|---|
| `Capabilities.Pins` | libraries/SignalGenerator/SignalGenerator.h:22-33 | each timer's pins in channel order: two pins (A, B) for T0–T2, three (A, B, C) for T3 and T4, all distinct |
| `Capabilities.PinTable` | libraries/SignalGenerator/SignalGenerator.h:22-33 | the pin table is exactly T0={4,13}, T1={11,12}, T2={9,10}, T3={2,3,5}, T4={6,7,8} |
| `Capabilities.PinA` | libraries/SignalGenerator/SignalGenerator.h:22-31 | channel A of a timer is the first pin of its table entry |
| `Capabilities.PinMatches` | libraries/SignalGenerator/SignalGenerator.h:22-33 | the per-timer comparison against the pin constants holds exactly when the pin is in the timer's table entry |
| `Capabilities.PinSetsDisjoint` | libraries/SignalGenerator/SignalGenerator.h:22-33 | a pin wired to two timers forces them to be the same timer: the pin sets are pairwise disjoint |
| `Capabilities.PinABelongsToItsTimer` | libraries/SignalGenerator/SignalGenerator.h:22-33 | channel A of a timer matches that timer and no other |
| `Capabilities.ClockSpeed` | libraries/SignalGenerator/SignalGenerator.h:40-41 | every board has a clock speed, and it is one of the two defined speeds |
| `Capabilities.ClockSpeeds` | libraries/SignalGenerator/SignalGenerator.h:63-67 | the UNO runs at 16,000,000 Hz and the DUE at 84,000,000 Hz |
| `Capabilities.ValidCombinations` | libraries/SignalGenerator/SignalGenerator.h:49-53 | an UNO may use a timer exactly when it is T0, T1 or T2; a DUE may use every timer |
| `Capabilities.UnoDrivablePins` | libraries/SignalGenerator/SignalGenerator.h:80-85 | the pins an UNO can drive are exactly {4,13,11,12,9,10} |
| `Capabilities.DueDrivablePins` | libraries/SignalGenerator/SignalGenerator.h:49-53 | a DUE can drive exactly the twelve timer pins |
| `Generator.SignalGenerator.constructor` | libraries/SignalGenerator/SignalGenerator.h:80-85 | stores the board and timer; the generator is valid exactly when the board has the timer, so an invalid pair gives a well-defined invalid generator |
| `Generator.SignalGenerator.MaxClockSpeed` | libraries/SignalGenerator/SignalGenerator.h:95-98 | the generator's clock speed is 16 MHz for an UNO and 84 MHz for a DUE |
| `Generator.SignalGenerator.GetTimer` | libraries/SignalGenerator/SignalGenerator.h:99-104 | returns the stored timer; as a function it changes nothing |
| `Generator.SignalGenerator.Type` | libraries/SignalGenerator/SignalGenerator.h:106-110 | returns the stored board; as a function it changes nothing |
| `Generator.SignalGenerator.IsValid` | libraries/SignalGenerator/SignalGenerator.h:112-116 | true exactly when the board has the timer: on an UNO iff the timer is T0, T1 or T2, on a DUE always |
| `Generator.UnoHasNoTimer3Or4` | libraries/SignalGenerator/SignalGenerator.h:80-85 | an UNO generator on T3 or T4 is invalid, on T0 valid; a DUE generator on T4 is valid |
| `Generator.RealSignalGenerator.constructor` | libraries/SignalGenerator/SignalGenerator.h:146-150 | builds a fresh base generator for the given board and timer |
| `Generator.RealSignalGenerator.PinMatchesTimer` | libraries/SignalGenerator/SignalGenerator.h:165-168 | true exactly when the pin is one of the generator's timer's pins |
| `Generator.RealSignalGenerator.Plan` | libraries/SignalGenerator/SignalGenerator.h:157-161 | the driver is asked to act iff the generator is valid and the pin is one of its timer's; the request names the generator's timer, the given pin and the given frequency unchanged; otherwise the refusal names the failed check |
| `Generator.RealSignalGenerator.SetupOnPin` | libraries/SignalGenerator/SignalGenerator.h:157-161 | fails whenever the pin is not the timer's or the generator is invalid; otherwise returns the driver's answer for that timer, pin and frequency |
| `Generator.RealSignalGenerator.Setup` | libraries/SignalGenerator/SignalGenerator.h:152-155 | is setup on the timer's channel A; since that pin always matches, a valid generator returns the driver's answer for it |
| `Generator.PlannedPinBelongsOnlyToTimer` | libraries/SignalGenerator/SignalGenerator.h:157-161 | a pin setup passes to the driver is wired to the generator's timer and to no other timer |
| `Generator.PlannedPinIsDrivable` | libraries/SignalGenerator/SignalGenerator.h:157-161 | a pin setup passes to the driver is always one the generator's board can drive |
| `Generator.UnoTimer1Scenario` | libraries/SignalGenerator/SignalGenerator.h:157-161 | an UNO generator on T1 is valid, matches pin 11 but not pin 9, refuses pin 9 and defaults to pin 11 |
| `Generator.InvalidGeneratorRefusesSetup` | libraries/SignalGenerator/SignalGenerator.h:112-121 | an invalid generator refuses setup on every pin, whatever the driver would answer |
| `GeneratorImpl.PinsInRange` | libraries/SignalGenerator/SignalGenerator.cpp:68-80 | fails when the real pin exceeds the pin count, when the imaginary pin exceeds it, or when the signal is complex and the imaginary pin is negative; passes in every other case |
| `GeneratorImpl.SignalGenerator.Validate` | libraries/SignalGenerator/SignalGenerator.cpp:68-87 | answers the range check; on success records both pins, on failure leaves the recorded pins unchanged |
| `GeneratorImpl.SignalGenerator.constructor` | libraries/SignalGenerator/SignalGenerator.cpp:11-20 | stores the signal type and timer whatever the pins are; records the pins when they pass the range check |
| `GeneratorImpl.AcceptsPinsInDeviceRange` | libraries/SignalGenerator/SignalGenerator.cpp:71-80 | pins the board has always pass the range check, for either signal type |
| `GeneratorImpl.ComplexImaginaryBounds` | libraries/SignalGenerator/SignalGenerator.cpp:76-80 | for a complex signal with an accepted real pin, the imaginary pin passes iff it lies between 0 and the pin count |
| `GeneratorImpl.RealImaginaryUpperBoundOnly` | libraries/SignalGenerator/SignalGenerator.cpp:76-80 | for a real signal with an accepted real pin, the imaginary pin passes iff it is at most the pin count, so every negative imaginary pin passes |
| `GeneratorImpl.AcceptsPinsOutsideDeviceRange` | libraries/SignalGenerator/SignalGenerator.cpp:71-80 | the check accepts pins the board lacks: real pin -1 for either signal type and imaginary pin -1 for a real signal, unconditionally; a real pin equal to the pin count whenever the pin count fits a pin number (below 128) |

## Left out

- `print()` and every serial-console message: output for people only.
- `run()`, `stop()` and the hardware side of `setup`: they have no body, and the PWM register programming is only a TODO in the header. The driver is a function parameter of `SetupOnPin` and `Setup`.
- The armed/running/stopped life cycle: it needs `run` and `stop`, which have no body.
- A frequency ceiling or clamping: the library passes the frequency through and never checks it.
- The complex generator built from two timers or from toggled pins: it exists only as TODO comments.
- Ownership of a timer across generator instances: nothing in the library enforces it.
- The `ArduinoSize&` reference member, the destructor and the include guards: the board is a plain immutable value here.
- Wrap-around of the 8-bit `DigitalPin` and the 64-bit `Frequency`: values outside their ranges cannot be formed in the model.
- GeneratorImpl.SignalGenerator.constructor: does not state the pins after a failed range check, because the library leaves them uninitialised.
