# Stepper motor HAT driver: a verified model

This project models the core of a Node.js driver for a stepper-motor board
built around an NXP PCA9685 16-channel PWM controller on an I²C bus. It has
three parts:

- `stepper.dfy` (module `StepperMotor`): the `Stepper` sequencer.
  - `single(dir)` updates `currentStep` in place four times (move by one
    whole step, floor with JavaScript's truncating `%`, add one cycle, wrap),
    and looks up the coil state in the 8-row half-step table. From a whole
    step this advances one whole step. From a position between whole steps
    (left behind when `microsteps` is switched) it first drops to the whole
    step at or below the position and then moves one whole step in `dir`,
    except that a backward step from strictly inside the first whole step
    lands on 0. `AdvanceClosedForm` gives the result exactly.
  - `lazyPWM` and `lazyPin` form a write-through cache (`state`) in front of
    the PWM actuator.
  - `pulse` raises `pulsing`, writes the six pins in a fixed order and lowers
    `pulsing` again.
  - The actuator calls `writeChannel` and `setPin` are recorded in a call
    list (`calls`). The class invariant says every cache entry agrees with the
    last value sent to its pin's channel.
- `pwm.dfy` (module `PwmDriver`): the `PWM` class.
  - It covers the register and bit constants, the constructor's
    initialisation sequence (including the read-modify-write that clears
    the SLEEP bit of MODE1), `reset` and `setAllChannels`.
  - The bus is the list of operations issued to it. The one byte read from
    MODE1 is a constructor parameter.
  - JavaScript's `&` and `>>` work on the value taken modulo 2^32 into the
    signed 32-bit range. The model writes that out (`ToInt32`).
- `validation.dfy` (module `ParameterValidation`): the parameter-validation
  decorator `Validate`.
  - A guarded method checks one argument against a list of predicates. It
    throws a validation error naming the 1-based parameter position, or it
    returns the original method's result.
  - The ready-made guards are modelled too: `IsNumber`, `IsString`,
    `IsLessThan`, `IsGreaterThan`, `EqualsOneOf` and `EqualsNoneOf`.

Two details of the code are easy to misread. The model follows the code in
both:

- `reset()` writes 0x00 (the SWRST command byte) into register MODE1 at the
  device's own address (src/pwm.ts:81-83). It is not the general-call
  software reset of the commented-out Python driver, which sends 0x06 to
  address 0x00 (src/pwm.ts:99-102).
- The coil table has eight half-step rows (src/stepper.ts:33-42). It is
  indexed by `floor(currentStep / (microsteps / 2))` (src/stepper.ts:152),
  and single stepping only ever reaches the even rows.

## Model

| member | source | states |
|---|---|---|
| `ParameterValidation.Every` | src/parameter-validation.ts:7 | `predicates.every(...)` holds exactly when every predicate accepts the value; an empty list accepts everything |
| `ParameterValidation.Guarded` | src/parameter-validation.ts:5-12 | the guarded method returns iff all predicates accept the argument, and then returns exactly the original's result; otherwise it throws an error carrying position `parameterIndex + 1` and the rejected value |
| `ParameterValidation.RejectedCallNeverReachesOriginal` | src/parameter-validation.ts:7-10 | if one predicate rejects, the call throws and its outcome does not depend on the original method at all |
| `ParameterValidation.EmptyGuardPassesThrough` | src/parameter-validation.ts:11 | with no predicates every call returns the original's result |
| `ParameterValidation.Includes` | src/parameter-validation.ts:26 | `vals.includes(x)` is true exactly when `x` is among `vals` |
| `ParameterValidation.DiffersFromAll` | src/parameter-validation.ts:27 | `vals.every(val => val !== x)` is true exactly when no element equals `x` |
| `ParameterValidation.IsNumber` | src/parameter-validation.ts:22 | the guard accepts exactly the numbers |
| `ParameterValidation.IsString` | src/parameter-validation.ts:23 | the guard accepts exactly the strings |
| `ParameterValidation.IsLessThan` | src/parameter-validation.ts:24 | the guard accepts exactly the numbers below `n` |
| `ParameterValidation.IsGreaterThan` | src/parameter-validation.ts:25 | the guard accepts exactly the numbers above `n` |
| `ParameterValidation.EqualsOneOf` | src/parameter-validation.ts:26 | the guard accepts exactly the members of `vals` |
| `ParameterValidation.EqualsNoneOf` | src/parameter-validation.ts:27 | the guard accepts exactly the values outside `vals` |
| `ParameterValidation.LessAndGreaterDisjoint` | src/parameter-validation.ts:24-25 | no value passes both `IsLessThan(n)` and `IsGreaterThan(n)` |
| `ParameterValidation.OneOfAndNoneOfComplementary` | src/parameter-validation.ts:26-27 | `EqualsOneOf(vals)` accepts a value iff `EqualsNoneOf(vals)` rejects it |
| `ParameterValidation.NumberAndStringDisjoint` | src/parameter-validation.ts:20-23 | no value passes both `IsNumber` and `IsString` |
| `ParameterValidation.GuardedLessThan` | src/parameter-validation.ts:24 | a method guarded by `IsLessThan(n)` throws exactly when the argument is not a number below `n`, and otherwise returns the original's result |
| `PwmDriver.ToInt32` | src/pwm.ts:87-90 | the operand of a JavaScript bitwise operator is in the signed 32-bit range, congruent to the input modulo 2^32, and unchanged for non-negative 31-bit inputs |
| `PwmDriver.LowByte` | src/pwm.ts:87 | `v & 0xFF` is a byte congruent to `v` modulo 256 |
| `PwmDriver.HighByte` | src/pwm.ts:88 | `v >> 8` is a signed 24-bit value which, times 256 plus `v & 0xFF`, rebuilds the 32-bit operand |
| `PwmDriver.CongruentLowBytes` | src/pwm.ts:87 | two values congruent modulo 2^32 have the same low byte, so `v & 0xFF` agrees with `v` modulo 256 |
| `PwmDriver.ByteSplit` | src/pwm.ts:87-90 | for a non-negative 31-bit value, `v & 0xFF` is a byte and `(v & 0xFF) + 256 * (v >> 8) == v` |
| `PwmDriver.TickSplit` | src/pwm.ts:87-90 | for `0 <= v <= 4096` the low byte is below 256, the high byte is at most 16, the two recombine to `v`, and 4096 splits into 0 and 16 |
| `PwmDriver.NegativeOneSplit` | src/pwm.ts:87-88 | a negative value keeps JavaScript's meaning: `-1 & 0xFF` is 255 and `-1 >> 8` is -1 |
| `PwmDriver.AllChannelWrites` | src/pwm.ts:85-91 | the four writes of `setAllChannels` go to the device address, to registers 0xFA..0xFD in order, and the first and third values are bytes, and for non-negative 31-bit values the on and off bytes recombine to `on` and `off` |
| `PwmDriver.WakeByte` | src/pwm.ts:73-74 | the byte written back has SLEEP cleared, agrees with the read byte in every other bit, and is the read byte minus 16 when SLEEP was set |
| `PwmDriver.WakeByteBits` | src/pwm.ts:74 | bit by bit: bit 4 of the written byte is 0 and bits 0-3 and 5-7 equal those of the read byte |
| `PwmDriver.InitSequence` | src/pwm.ts:64-76 | the constructor issues eight operations, all to the device address |
| `PwmDriver.InitSequenceOrder` | src/pwm.ts:64-76 | the order is: the four all-LED writes of (0, 0), MODE2 ← 0x04, MODE1 ← 0x01, one read of MODE1, then MODE1 ← the read byte with SLEEP cleared |
| `PwmDriver.Pwm.constructor` | src/pwm.ts:57-79 | the address defaults to 0x60 and the bus to 1, and the trace is exactly the initialisation sequence for the byte the bus answered |
| `PwmDriver.Pwm.WriteByte` | src/pwm.ts:66 | one write to the driver's own address is appended |
| `PwmDriver.Pwm.ReadByte` | src/pwm.ts:73 | one read of the driver's own address is appended and the bus's answer returned |
| `PwmDriver.Pwm.Reset` | src/pwm.ts:81-83 | exactly one write is appended: 0x00 into MODE1 at the driver's own address |
| `PwmDriver.Pwm.SetAllChannels` | src/pwm.ts:85-91 | exactly the four all-LED writes of `(on, off)` are appended, and every operation still targets the driver's address |
| `StepperMotor.JsRem` | src/stepper.ts:145 | JavaScript `%`: the dividend is the divisor times the quotient truncated toward zero, plus the remainder; the remainder takes the sign of the dividend and is smaller than the divisor in magnitude |
| `StepperMotor.Advance` | src/stepper.ts:137-149 | the four updates of `single`: from any non-negative position, with 8 or 16 microsteps, the result is a whole step within one cycle; which one is stated by `AdvanceClosedForm` |
| `StepperMotor.AdvanceClosedForm` | src/stepper.ts:137-149 | from any non-negative position `p`: forward gives `((p/m + 1) % 4) * m`; backward gives 0 when `0 < p < m` (the truncating `%` floors the negative intermediate up to 0) and `((p/m + 3) % 4) * m` otherwise |
| `StepperMotor.FloorToWholeStep` | src/stepper.ts:144-145 | flooring with the truncating remainder gives a multiple of the microsteps, no lower than one whole step below zero |
| `StepperMotor.WrapIntoCycle` | src/stepper.ts:147-149 | adding one cycle and taking the truncating remainder lands a floored position on a whole step within `[0, 4*microsteps)` |
| `StepperMotor.TruncationFloorsTowardZero` | src/stepper.ts:137-149 | with 16 microsteps, 8, 11 and 27 all step backward to 0 and 11 steps forward to 16; from 8 and 11 a floor-style remainder would give 48 instead |
| `StepperMotor.SwitchedMicrostepsSkipsAStep` | src/stepper.ts:137-149 | three forward steps with 8 microsteps reach 24; after switching to 16 microsteps a backward step from 24 lands on 0, skipping 16, and a forward step lands on 32 |
| `StepperMotor.WholeSteps` | src/stepper.ts:137-149 | a position within one cycle that is a multiple of the microsteps is one of the four whole steps |
| `StepperMotor.WholeStepMeaning` | src/stepper.ts:137-149 | for 8 or 16 microsteps, "in `[0, 4*microsteps)` and a multiple of microsteps" holds exactly at the four whole steps |
| `StepperMotor.AdvanceTableForward8` | src/stepper.ts:137-149 | with 8 microsteps, forward single steps go 0→8→16→24→0 |
| `StepperMotor.AdvanceTableBackward8` | src/stepper.ts:137-149 | with 8 microsteps, backward single steps go 0→24→16→8→0 |
| `StepperMotor.AdvanceTableForward16` | src/stepper.ts:137-149 | with 16 microsteps, forward single steps go 0→16→32→48→0 |
| `StepperMotor.AdvanceTableBackward16` | src/stepper.ts:137-149 | with 16 microsteps, backward single steps go 0→48→32→16→0 |
| `StepperMotor.AdvanceOneWholeStep` | src/stepper.ts:137-149 | under the invariant a single step moves exactly one whole step around the cycle of four, and the invariant still holds afterwards |
| `StepperMotor.ForwardBackwardInverse` | src/stepper.ts:137-149 | a forward step followed by a backward step, or the reverse, restores the position |
| `StepperMotor.ForwardPeriodFour` | src/stepper.ts:137-149 | four forward steps return to the start and fewer do not |
| `StepperMotor.CoilIndex` | src/stepper.ts:152 | the row is the floor of `currentStep / (microsteps / 2)`: `(m/2) * row <= currentStep < (m/2) * (row + 1)` |
| `StepperMotor.CoilIndexEvenInRange` | src/stepper.ts:152 | under the invariant the table row is in `[0, 8)` and even |
| `StepperMotor.CoilRowsComplete` | src/stepper.ts:33-42 | every row of the coil table has four entries |
| `StepperMotor.StateAt` | src/stepper.ts:150-163 | the returned state has PWMA = PWMB = 4080 < 4096 and exactly one energised direction pin, which is AIN2, BIN1, AIN1 or BIN2 at whole step 0, 1, 2 or 3 |
| `StepperMotor.SingleForwardFromZero` | src/stepper.ts:137-162 | from step 0 with 16 microsteps, forward gives 16 with coils [0,1,0,0] |
| `StepperMotor.SingleBackwardFromZero` | src/stepper.ts:137-162 | from step 0 with 16 microsteps, backward gives 48 with coils [0,0,0,1] |
| `StepperMotor.PinNumberWindings` | src/stepper.ts:67-76 | `getPinNumber`: the A pins are channels of winding `w1`, the B pins channels of winding `w2`, and the duty pins are PWM channels |
| `StepperMotor.DefaultWiringDistinct` | src/stepper.ts:67-76 | with ports M1 and M2 the six pins are on six different channels, all below 16 |
| `StepperMotor.LastSentIsLatest` | src/stepper.ts:55 | the value last sent to a channel is absent exactly when no call addresses it, and otherwise is the value of the latest call to it |
| `StepperMotor.LastSentAppend` | src/stepper.ts:55 | a new call to a channel becomes the value last sent to it and leaves every other channel alone |
| `StepperMotor.SendKeepsCoherentAt` | src/stepper.ts:55-56 | sending a call to one pin's channel and recording its value for that pin keeps the cache entry of any one pin agreeing with the value last sent to that pin's channel |
| `StepperMotor.SendKeepsCoherent` | src/stepper.ts:55-56 | the same for all six pins at once: one recorded send keeps a coherent cache coherent |
| `StepperMotor.LazyWriteTwice` | src/stepper.ts:51-65 | writing the same value a second time makes no call |
| `StepperMotor.LazyWriteKeepsCoherence` | src/stepper.ts:51-65 | skipping a call is safe: from a coherent cache a lazy write keeps the cache coherent, and the actuator's last value on the pin's channel is the new value whether or not a call was made |
| `StepperMotor.Throttled` | src/stepper.ts:53 | `newState * current`: full current (1) leaves the duty unchanged and zero current gives duty 0 |
| `StepperMotor.ThrottleNeverRaisesDuty` | src/stepper.ts:52-53 | a current between 0 and 1 only lowers a non-negative duty, never below 0 |
| `StepperMotor.LazyPwmCallsMeaning` | src/stepper.ts:51-58 | `lazyPWM` makes at most one call, none exactly when the cache holds `newState * current`, and the call is `writeChannel(pin's channel, 0, newState * current)` |
| `StepperMotor.LazyPinCallsMeaning` | src/stepper.ts:60-65 | `lazyPin` makes at most one call, none exactly when the cache holds `newState`, and the call is `setPin(pin's channel, newState)` |
| `StepperMotor.CallFor` | src/stepper.ts:51-65 | the call a pulse makes for a pin goes to that pin's channel with its target value; duty pins use `writeChannel` with on-tick 0 |
| `StepperMotor.PulseCalls` | src/stepper.ts:79-88 | a pulse makes at most six calls, and exactly six on an empty cache |
| `StepperMotor.PulseCache` | src/stepper.ts:79-88 | after a pulse every one of the six cache entries holds its target, whatever the cache held before |
| `StepperMotor.PulseCallsPerPin` | src/stepper.ts:79-88 | each lazy write of a pulse is decided against the entry the pulse started with, in the order PWMA, PWMB, AIN2, BIN1, AIN1, BIN2 |
| `StepperMotor.PulseCallsTargets` | src/stepper.ts:79-88 | a pulse makes at most six calls, each to a pin's channel with that pin's target value |
| `StepperMotor.PulseTwiceIsSilent` | src/stepper.ts:79-88 | pulsing the same state twice makes no call the second time |
| `StepperMotor.FirstPulseWritesAll` | src/stepper.ts:79-88 | the first pulse on an empty cache writes all six pins in the order PWMA, PWMB, AIN2, BIN1, AIN1, BIN2 |
| `StepperMotor.Stepper.constructor` | src/stepper.ts:20-50 | a new sequencer is at step 0 with 16 microsteps, current 1, not pulsing, with an empty cache and no calls |
| `StepperMotor.Stepper.Send` | src/stepper.ts:55-56 | one call is appended and the pin's cache entry becomes the value sent, keeping the cache coherent |
| `StepperMotor.Stepper.LazyPwm` | src/stepper.ts:51-58 | the entry becomes `newState * current` and every other entry is unchanged; a `writeChannel(pin, 0, newState * current)` call is made only if the entry was absent or different |
| `StepperMotor.Stepper.LazyPin` | src/stepper.ts:60-65 | the entry becomes `newState` and every other entry is unchanged; a `setPin(pin, newState)` call is made only if the entry was absent or different |
| `StepperMotor.Stepper.Pulse` | src/stepper.ts:79-88 | the calls appended are exactly the six lazy writes in pin order, none of them made while `pulsing` was false; afterwards the cache holds the new state and `pulsing` is false |
| `StepperMotor.Stepper.Single` | src/stepper.ts:131-164 | from any non-negative position, the new position is `Advance` (the four updates) of the old one and is a whole step within one cycle, and the returned state is the coil state of the new position |

## Left out

- `Stepper.step`, the timer-driven stepping loop, is not modelled. Neither are `nowInMillis`, `sleep` or the `pps` and `stepsPerRev` fields. These are timing and overlapping timer ticks, not sequential logic.
- `StepperMotor.Stepper.Pulse`: the case where an actuator call throws is not modelled. There `pulsing` would stay raised. The actuator is modelled as a call list that never fails.
- The byte layout of `writeChannel` and `setPin` is not modelled. Those methods are not part of the `PWM` class shown, so each call is one abstract event in the call list.
- The sequencer's wiring is fixed to ports M1 and M2, the constructor defaults. Cache coherence needs every pin on its own channel, which `DefaultWiringDistinct` proves for this wiring. Other wirings are not modelled.
- `current` is an exact real, with no floating-point rounding of `newState * current`. `microsteps` and `current` are public fields; a caller may assign them between calls, which is why the class invariant only asks for a non-negative position.
- JavaScript numbers are modelled as integers in `PWM` and as exact reals in the validation guards. Fractional operands of `&` and `>>`, NaN, infinities and -0 are not modelled. So `includes` versus `!==` on NaN is not covered.
- The I²C transport (`openSync`, `writeByteSync`, `readByteSync`) is replaced by the list of bus operations. The answer to the one read is a parameter. The 5 ms sleeps and the `console.log` lines are left out.
- The commented-out `setPWMFreq` and `setPWM` code in `src/pwm.ts` is not live code and is not modelled.
- `src/index.ts` is not part of this model. It is an entry point that calls a factory the `PWM` class does not have.
- The decorator plumbing of `Validate` is not modelled: `Object.defineProperty`, `bind` and the `this` binding. Only what a guarded call does is modelled.
- `ParameterValidation.LessThanCheck` and `ParameterValidation.GreaterThanCheck` are false on non-numbers. `every` stops at the failing `isNumber` check first, so their value there never matters.
- Argument values are numbers, strings, booleans, `undefined` and `null`. Objects, arrays, functions, symbols and bigints are not modelled, and neither is the identity comparison `includes` and `!==` make on objects.
- The error message text of a failed validation is not modelled. The error carries only the parameter position and the rejected value.
