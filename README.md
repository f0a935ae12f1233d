# Helicopter rig firmware: control core in Dafny

This project models the control core of a Tiva-based helicopter rig firmware and proves
properties of the model. The core has these parts:

- the quadrature yaw decoder, `quadrature.c`;
- the altitude sampler and its rounded mean, `ADC.c`;
- the set-point store and the two PID controllers, `pwmRotor.c`;
- the four-state flight supervisor, with its take-off lock and yaw-reference scan, `heliState.c`;
- the SysTick task decimation and the main loop that runs the tasks, `main.c`;
- the unit conversions and the yaw text of the display, `display.c`.

The C code that works on values becomes pure functions, in one module per file:

- `Quadrature`, `Adc`, `PwmRotor`, `HeliState`, `Scheduler` and `Display`;
- `CInt`, for C's fixed-width conversions and its truncating `/` and `%`.

The statics each C file updates in place become a class in module `Firmware`:

- `YawDecoder`: `quadrature.c`;
- `Sampler`: `ADC.c`, with the ring as an `array`;
- `Rotor`: the set points, limits and PWM state of `pwmRotor.c`;
- `Controllers`: the function statics of `controllerMain` and `controllerTail`;
- `Supervisor`: `heliState.c`;
- `Heli`: the counters, flags and loop variables of `main.c`.

The methods of the first five classes are the C functions of the same name. The methods
of `Heli` are `SysTickIntHandler` and the blocks of `main` (main.c:157-227): `StartUp`
for the landed reading and limits, one method per task of the loop, and
`MainLoopIteration` for one pass. Each `ensures` ties the new state to the pure
definition, and the properties are proved about those definitions.

C semantics are written out:

- `uint8`, `uint16`, `int16` and `uint32` stores wrap. This covers `max_alt`, which
  wraps when the landed reading is below one volt, the set points, the counters and
  the ADC sum.
- `/` and `%` truncate toward zero.
- A float converted to an integer is truncated toward zero.
- `float` arithmetic is done over the reals.

Where the firmware's documented design and its code differ, the model follows the code:

- The yaw position ranges over [-224, 224], both ends included, not a half-open range.
  Only steps that cross a bound wrap.
- Neither controller ever changes its integral `dI`. The anti-windup branch adds to the
  local `I` only, so the integral term is always 0. The model keeps this
  (`Controllers.mainIntegral` and `tailIntegral` are constants 0), and no lemma claims
  anti-windup.
- On the tick where LANDING becomes LANDED, `PWM_OFF` is not called. The rotors are
  switched off on the next supervisor tick, which runs in LANDED, unless SW1 is high on
  that tick. Then it takes off again with the rotors still on.
- The 32-bit sum in `getAltMean` wraps once `2 * sum + 60` reaches 2^32. The 32-bit sum
  does not wrap while every sample is at most 35791393 (`Adc.MaxSafeSample`); the result
  is still cut to 16 bits. For samples of at most 16 bits, `Adc.AltMeanRoundsHalfUp`
  states the exact rounded mean. Both always hold for the 12-bit ADC.
- In `main`, `currentAlt` and `currentYaw` are declared without an initial value
  (main.c:127-128). The model starts them at 0, a value no task reads: the controller
  flag is first raised on tick 5, before any other task's (`Scheduler.FiresExactly`),
  and each loop pass runs the controller task first.

## Model

| member | source | states |
|---|---|---|
| CInt.CDiv | group_101/display.c:41 | C's `/`: the magnitude is the truncated quotient of the magnitudes, and the sign is negative exactly when the operands' signs differ |
| CInt.CRem | group_101/display.c:42 | C's `%`: quotient times divisor plus remainder is the dividend; the remainder is smaller than the divisor and has the dividend's sign |
| CInt.CDivNeg | group_101/display.c:106 | dividing the negated dividend by a positive divisor gives the negated quotient |
| CInt.CDivMonotone | group_101/display.c:96 | C division by a positive divisor is monotone in the dividend |
| Quadrature.IsReverse | group_101/quadrature.c:68-71 | the four counter-clockwise transitions 00->01, 01->11, 11->10 and 10->00; no own contract, its effect is stated by `Quadrature.Step` and `Quadrature.ReverseCycleStep` |
| Quadrature.Direction | group_101/quadrature.c:68-77 | -1 for a counter-clockwise transition, +1 for every other change; no own contract, stated through `Quadrature.Step`, `Quadrature.ReverseCycles` and `Quadrature.ForwardCycles` |
| Quadrature.Wrap | group_101/quadrature.c:80-86 | an in-range position is kept; one step past either bound comes back in range, in the same place modulo 448; 225 becomes -223 and -225 becomes 223 |
| Quadrature.Step | group_101/quadrature.c:50-91 | an unchanged phase changes nothing; otherwise the last phase is the new one and the position moves one step (down for 00->01->11->10->00, up otherwise), wrapped and in range |
| Quadrature.ReverseCycleStep | group_101/quadrature.c:68-73 | one counter-clockwise Gray-code cycle from phase 00 moves the position by -4 modulo a revolution, keeps it in range and ends at phase 00 |
| Quadrature.ForwardCycleStep | group_101/quadrature.c:74-77 | one clockwise cycle moves the position by +4 modulo a revolution |
| Quadrature.ReverseCycles | group_101/quadrature.c:64-89 | k counter-clockwise cycles move the position by -4k modulo a revolution, in range |
| Quadrature.ForwardCycles | group_101/quadrature.c:64-89 | k clockwise cycles move the position by +4k modulo a revolution, in range |
| Quadrature.RunInRange | group_101/quadrature.c:80-86 | any sequence of edge notifications keeps an in-range position in range |
| Firmware.YawDecoder.constructor | group_101/quadrature.c:10 | the position starts at -223 and the last phase at 00 |
| Firmware.YawDecoder.GpioYawHandler | group_101/quadrature.c:50-91 | the edge handler's new position and last phase are `Quadrature.Step` of the old ones, and the position stays in range |
| Firmware.YawDecoder.SetYawZero | group_101/quadrature.c:38-40 | the position becomes 0 |
| Adc.AltMean | group_101/ADC.c:95 | `(2 * sum + 60) / 2 / 60` with the sum kept in a uint32; no own contract, stated by `Adc.AltMeanRoundsHalfUp`, `Adc.AltMeanNoWrap`, `Adc.AltMeanBetween`, `Adc.AltMeanConstant` and `Adc.AltMeanPermutation` |
| Adc.Rotate | group_101/ADC.c:92-94 | BufSize reads from slot k visit slot k+i (mod BufSize) at step i |
| Adc.SumRotate | group_101/ADC.c:92-94 | the sum over the reads is the sum of the ring, whatever the read index |
| Adc.WrapAdd | group_101/ADC.c:93 | accumulating in a uint32 gives the full sum modulo 2^32 |
| Adc.SumPermutation | group_101/ADC.c:89-97 | two rings with the same multiset of samples have the same sum |
| Adc.AltMeanPermutation | group_101/ADC.c:89-97 | the mean depends only on the multiset of samples, not on their order |
| Adc.AltMeanNoWrap | group_101/ADC.c:95 | with samples up to 35791393, `2 * sum + 60` does not wrap and the mean is (sum + 30) / 60 |
| Adc.AltMeanRoundsHalfUp | group_101/ADC.c:95 | for 16-bit samples the mean is (sum + 30) / 60, the sum over 60 rounded half up: 60·mean - 30 <= sum < 60·mean + 30 |
| Adc.AltMeanBetween | group_101/ADC.c:89-97 | the mean lies between the least and the greatest sample |
| Adc.AltMeanConstant | group_101/ADC.c:89-97 | a ring holding v everywhere has mean v |
| Firmware.Sampler.constructor | group_101/ADC.c:58-59 | the ring has 60 slots, all 0, and both indices are 0 |
| Firmware.Sampler.AdcIntHandler | group_101/ADC.c:68-83 | the sample is written at the write index, nothing else in the ring changes, and the index advances modulo 60 |
| Firmware.Sampler.GetAltMean | group_101/ADC.c:88-97 | the loop returns `Adc.AltMean` of the ring contents and leaves the read index where it started |
| PwmRotor.MaxAltFor | group_101/pwmRotor.c:79 | `max_alt` is one volt (1240) below the landed reading, plus 65536 when that is negative |
| PwmRotor.IncAlt | group_101/pwmRotor.c:186-191 | without int16 wrap, the set point moves 124 towards `max_alt` and stops there |
| PwmRotor.DecAlt | group_101/pwmRotor.c:195-200 | without int16 wrap, the set point moves 124 away from `max_alt` and stops at `min_alt - 124` |
| PwmRotor.AltCommandsStayInBand | group_101/pwmRotor.c:186-200 | any sequence of incAlt/decAlt keeps a set point in [max_alt, min_alt - 124] |
| PwmRotor.IncYaw | group_101/pwmRotor.c:209-215 | an in-range yaw set point stays in [-224, 224] and moves +19 modulo 448 |
| PwmRotor.DecYaw | group_101/pwmRotor.c:219-225 | an in-range yaw set point stays in range and moves -19 modulo 448 |
| PwmRotor.IncThenDecYaw | group_101/pwmRotor.c:209-225 | decYaw undoes incYaw, except that 224 comes back as -224 |
| PwmRotor.DecThenIncYaw | group_101/pwmRotor.c:209-225 | incYaw undoes decYaw, except that -224 comes back as 224 |
| PwmRotor.Trunc | group_101/pwmRotor.c:120 | float to int32 drops the fraction: the magnitude is within 1 below the value's, with the same sign |
| PwmRotor.TruncMonotone | group_101/pwmRotor.c:120 | the conversion is monotone |
| PwmRotor.Clamp | group_101/pwmRotor.c:122-130 | the output is within the bounds; an output already within them is unchanged, one above the upper limit becomes that limit and one below the lower limit becomes that limit |
| PwmRotor.MainEffort | group_101/pwmRotor.c:114-120 | gravity feed-forward minus P, I (integral plus candidate) and D; no own contract, stated through `PwmRotor.MainControl` and `PwmRotor.MainControlMonotone` |
| PwmRotor.MainControl | group_101/pwmRotor.c:109-133 | the main duty is always within [15, 80] |
| PwmRotor.MainControlMonotone | group_101/pwmRotor.c:114-126 | a larger ADC reading (a lower helicopter) never gives less main duty |
| PwmRotor.TailError | group_101/pwmRotor.c:139-149 | without the sweep, in-range set point and yaw give an error in [-224, 224] equal to their difference modulo 448; with the sweep it is their plain difference |
| PwmRotor.TailPid | group_101/pwmRotor.c:156-164 | the tail PID effort never exceeds PID_TAIL_MAX (25) |
| PwmRotor.TailControl | group_101/pwmRotor.c:138-182 | the tail duty is always within [5, 85] |
| PwmRotor.TailControlMonotone | group_101/pwmRotor.c:166-169 | more main duty never gives less tail duty |
| Firmware.Rotor.constructor | group_101/pwmRotor.c:11-16 | the set points start at 0 and -223 and both limits at 0 |
| Firmware.Rotor.InitAltLimits | group_101/pwmRotor.c:77-82 | `min_alt` is the landed reading, `max_alt` is `MaxAltFor` of it, and the altitude set point is the landed reading as an int16 |
| Firmware.Rotor.IncAlt | group_101/pwmRotor.c:186-191 | the set point becomes `PwmRotor.IncAlt` of the old one |
| Firmware.Rotor.DecAlt | group_101/pwmRotor.c:195-200 | the set point becomes `PwmRotor.DecAlt` of the old one |
| Firmware.Rotor.SetAlt | group_101/pwmRotor.c:204-206 | the altitude set point becomes the argument |
| Firmware.Rotor.IncYaw | group_101/pwmRotor.c:209-215 | the yaw set point becomes `PwmRotor.IncYaw` of the old one |
| Firmware.Rotor.DecYaw | group_101/pwmRotor.c:219-225 | the yaw set point becomes `PwmRotor.DecYaw` of the old one |
| Firmware.Rotor.SetYaw | group_101/pwmRotor.c:229-231 | the yaw set point becomes the argument |
| Firmware.Controllers.constructor | group_101/pwmRotor.c:111-112 | both previous readings start at 0 (the integrals are constants 0) |
| Firmware.Controllers.ControllerMain | group_101/pwmRotor.c:109-133 | the duty is `MainControl` of the set point, the reading and the previous reading, within [15, 80]; the reading is remembered |
| Firmware.Controllers.ControllerTail | group_101/pwmRotor.c:138-182 | the duty is `TailControl` of the main duty and `TailError`, within [5, 85]; the reading is remembered |
| HeliState.StateName | group_101/heliState.c:16-22 | the string at the state's index in HELISTATE_STRING; no own contract, stated by `HeliState.StateNamesDistinct` |
| HeliState.StateNamesDistinct | group_101/heliState.c:16-22 | different flight states have different names |
| HeliState.TakeoffComplete | group_101/heliState.c:196-218 | done exactly when below the take-off threshold with the yaw reference found; the altitude set point is always `min_alt - 62`; yaw 223 is commanded only while still scanning below the threshold; nothing else changes |
| HeliState.LandingComplete | group_101/heliState.c:172-191 | done exactly when yaw is in [-6, 6) and the altitude is within 24 of ground; ground is commanded once yaw is in [-6, 6); nothing else changes |
| HeliState.PoleButtons | group_101/heliState.c:94-117 | LEFT applies `decYaw`, RIGHT `incYaw`, UP `incAlt` and DOWN `decAlt`, each independently (LEFT before RIGHT, UP before DOWN when both are pressed); only the set points change; in-range yaw and in-band altitude set points stay so; no press changes nothing |
| HeliState.Update | group_101/heliState.c:123-168 | per state: LANDED unlocks on a low switch and takes off on a high one once unlocked, otherwise PWM off, and taking off leaves the PWM as it was; TAKING_OFF turns PWM on, makes exactly the set-point writes of `takeoffComplete` and flies when take-off completes; FLYING applies the buttons and lands on a low switch; LANDING commands yaw 0, makes exactly the writes of `landingComplete` and lands when landing completes; the lock is never set again; scan flag and limits are kept |
| HeliState.ButtonsOnlyWhenFlying | group_101/heliState.c:150-156 | outside FLYING the buttons have no effect |
| HeliState.YawRefHandler | group_101/heliState.c:76-88 | the first reference pulse while scanning commands yaw 0 and ends the scan; afterwards nothing changes |
| HeliState.CalibratedInv | group_101/heliState.c:11-13 | the start-up state satisfies the invariant |
| HeliState.RunPreservesInv | group_101/heliState.c:123-168 | every sequence of ticks and reference pulses keeps the invariant: only LANDED may be locked, and FLYING and LANDING only after the yaw reference |
| HeliState.LockNeverReturns | group_101/heliState.c:128-131 | once released, the take-off lock stays released |
| HeliState.ScanNeverReturns | group_101/heliState.c:78-82 | once cleared, the scan flag stays cleared |
| HeliState.NoFlightWithoutYawRef | group_101/heliState.c:196-211 | without a yaw-reference pulse the helicopter never leaves LANDED/TAKING_OFF |
| HeliState.WholeFlight | group_101/heliState.c:123-218 | a concrete flight (unlock, take off, reference, fly, land) ends LANDED, unlocked, scan done, PWM off |
| Firmware.Supervisor.constructor | group_101/heliState.c:11-13 | LANDED, locked, scanning |
| Firmware.Supervisor.TakeoffComplete | group_101/heliState.c:196-218 | result and new state are `HeliState.TakeoffComplete` of the old state |
| Firmware.Supervisor.LandingComplete | group_101/heliState.c:172-191 | result and new state are `HeliState.LandingComplete` of the old state |
| Firmware.Supervisor.PoleButtons | group_101/heliState.c:94-117 | the new state is `HeliState.PoleButtons` of the old one |
| Firmware.Supervisor.UpdateHelicopterState | group_101/heliState.c:123-168 | the new state is `HeliState.Update` of the old one, and the returned state is the new flight state |
| Firmware.Supervisor.YawRefHandler | group_101/heliState.c:76-88 | the new state is `HeliState.YawRefHandler` of the old one; the decoder position is zeroed exactly when the scan was on |
| Scheduler.TickCounter | group_101/main.c:96-120 | a task's flag is raised exactly when its counter has reached the period, and the counter stays in [1, period] |
| Scheduler.CounterClosedForm | group_101/main.c:84-120 | after n ticks the counter is (n - 1) mod period + 1 |
| Scheduler.FiresWhenFull | group_101/main.c:96-99 | tick n raises the flag exactly when tick n - 1 left the counter at the period |
| Scheduler.FiresExactly | group_101/main.c:45-48 | the flag is raised on tick period + 1 and every period-th tick after it, and on no other |
| Scheduler.FireCountPerPeriod | group_101/main.c:45-48 | over n ticks the flag is raised (n - 1) / period times: 250, 100, 66.67 and 5 Hz at a 1 kHz tick |
| Firmware.Heli.constructor | group_101/main.c:34-37 | flags down, counters 0, ring cleared, decoder and supervisor at their initialisers |
| Firmware.Heli.SysTickIntHandler | group_101/main.c:82-121 | each counter and flag follows `Scheduler.TickCounter`; a raised flag stays raised; counters stay within their periods |
| Firmware.Heli.StartUp | group_101/main.c:157-160 | the landed reading is the ring's mean, the read index ends where it started, and the altitude limits and set point are taken from the reading |
| Firmware.Heli.ControllerTask | group_101/main.c:169-180 | when flagged: the samples are the ring mean and the decoder position, the main duty is `MainControl` of them and the tail duty chains it through `TailControl` with the int16 yaw and the sweep flag, and both controllers remember these samples; otherwise nothing changes; the read index ends where it started; the flag is cleared |
| Firmware.Heli.ButtonsTask | group_101/main.c:183-192 | when flagged: the supervisor takes one `HeliState.Update` tick on the last samples, and the sweep is on exactly while TAKING_OFF; otherwise nothing changes; the flag is cleared |
| Firmware.Heli.DisplayTask | group_101/main.c:195-198 | the display flag is cleared |
| Firmware.Heli.UartTask | group_101/main.c:201-225 | the UART flag is cleared |
| Firmware.Heli.MainLoopIteration | group_101/main.c:162-227 | one loop pass keeps the ring indices in range, leaves the read index where it was and clears every flag; a flagged controller leaves fresh samples, duties within their limits and controller memories holding the samples, and an unflagged one changes no sample, duty or controller memory; a flagged supervisor tick is `HeliState.Update` on those samples and sets the sweep from its new state; an unflagged one leaves the supervisor and the set-point store unchanged |
| Display.GetAltPercent | group_101/display.c:92-99 | the ADC drop from the landed reading, times 100, over 1240, truncated; no own contract, stated by the `Display.AltPercent…` lemmas below |
| Display.GetYawDegree | group_101/display.c:104-107 | the position times 36000 over 448, truncated; no own contract, stated by the `Display.YawDegree…` lemmas below |
| Display.AltPercentAtBase | group_101/display.c:92-99 | the landed reading is 0 % |
| Display.AltPercentOneVolt | group_101/display.c:92-99 | one volt above the landed reading is 100 %, for every landed reading |
| Display.AltPercentMonotone | group_101/display.c:92-99 | a larger ADC reading never shows a larger percentage |
| Display.AltPercentInFlightBand | group_101/display.c:92-99 | between ground and one volt up the percentage is in [0, 100] |
| Display.YawDegreeOdd | group_101/display.c:104-107 | opposite positions read opposite angles |
| Display.YawDegreeInRange | group_101/display.c:104-107 | a position in [-224, 224] reads within [-180.00, 180.00] degrees |
| Display.YawDegreeQuarterTurn | group_101/display.c:104-107 | 112 steps read exactly 90.00 degrees, -112 read -90.00 |
| Display.ConversionsFitInt32 | group_101/display.c:95-106 | for the values the firmware passes, neither conversion's intermediate product overflows int32 |
| Display.SplitYaw | group_101/display.c:41-48 | the whole part and the non-negative hundredths reconstruct the magnitude, the whole part has the angle's sign, and the negative-zero flag is set exactly for a negative angle with hundredths |
| Display.NegativeZeroBranch | group_101/display.c:50-52 | the "-0." line is printed exactly for angles strictly between -1 and 0 degrees |
| Display.DecimalRoundTrip | group_101/display.c:55 | `%d` of a natural number reads back as that number |
| Display.TwoDigitRoundTrip | group_101/display.c:55 | `%02d` of a value below 100 reads back as that value |
| Display.YawTextAsWritten | group_101/display.c:50-56 | `%d.%d` of the whole degrees and hundredths, or "-0." and the hundredths for the negative-zero case; no own contract, stated by `Display.YawTextAsWrittenMisreads` |
| Display.YawText | group_101/display.c:50-56 | the same text with the hundredths as `%02d`; no own contract, stated by `Display.YawTextRoundTrip` and `Display.YawTextInjective` |
| Display.YawTextAsWrittenMisreads | group_101/display.c:52-55 | as written, 1.05 degrees prints "1.5", which reads as 1.50, and -0.05 degrees prints "-0.5", which reads as -0.50 |
| Display.YawTextRoundTrip | group_101/display.c:50-56 | with `%02d` hundredths, every printed yaw reads back as the angle it came from |
| Display.YawTextInjective | group_101/display.c:50-56 | with `%02d` hundredths, no two angles print the same |

## Left out

- Peripheral set-up is not modelled, because it only programs hardware registers. This covers `initQuad`, `initADC`, `initialisePWM`, `initClock`, `initDisplay`, the UART, switch, reset-pin and yaw-reference-pin set-up, and the start-up delay.
- Interrupt status reads and clears are not modelled, and neither are the ADC trigger in `SysTickIntHandler` or the yaw-reference interrupt disable. They are register accesses. Once the scan flag is clear, the modelled `yawRefHandler` does nothing, which has the same effect as the disabled interrupt.
- The circular buffer functions of `circBufT.c` are not part of this model. The ring is modelled as a 60-slot array whose slots start at 0, with cyclic write and read indices.
- `readSwitchState` and `updateButtons`/`checkButton` (buttons4) read hardware. Their results are the parameters `sw1High` and `b`.
- `readResetButtonState` resets the processor, which is outside the model. The loop iteration starts after it.
- `setDuty` and `PWM_ON`/`PWM_OFF` only write PWM registers. The duties they get and an on/off flag are modelled.
- The OLED output of `displayWrite` and the UART strings of the main loop are not modelled. The conversions and the yaw text they print are modelled as functions.
- Interrupts are modelled as methods that run to completion between tasks. Preemption inside a task, and the `volatile` accesses it would race on, is not modelled.
- `float` arithmetic is done over the reals, so single-precision rounding is not modelled. The truncation to `int32` is modelled.
- `getAltPercent` and `getYawDegree` compute over unbounded integers. `Display.ConversionsFitInt32` shows that their int32 intermediates do not overflow for the values the firmware passes.
- `getHeliState`'s string table is modelled as `HeliState.StateName`, and the getters `getAltSet`, `getYawSet`, `getmin_alt` and `getYawPosition` as field reads.
- Firmware.Heli.MainLoopIteration: bounds the duties rather than giving their formulas. `Firmware.Heli.ControllerTask` states the formulas for the same step.
- PwmRotor.IncAlt: states the result only when no int16 wrap occurs. The function itself computes the wrapping C arithmetic.
- PwmRotor.DecAlt: states the result only when no int16 wrap occurs. The function itself computes the wrapping C arithmetic.

## Findings

| source | as written | input that shows it | evidently intended | confidence | as-written member | corrected member |
|---|---|---|---|---|---|---|
| group_101/display.c:52-55 | the hundredths of the yaw are printed with `%d` in both branches, so a value below 10 loses its leading zero | yaw of 105 hundredths (1.05 degrees) prints "1.5", which reads as 1.50 degrees; -5 hundredths (-0.05 degrees) prints "-0.5", which reads as -0.50 | `%02d` in both, so that 1.05 prints "1.05" and -0.05 prints "-0.05" | not executed | Display.YawTextAsWrittenMisreads | Display.YawTextRoundTrip |
