# Five-channel LED dimmer: a Dafny model

This project models the core of an ATmega328P firmware that dims five LEDs by
software PWM. Each modulation period works like this:

- One potentiometer reading sets the duty cycle for every channel.
- Each channel has a push button on a pin-change interrupt. When the
  interrupt fires, its handler negates the enable flag of the first channel,
  in a fixed priority order, whose button pin bit reads 1.
- The main loop runs `pwm_run(POT1, 1000)` forever. Each call sets the LED bit
  of every enabled channel, waits the on-time, clears all five LED bits, and
  waits the off-time.

The model has four modules, one per part of the program:

- `Header` (header.h): the `set`/`clr`/`read` bit macros on 8-bit registers,
  the pin map of LEDs and buttons on PORTD and PORTB, the firmware's own
  `bool` enumeration, and the shared state. `Mcu` is a class holding PORTD,
  PORTB and the five `volatile` enable globals. Its methods `Set` and `Clr`
  are the in-place uses of the macros.
- `Interrupts` (interuppts.c):
  - The two handlers, each as a pure transition on the flags (`Pcint2`,
    `Pcint0`) and as a method that updates the globals in place (`Pcint2Isr`,
    `Pcint0Isr`).
  - How a sequence of deliveries acts on the flags: a channel's flag is
    negated once per delivery that targets it.
- `Adc` (adc.c):
  - The duty-cycle split `adc_get_pwm_values`.
  - The counting delay `delay_us`.
  - One period, `pwm_run`. Interrupt deliveries are an input: batch k of the
    schedule runs just before statement k of `pwm_run`. So a flag can change
    between any two statements.
- `MainLoop` (main.c, setup.c):
  - The reset state and the port writes of `init_ports`.
  - A finite run of the main loop: one reading and one schedule per period.
  - What the whole run guarantees: all LEDs off, all pull-ups on, and each
    flag set by the parity of the deliveries that targeted its channel.

The integer formula `(2*p*s + 1023) / 2046` computes the on-time exactly.
`PwmValues` states and proves the relation to the real-valued product
`p * (s / 1023)`.

Consequences of the code worth knowing:

- Each flag is read at its own `if` (adc.c:110-114). A toggle that lands
  between two of those tests therefore already counts in the current period
  for the later channels. `SampledFlags` takes LEDk's flag as it stands just
  before statement k.
- For reading 768 and period 1000 the code computes
  `(uint16_t)(1000 * 768/1023.0 + 0.5)`, which is 751 (750.73 rounded half
  up), not the 750 that 768/1023 ≈ 0.75 suggests. `Adc.ReferenceSplits`
  states 751/249.
- A handler acts on the pin bits as they read, not on button events. The
  pull-ups make an idle button read 1, so which flag a given press or release
  negates depends on the other buttons of the same port. The model states the
  effect in terms of pin bits (`Interrupts.Targets`).

## Model

| member | source | states |
|---|---|---|
| Header.SetBit | header.h:37 | `set(reg, b)` makes bit b 1 and leaves the seven other bits as they were |
| Header.ClearBit | header.h:45 | `clr(reg, b)` makes bit b 0 and leaves the seven other bits as they were |
| Header.Read | header.h:53 | `read(reg, b)` is nonzero exactly when bit b of reg is 1, and is then the mask `1 << b` |
| Header.SetIdempotent | header.h:37 | setting a bit twice is setting it once |
| Header.ClearIdempotent | header.h:45 | clearing a bit twice is clearing it once |
| Header.ClearAfterSet | header.h:37-45 | `clr` after `set` on the same bit leaves that bit 0, equals `clr` alone, and restores the register when the bit was 0 |
| Header.PinMapBits | header.h:17-29 | the LED bits of PORTD are {6, 7} and its button bits {2, 3}; PORTB has LEDs on {0, 1, 2} and buttons on {3, 4, 5}; these are exactly the bits of the channels on that port |
| Header.PinMapDisjoint | header.h:17-29 | no bit of a port is both an LED bit and a button bit; two channels on one port never share an LED bit or a button bit |
| Header.Bool.Not | header.h:56 | C's `!` on the enumeration gives 1 for 0 and 0 otherwise, and always changes the value |
| Header.BoolValues | header.h:56 | the enumeration has exactly the two values `false` = 0 and `true` = 1, `!` swaps them, and `!!x == x` |
| Header.EnableFlags.Toggle | interuppts.c:16 | `ledk_enabled = !ledk_enabled` negates channel k's flag and no other flag |
| Header.ToggleChangesOne | interuppts.c:16 | toggling changes exactly the toggled channel, and toggling twice restores the flags |
| Header.Mcu.constructor | setup.c:11-15 | at reset every enable global is `false`; both output registers start at 0, which is the hardware reset value of PORTD and PORTB, not something the source writes |
| Header.Mcu.Set | header.h:37 | `set(PORTx, b)` in place: the register of that port becomes `SetBit` of its old value and the other register is not written |
| Header.Mcu.Clr | header.h:45 | `clr(PORTx, b)` in place: the register of that port becomes `ClearBit` of its old value and the other register is not written |
| Interrupts.Pcint2 | interuppts.c:12-23 | PCINT2 never changes the flags of channels 3 to 5; it changes at most one flag, and only channel 1's or channel 2's |
| Interrupts.Pcint0 | interuppts.c:31-46 | PCINT0 never changes the flags of channels 1 and 2; it changes at most one flag, and only one of channels 3 to 5 |
| Interrupts.Pcint2Isr | interuppts.c:12-23 | the handler's in-place updates of the globals have the effect of `Pcint2` on the pin byte, and it writes only `led1_enabled` and `led2_enabled` |
| Interrupts.Pcint0Isr | interuppts.c:31-46 | the handler's in-place updates have the effect of `Pcint0`, and it writes only `led3_enabled` to `led5_enabled` |
| Interrupts.Pcint2Priority | interuppts.c:14-21 | BUTTON1 set: only led1 toggles, whatever BUTTON2 is; BUTTON1 clear and BUTTON2 set: only led2 toggles; neither set: nothing changes |
| Interrupts.Pcint0Priority | interuppts.c:33-45 | priority BUTTON3 > BUTTON4 > BUTTON5: exactly the flag of the first set button toggles, and none when no button bit is set |
| Interrupts.HandlersAreInvolutions | interuppts.c:12-46 | running either handler twice with the same pin byte restores the original flags |
| Interrupts.ServePending | interuppts.c:12-46 | servicing a sequence of interrupts one handler at a time leaves the globals as the composed transitions `ServeAll` say |
| Interrupts.ServeNegatesTarget | interuppts.c:12-46 | one delivery negates the flag of the channel whose button pin bit reads 1 first in priority order and no other flag, and it targets at most one channel |
| Interrupts.ServeAllParity | interuppts.c:12-46 | after a sequence of deliveries, a flag is negated exactly when an odd number of them targeted its channel |
| Adc.PwmValues | adc.c:83-85 | on + off == period exactly, on <= period, and on is the exact `period * reading / 1023` rounded half up (within one half below and strictly less than one half above) |
| Adc.OnTimeIsRoundHalfUp | adc.c:83-84 | the round-half-up relation determines the on-time: any integer that satisfies it is the computed on-time |
| Adc.FullScaleReadings | adc.c:83-85 | reading 0 gives on 0 and off = period; reading 1023 gives on = period and off 0 |
| Adc.OnTimeMonotone | adc.c:83-84 | a higher reading never gives a shorter on-time or a longer off-time |
| Adc.OffTimeMirrorsOnTime | adc.c:83-85 | the off-time for reading s equals the on-time for reading 1023 - s |
| Adc.ReferenceSplits | adc.c:83-85 | with period 1000, readings 511 and 512 both split 500/500, and reading 768 splits 751/249 |
| Adc.DelayUs | adc.c:135-143 | the loop `for (uint16_t i = 0; i < t; ++i) _delay_us(1)` stops with i == t, so it runs exactly t iterations, and none for t = 0 |
| Adc.TestAndSet | adc.c:110-114 | `if (ledk_enabled) set(PORTx, LEDk)`: sets the bit when the flag is true, otherwise writes nothing, and never touches the other register |
| Adc.OnPhase | adc.c:110-114 | the five tests, with interrupts between them, leave PORTD/PORTB at the on-phase values for the flags each test read, and the flags as the interrupts left them |
| Adc.OnPhaseBits | adc.c:110-114 | after the on-phase an LED bit is 1 exactly when it was 1 before or its flag read true, so a disabled LED's bit is not written; no bit other than an LED bit changes |
| Adc.OffPhase | adc.c:117-121 | the five clears, with interrupts between them, leave PORTD/PORTB at the off-phase values whatever the flags are or become |
| Adc.OffPhaseBits | adc.c:117-121 | after the off-phase every one of the five LED bits is 0 and every other bit, such as the button pull-ups, is unchanged |
| Adc.OffPhaseAbsorbsOnPhase | adc.c:110-121 | the clears undo exactly what the on-phase set, so the registers at the end of a period do not depend on the flags |
| Adc.OffPhaseIdempotent | adc.c:117-121 | a second off-phase changes nothing |
| Adc.PwmRun | adc.c:103-125 | one period: the two delays run the on- and off-time iterations of `PwmValues`; during the on-delay the registers hold the on-phase values for the sampled flags; at the end the registers are the off-phase of their start values; the flags end as the period's interrupts left them |
| MainLoop.Setup | setup.c:56-73 | from reset, setup turns on the pull-up bit of each of the five buttons and no other bit, with every flag `false` |
| MainLoop.RunPeriods | main.c:26-30 | n periods of `pwm_run(POT1, 1000)` take n * 1000 delay steps, with the on-steps the sum of the per-reading on-times; after at least one period the LED bits are 0 and every other bit is as it was; the flags are the period-by-period composition |
| MainLoop.FlagsAfterParity | main.c:26-30 | over many periods a channel's flag is its start value negated once per delivery that targeted the channel |
| MainLoop.EnabledIffOddTargets | setup.c:11-15 | starting from the `false` initializers, a channel is enabled after n periods exactly when an odd number of the deliveries so far targeted it (read its button's pin bit as 1 with no earlier button of the port at 1) |
| MainLoop.OnTimeTotalBounded | main.c:28 | the total on-time of n periods never exceeds n * 1000 |
| MainLoop.Firmware | main.c:22-33 | from reset through setup and n periods: every LED is off, both output registers hold exactly the five button pull-up bits, and each channel is enabled exactly when an odd number of deliveries targeted it |

## Left out

- `adc_read` (adc.c:39-46) is a hardware conversion (ADMUX, ADCSRA, a busy
  poll on ADIF). Its result is an input of type `AdcReading` in 0..1023. This
  includes the discarded test conversion in `setup`.
- Header.Mcu.constructor: PORTD and PORTB start at 0, the ATmega328P reset
  value; the source does not write them before `init_ports`. `Setup`'s "no
  other bit" and `Firmware`'s final register state rest on that.
- The DDRD/DDRB writes of `init_ports`, all of `init_interrupts` (PCICR,
  PCMSK0, PCMSK2) and `SEI` are one-time hardware configuration that the
  rest of the core never reads. `Setup` models only the PORTD/PORTB pull-up
  writes.
- The infinite `while (1)` loop of `main` runs here for a finite number of
  periods, one reading per period.
- Interrupts are atomic transitions serviced between two statements of
  `pwm_run`. The model does not cover preemption inside a statement, torn
  reads, or `volatile` access semantics. The handlers write only the flags,
  and `pwm_run` writes only PORTD and PORTB. So the read-modify-write of
  `set`/`clr` cannot race with a handler.
- `_delay_us` and all wall-clock timing: a delay is only its iteration count.
  The on-delay and off-delay are each one service point, so a flag change
  during a delay is seen at the next statement.
- Adc.PwmValues: the C code computes with `double`. The model uses exact
  integer round-half-up, proved to equal the exact real product plus one
  half, floored. `2*p*s + 1023` is odd, so the exact value is never at a .5
  boundary. Floating-point rounding error next to a boundary is not modelled.
- Splitting `pwm_run` into `OnPhase`, `OffPhase` and `TestAndSet` only
  structures the proof. Together they run the statements of adc.c:108-122 in
  order.
