# Voltage-band LED controller (FRDM-K64F, uC/OS-III) — Dafny model

The application samples ADC0 in 16-bit mode and uses the sample to pick one
of three on-board LEDs and a blink pattern. There are seven bands. The six
lower bands blink green, blue or red, at 10 Hz or at 20 Hz. From 59578 up,
red stays on. Two compile-time variants drive the LEDs:

- **Periodic timer.** `getFLED` classifies the sample. It publishes the
  choice in the globals `led` and `freq` and reloads the PIT with the toggle
  period. The PIT interrupt handler `LED_InterruptHandler` then acts on
  `led`/`freq` at every tick.
- **Task delay.** `LEDTask` tests the sample itself on each pass of its
  endless loop. It drives the pins, then sleeps 50 ms or 25 ms. In the
  fixed-red band it does not sleep.

The LEDs are active low. Level 0 lights an LED and level 1 darkens it.

The model has three modules:

- `Board` (board.dfy) holds the source's codes for `led` (1 green, 2 red,
  3 blue) and `freq` (4 fixed, 5 10 Hz, 6 20 Hz). It also holds the PIT
  reload values, the task delays, the 16-bit `Sample`, the pin `Level`, and
  the three LED pins as a `Pins` value.
- `Classifier` (classifier.dfy) holds the decision of `getFLED`. `Classify`
  is a total function over 0..65535. Its chain of guards is in the source's
  textual order. `BandTable` is an independent reference that lists the
  bands in numeric order. The lemmas prove that the guards partition the
  domain and that `Classify` agrees with the table.
- `Actuation` (actuation.dfy) has two parts:
  - Specification functions: `HandlerSpec` for one timer tick and `TaskSpec`
    for one LED-task iteration, with lemmas about them.
  - The class `Controller`. Its fields are the three pin levels, `led`,
    `freq` and the PIT reload register. Its methods mirror `getFLED`,
    `LED_InterruptHandler` and the body of `LEDTask`'s loop, pin write by pin
    write, and are proved against the specification functions.

`TaskSpec` is defined as "what the timer handler does after `getFLED` has
classified the same sample". `LedTaskStep` has its own branch chain and its
own pin writes, and it is proved to equal `TaskSpec`. That proof is the
statement that both variants drive the same LED the same way for every
sample. The branch chain tests the same `Guard(k, val)` predicates as
`Classify`, because the source writes the two chains' conditions
identically (app.c:265-310 and app.c:386-426).

Where the code and its comments disagree, the model follows the code. The
comments at app.c:346 and app.c:398 say "turns off blue LED", but the code
writes the green pin at both lines.

Three facts about the code shape the model:

- The timer handler keeps no elapsed-time counter. It toggles the selected
  LED on every PIT tick, and the blink rate comes only from the PIT reload
  value.
- There is no "off" pattern. Any `led` that is not 1, 2 or 3, such as the
  initial value 0, makes the handler write no pin.
- The LED task sleeps 50 ms or 25 ms in the blinking bands and not at all
  in the fixed-red band.

## Model

| member | source | states |
|---|---|---|
| `Board.PinOf` | Freescale/FRDM-K64F/OS3-KSDK/app.c:36-38 | each LED code (green 1, red 2, blue 3) selects its own `BOARD_GPIO_LED_*` pin, and distinct codes select distinct pins |
| `Board.Toggle` | Freescale/FRDM-K64F/OS3-KSDK/app.c:340 | toggling a pin always changes its level |
| `Board.Pins.Set` | Freescale/FRDM-K64F/OS3-KSDK/app.c:338-339 | writing a pin sets that pin to the level and leaves the other two pins unchanged |
| `Classifier.Guard` | Freescale/FRDM-K64F/OS3-KSDK/app.c:265-310 | the six explicit branch conditions, in textual order (the same conditions recur at app.c:386-426); each one holds only below 59578, and each one after the first holds only from 9929 up |
| `Classifier.Classify` | Freescale/FRDM-K64F/OS3-KSDK/app.c:265-324 | the decision always names green, blue or red and one of F10HZ, F20HZ or FIXED; FIXED is chosen exactly when the sample is at least 59578, and then the LED is red and the PIT is not reloaded; F10HZ reloads 0x2DC6C0 and F20HZ reloads exactly half of that |
| `Classifier.GuardsPartition` | Freescale/FRDM-K64F/OS3-KSDK/app.c:265-324 | the six explicit guards are pairwise disjoint, and none of them holds exactly when the sample is at least 59578, so each sample takes exactly one branch |
| `Classifier.Lookup` | Freescale/FRDM-K64F/OS3-KSDK/app.c:265-324 | first-match lookup returns the fallback (red, fixed) or the setting of a band that contains the sample |
| `Classifier.TilesOrdered` | Freescale/FRDM-K64F/OS3-KSDK/app.c:374-379 | bands that tile [from, to) edge to edge are ordered, and a sample lies in one of them exactly when it lies in [from, to) |
| `Classifier.LookupUnique` | Freescale/FRDM-K64F/OS3-KSDK/app.c:265-324 | in an ordered table, lookup returns the band that contains the sample, whatever that band's position |
| `Classifier.LookupMiss` | Freescale/FRDM-K64F/OS3-KSDK/app.c:319-324 | a sample in no band gets the fixed-red fallback |
| `Classifier.ClassifyMatchesTable` | Freescale/FRDM-K64F/OS3-KSDK/app.c:265-324 | for every 16-bit sample, the out-of-order chain selects the LED and mode of the band in numeric order (green 10/20 Hz, blue 10/20 Hz, red 10/20 Hz, then fixed red); the reload is 0x2DC6C0 for 10 Hz, 0x16E360 for 20 Hz and none for fixed |
| `Classifier.BoundaryValues` | Freescale/FRDM-K64F/OS3-KSDK/app.c:265-324 | the decision on both sides of every band edge, e.g. 9928 gives green/10 Hz, 9929 gives green/20 Hz, 59577 gives red/20 Hz, 59578 gives red/fixed |
| `Actuation.HandlerSpec` | Freescale/FRDM-K64F/OS3-KSDK/app.c:335-362 | for a known LED, the two other pins end dark, so at most one LED is lit; the selected pin changes level, except that fixed red ends lit; for any other `led` no pin changes |
| `Actuation.DelayFor` | Freescale/FRDM-K64F/OS3-KSDK/app.c:392-432 | the delay is 50 ms exactly for F10HZ and 25 ms exactly for F20HZ, and 25 ms is half of 50 ms |
| `Actuation.TaskSpec` | Freescale/FRDM-K64F/OS3-KSDK/app.c:386-440 | after one LED-task iteration at most one LED is lit |
| `Actuation.TaskRun` | Freescale/FRDM-K64F/OS3-KSDK/app.c:384-442 | after at least one iteration of LEDTask's loop at most one LED is lit, and if the last sample was at least 59578 then red alone is lit |
| `Actuation.TaskDelayBands` | Freescale/FRDM-K64F/OS3-KSDK/app.c:386-440 | the task sleeps 50 ms exactly in the three 10 Hz bands and 25 ms exactly in the three 20 Hz bands, and does not sleep exactly from 59578 up |
| `Actuation.ToggleTwiceRestores` | Freescale/FRDM-K64F/OS3-KSDK/app.c:335-355 | in a blinking mode, two ticks with the same `led`/`freq` restore the selected pin; the second tick changes no other pin |
| `Actuation.FixedRedIdempotent` | Freescale/FRDM-K64F/OS3-KSDK/app.c:356-362 | the fixed-red tick leaves red lit and green and blue dark whatever the prior pins, so repeating it changes nothing |
| `Actuation.BlinkRun` | Freescale/FRDM-K64F/OS3-KSDK/app.c:384-442 | while every sample selects the same LED in a blinking mode, n iterations toggle that LED n times and keep the other two dark |
| `Actuation.Controller.constructor` | Freescale/FRDM-K64F/OS3-KSDK/app.c:46-48 | `led` and `freq` start at 0, and the pins and the PIT reload are as the board initialisation left them |
| `Actuation.Controller.WritePin` | Freescale/FRDM-K64F/OS3-KSDK/app.c:338 | writing a pin sets that pin's level and nothing else |
| `Actuation.Controller.TogglePin` | Freescale/FRDM-K64F/OS3-KSDK/app.c:340 | toggling a pin flips that pin's level and nothing else |
| `Actuation.Controller.GetFled` | Freescale/FRDM-K64F/OS3-KSDK/app.c:259-325 | `led` and `freq` become the decision for the sample; the PIT reload takes the decision's value in the blinking bands and keeps its old value from 59578 up; the pins are untouched |
| `Actuation.Controller.LedInterruptHandler` | Freescale/FRDM-K64F/OS3-KSDK/app.c:335-362 | the new pins are `HandlerSpec` of the old pins under the current `led`/`freq`; `led`, `freq` and the PIT reload are untouched |
| `Actuation.Controller.LedTaskStep` | Freescale/FRDM-K64F/OS3-KSDK/app.c:386-440 | one iteration leaves the pins exactly as the timer handler would after `getFLED` on the same sample, and returns 50 ms, 25 ms or no delay as the mode requires |
| `Actuation.Controller.RunLedTask` | Freescale/FRDM-K64F/OS3-KSDK/app.c:384-442 | after running the loop over a finite sequence of samples, the pins are `TaskRun` of the old pins, each iteration's delay matches its sample's mode, and after at least one iteration at most one LED is lit |

## Left out

- `main`, `startTask`, `setupADC0`, `readADC0` and the undefined `setupUART` (app.c:100-222) only set up clocks, peripherals, IRQs and tasks. `readADC0` is declared `uint16_t` but returns nothing.
- `ADCTask`, `ADC_InterruptHandler` and the semaphores `sem1`/`sem2`, including the `OSSemPend` at the top of `getFLED`, are left out. They hand the sample from the interrupt to the tasks, and the model takes the sample `val` as a parameter instead. The same goes for the critical sections and `OSIntEnter`/`OSIntExit`.
- The interleaving of `startTask`'s endless `getFLED` loop with PIT interrupts is concurrency, and the model does not capture it. A handler tick is modelled against whatever `led`/`freq` are at that moment.
- The PIT control writes (`PIT_MCR` disable and enable, the `PIT_TFLG0` flag clear) are left out. Only the value written to `PIT_LDVAL0` is kept. The model does not relate reload ticks to milliseconds, because the bus clock is not part of this model.
- `OSTimeDlyHMSM` is modelled only as the returned delay. Scheduling, real time, and the fact that the fixed-red branch of `LEDTask` spins without yielding are not modelled.
- Re-reads of the `volatile` sample are not modelled. Each guard of the chains at app.c:265-310 and app.c:386-426 reads the global `val` (app.c:46) again, and the ADC interrupt can overwrite it between two reads (app.c:245). The model evaluates each chain on one sample. With torn reads the chain can fall through to the fixed-red branch for a sample in a blinking band. For example, the first guard reads 10000 and later guards read 5000. Every branch still darkens the two LEDs it does not select, so at most one LED stays lit. The agreement between the chosen branch and the sample's band is what is lost.
- `GPIO_DRV_WritePinOutput` and `GPIO_DRV_TogglePinOutput` are modelled as writes and flips of three abstract pin levels. The vendor driver is not modelled.
- `LEDTask`'s loop never ends. `Actuation.Controller.RunLedTask` models its first n iterations, for a given sequence of samples.
- `Actuation.ToggleTwiceRestores`: it states "only the selected pin changes" from the second tick on. The first tick after a change of LED also darkens any other LED that was lit, so the property does not hold for that first tick.
