/**
  Board-level vocabulary of the FRDM-K64F alarm application: the codes kept
  in the globals `led` and `freq`, the PIT reload values and task delays, the
  16-bit ADC sample, and the three active-low LED output pins.
 */
module Board {

  datatype Option<T> = None | Some(value: T)

  // LED codes stored in the global `led`
  const GREEN_LED: int := 1
  const RED_LED: int := 2
  const BLUE_LED: int := 3

  // Blink modes stored in the global `freq`
  const FIXED: int := 4
  const F10HZ: int := 5
  const F20HZ: int := 6

  // PIT_LDVAL0 reload values (timer ticks per toggle)
  const RELOAD_10HZ: int := 0x2DC6C0
  const RELOAD_20HZ: int := 0x16E360

  // OSTimeDlyHMSM delays of the LED task, in milliseconds
  const DELAY_10HZ_MS: nat := 50
  const DELAY_20HZ_MS: nat := 25

  /** A conversion result: the ADC runs in 16-bit mode and `val` is a uint16_t. */
  type Sample = v: int | 0 <= v < 0x1_0000

  /** A GPIO output level. The LEDs are active low: level 0 lights, level 1 darkens. */
  type Level = l: int | 0 <= l <= 1

  const ON: Level := 0
  const OFF: Level := 1

  /** The value of `led` names one of the three LEDs. */
  predicate IsColor(led: int) {
    led == GREEN_LED || led == RED_LED || led == BLUE_LED
  }

  /** The three LED output pins (BOARD_GPIO_LED_RED, _GREEN, _BLUE). */
  datatype Pin = RedPin | GreenPin | BluePin

  /** The pin wired to the LED with code `led`. */
  function PinOf(led: int): (x: Pin)
    requires IsColor(led)
    ensures (x == GreenPin <==> led == GREEN_LED) && (x == RedPin <==> led == RED_LED)
    ensures x == BluePin <==> led == BLUE_LED
  {
    if led == GREEN_LED then GreenPin else if led == RED_LED then RedPin else BluePin
  }

  /** The levels currently driven on the three LED pins. */
  datatype Pins = Pins(red: Level, green: Level, blue: Level) {

    function Get(x: Pin): Level {
      match x
      case RedPin => red
      case GreenPin => green
      case BluePin => blue
    }

    /** The pins after driving `x` to level `l` (GPIO_DRV_WritePinOutput). */
    function Set(x: Pin, l: Level): (q: Pins)
      ensures q.Get(x) == l
      ensures forall y :: y != x ==> q.Get(y) == Get(y)
    {
      match x
      case RedPin => this.(red := l)
      case GreenPin => this.(green := l)
      case BluePin => this.(blue := l)
    }
  }

  /** The other level (GPIO_DRV_TogglePinOutput). */
  function Toggle(l: Level): (r: Level)
    ensures r != l
  {
    1 - l
  }

  /** Pin `x` at level `l`, the other two pins dark. */
  function Only(x: Pin, l: Level): (q: Pins)
    ensures q.Get(x) == l
    ensures forall y :: y != x ==> q.Get(y) == OFF
  {
    Pins(OFF, OFF, OFF).Set(x, l)
  }

  /** No two LEDs are lit at once. */
  predicate AtMostOneLit(p: Pins) {
    forall x, y :: p.Get(x) == ON && p.Get(y) == ON ==> x == y
  }
}
