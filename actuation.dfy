/**
  The two compile-time variants that drive the LEDs: the PIT interrupt
  handler (LED_InterruptHandler, which acts on the `led`/`freq` published by
  getFLED) and one iteration of the LED task (LEDTask, which tests the
  sample itself and then sleeps).
 */
module Actuation {
  import opened Board
  import opened Classifier

  /** The pins after one PIT tick: for a known LED the two others are dark
      and the selected one is toggled, except that fixed red is held lit;
      for any other `led` nothing is written. */
  function HandlerSpec(p: Pins, led: int, freq: int): (q: Pins)
    ensures !IsColor(led) ==> q == p
    ensures IsColor(led) ==> AtMostOneLit(q)
    ensures IsColor(led) ==> forall x :: x != PinOf(led) ==> q.Get(x) == OFF
    ensures IsColor(led) && !(led == RED_LED && freq == FIXED) ==>
      q.Get(PinOf(led)) != p.Get(PinOf(led))
    ensures led == RED_LED && freq == FIXED ==> q.Get(RedPin) == ON
  {
    if !IsColor(led) then p
    else if led == RED_LED && freq == FIXED then Only(RedPin, ON)
    else Only(PinOf(led), Toggle(p.Get(PinOf(led))))
  }

  /** The delay that follows an LED-task iteration for a blink mode. */
  function DelayFor(freq: int): (d: Option<nat>)
    ensures d == Some(DELAY_10HZ_MS) <==> freq == F10HZ
    ensures d == Some(DELAY_20HZ_MS) <==> freq == F20HZ
    ensures d.Some? ==> d.value == DELAY_10HZ_MS || 2 * d.value == DELAY_10HZ_MS
  {
    if freq == F10HZ then Some(DELAY_10HZ_MS)
    else if freq == F20HZ then Some(DELAY_20HZ_MS)
    else None
  }

  /** The pins and the delay (None: no delay) of one LED-task iteration. */
  datatype TaskOutcome = TaskOutcome(pins: Pins, delayMs: Option<nat>)

  /** One LED-task iteration does what the timer handler does after getFLED
      has classified the same sample, and then sleeps for its mode's delay. */
  function TaskSpec(p: Pins, val: Sample): (o: TaskOutcome)
    ensures AtMostOneLit(o.pins)
  {
    var d := Classify(val);
    TaskOutcome(HandlerSpec(p, d.led, d.freq), DelayFor(d.freq))
  }

  /** The pins after the LED task has run one iteration per sample of `vals`. */
  function TaskRun(p: Pins, vals: seq<Sample>): (q: Pins)
    ensures vals != [] ==> AtMostOneLit(q)
    ensures vals != [] && vals[|vals| - 1] >= FIXED_RED_FROM ==> q == Pins(ON, OFF, OFF)
  {
    if vals == [] then p
    else TaskSpec(TaskRun(p, vals[..|vals| - 1]), vals[|vals| - 1]).pins
  }

  /** The task sleeps 50 ms exactly in the 10 Hz bands, 25 ms exactly in the
      20 Hz bands, and not at all from FIXED_RED_FROM up. */
  lemma TaskDelayBands(p: Pins, val: Sample)
    ensures TaskSpec(p, val).delayMs == Some(DELAY_10HZ_MS) <==>
      val < 9929 || 19859 <= val < 29789 || 39718 <= val < 49648
    ensures TaskSpec(p, val).delayMs == Some(DELAY_20HZ_MS) <==>
      9929 <= val < 19859 || 29789 <= val < 39718 || 49648 <= val < FIXED_RED_FROM
    ensures TaskSpec(p, val).delayMs == None <==> val >= FIXED_RED_FROM
  {
  }

  /** In a blinking mode, a second tick with the same `led`/`freq` restores
      the selected pin, and from the second tick on it is the only pin that
      changes. */
  lemma ToggleTwiceRestores(p: Pins, led: int, freq: int)
    requires IsColor(led) && !(led == RED_LED && freq == FIXED)
    ensures HandlerSpec(HandlerSpec(p, led, freq), led, freq).Get(PinOf(led)) == p.Get(PinOf(led))
    ensures forall x :: x != PinOf(led) ==>
      HandlerSpec(HandlerSpec(p, led, freq), led, freq).Get(x) == HandlerSpec(p, led, freq).Get(x)
  {
  }

  /** The fixed-red tick lights red alone whatever the pins were, so
      repeating it changes nothing. */
  lemma FixedRedIdempotent(p: Pins)
    ensures HandlerSpec(p, RED_LED, FIXED) == Pins(ON, OFF, OFF)
    ensures HandlerSpec(HandlerSpec(p, RED_LED, FIXED), RED_LED, FIXED) == HandlerSpec(p, RED_LED, FIXED)
  {
  }

  /** While every sample selects the same LED in a blinking mode, each task
      iteration flips that LED: after n iterations it has been toggled n
      times, and the two other LEDs are dark. */
  lemma {:induction false} BlinkRun(p: Pins, vals: seq<Sample>, led: int)
    requires IsColor(led)
    requires forall i :: 0 <= i < |vals| ==> Classify(vals[i]).led == led && Classify(vals[i]).freq != FIXED
    ensures TaskRun(p, vals).Get(PinOf(led)) ==
      if |vals| % 2 == 0 then p.Get(PinOf(led)) else Toggle(p.Get(PinOf(led)))
    ensures vals != [] ==> forall x :: x != PinOf(led) ==> TaskRun(p, vals).Get(x) == OFF
  {
    if vals != [] {
      var init := vals[..|vals| - 1];
      forall i | 0 <= i < |init|
        ensures Classify(init[i]).led == led && Classify(init[i]).freq != FIXED
      {
        assert init[i] == vals[i];
      }
      BlinkRun(p, init, led);
    }
  }

  /** The board state the LED code reads and writes: the three LED pin
      levels and the globals `led`, `freq` and the PIT_LDVAL0 register. */
  class Controller {
    var red: Level
    var green: Level
    var blue: Level
    var led: int
    var freq: int
    var pitReload: int

    function Levels(): Pins
      reads this
    {
      Pins(red, green, blue)
    }

    /** Power-on state: `led` and `freq` are 0, the pins and the PIT reload
        are whatever the board initialisation left. */
    constructor (p: Pins, reload: int)
      ensures Levels() == p && led == 0 && freq == 0 && pitReload == reload
    {
      red, green, blue := p.red, p.green, p.blue;
      led, freq, pitReload := 0, 0, reload;
    }

    /** GPIO_DRV_WritePinOutput on one LED pin. */
    method WritePin(x: Pin, l: Level)
      modifies this`red, this`green, this`blue
      ensures Levels() == old(Levels()).Set(x, l)
    {
      match x
      case RedPin => red := l;
      case GreenPin => green := l;
      case BluePin => blue := l;
    }

    /** GPIO_DRV_TogglePinOutput on one LED pin. */
    method TogglePin(x: Pin)
      modifies this`red, this`green, this`blue
      ensures Levels() == old(Levels()).Set(x, Toggle(old(Levels()).Get(x)))
    {
      match x
      case RedPin => red := Toggle(red);
      case GreenPin => green := Toggle(green);
      case BluePin => blue := Toggle(blue);
    }

    /** getFLED: publish the LED and mode selected by `val`; reload the PIT
        for the blinking modes and leave it as it was for fixed red. */
    method GetFled(val: Sample)
      modifies this`led, this`freq, this`pitReload
      ensures led == Classify(val).led && freq == Classify(val).freq
      ensures pitReload == if val >= FIXED_RED_FROM then old(pitReload) else Classify(val).reload.value
    {
      var d := Classify(val);
      if d.reload.Some? {
        pitReload := d.reload.value;
      }
      led, freq := d.led, d.freq;
    }

    /** LED_InterruptHandler: one PIT tick acting on the published `led`/`freq`. */
    method LedInterruptHandler()
      modifies this`red, this`green, this`blue
      ensures Levels() == HandlerSpec(old(Levels()), led, freq)
    {
      if led == GREEN_LED {
        WritePin(RedPin, OFF);
        WritePin(BluePin, OFF);
        TogglePin(GreenPin);
      } else if led == BLUE_LED {
        WritePin(RedPin, OFF);
        WritePin(GreenPin, OFF);
        TogglePin(BluePin);
      } else if led == RED_LED && freq != FIXED {
        WritePin(GreenPin, OFF);
        WritePin(BluePin, OFF);
        TogglePin(RedPin);
      } else if led == RED_LED && freq == FIXED {
        WritePin(GreenPin, OFF);
        WritePin(BluePin, OFF);
        WritePin(RedPin, ON);
      }
    }

    /** One iteration of LEDTask's loop for the sample `val`; returns the
        delay it then sleeps (None in the fixed-red branch). */
    method LedTaskStep(val: Sample) returns (delayMs: Option<nat>)
      modifies this`red, this`green, this`blue
      ensures TaskOutcome(Levels(), delayMs) == TaskSpec(old(Levels()), val)
    {
      if Guard(0, val) {
        WritePin(RedPin, OFF);
        WritePin(BluePin, OFF);
        TogglePin(GreenPin);
        delayMs := Some(50);
      } else if Guard(1, val) {
        WritePin(RedPin, OFF);
        WritePin(GreenPin, OFF);
        TogglePin(BluePin);
        delayMs := Some(50);
      } else if Guard(2, val) {
        WritePin(GreenPin, OFF);
        WritePin(BluePin, OFF);
        TogglePin(RedPin);
        delayMs := Some(50);
      } else if Guard(3, val) {
        WritePin(RedPin, OFF);
        WritePin(BluePin, OFF);
        TogglePin(GreenPin);
        delayMs := Some(25);
      } else if Guard(4, val) {
        WritePin(GreenPin, OFF);
        WritePin(RedPin, OFF);
        TogglePin(BluePin);
        delayMs := Some(25);
      } else if Guard(5, val) {
        WritePin(GreenPin, OFF);
        WritePin(BluePin, OFF);
        TogglePin(RedPin);
        delayMs := Some(25);
      } else {
        WritePin(GreenPin, OFF);
        WritePin(BluePin, OFF);
        WritePin(RedPin, ON);
        delayMs := None;
      }
    }

    /** The first |vals| iterations of LEDTask's endless loop, the i-th
        seeing the sample vals[i]; returns the delay of each iteration. */
    method RunLedTask(vals: seq<Sample>) returns (delays: seq<Option<nat>>)
      modifies this`red, this`green, this`blue
      ensures Levels() == TaskRun(old(Levels()), vals)
      ensures |delays| == |vals|
      ensures forall i :: 0 <= i < |vals| ==> delays[i] == DelayFor(Classify(vals[i]).freq)
      ensures vals != [] ==> AtMostOneLit(Levels())
    {
      delays := [];
      var i := 0;
      while i < |vals|
        invariant 0 <= i <= |vals|
        invariant Levels() == TaskRun(old(Levels()), vals[..i])
        invariant |delays| == i
        invariant forall j :: 0 <= j < i ==> delays[j] == DelayFor(Classify(vals[j]).freq)
      {
        var d := LedTaskStep(vals[i]);
        delays := delays + [d];
        assert vals[..i + 1][..i] == vals[..i];
        i := i + 1;
      }
      assert vals[..|vals|] == vals;
    }
  }
}
