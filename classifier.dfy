/**
  The voltage-band decision of getFLED: a 16-bit sample selects the LED to
  drive, its blink mode and, for the two blinking modes, the PIT reload value.
  The source tests the bands out of numeric order; `BandTable` lists them in
  numeric order and is the reference the decision is proved against.
 */
module Classifier {
  import opened Board

  /** The six explicit guards of the band chain, numbered in the order the
      source writes them (the same chain appears in getFLED and in LEDTask). */
  predicate Guard(k: nat, val: int)
    requires k < 6
    ensures Guard(k, val) ==> val < FIXED_RED_FROM
    ensures Guard(k, val) && k != 0 ==> val >= 9929
  {
    match k
    case 0 => val < 9929
    case 1 => val >= 19859 && val < 29789
    case 2 => val >= 39718 && val < 49648
    case 3 => val >= 9929 && val < 19859
    case 4 => val >= 29789 && val < 39718
    case 5 => val >= 49648 && val < 59578
  }

  /** Samples from this value up are past every explicit guard. */
  const FIXED_RED_FROM: int := 59578

  /** What getFLED publishes: `led`, `freq`, and the value written to
      PIT_LDVAL0 (None when the timer reload is left untouched). */
  datatype Decision = Decision(led: int, freq: int, reload: Option<int>)

  /** The decision of getFLED for the sample `val`. */
  function Classify(val: Sample): (r: Decision)
    ensures IsColor(r.led)
    ensures r.freq == F10HZ || r.freq == F20HZ || r.freq == FIXED
    ensures r.freq == FIXED <==> val >= FIXED_RED_FROM
    ensures r.freq == FIXED ==> r.led == RED_LED && r.reload == None
    ensures r.freq == F10HZ ==> r.reload == Some(RELOAD_10HZ)
    ensures r.freq == F20HZ ==> r.reload.Some? && 2 * r.reload.value == RELOAD_10HZ
  {
    if Guard(0, val) then Decision(GREEN_LED, F10HZ, Some(RELOAD_10HZ))
    else if Guard(1, val) then Decision(BLUE_LED, F10HZ, Some(RELOAD_10HZ))
    else if Guard(2, val) then Decision(RED_LED, F10HZ, Some(RELOAD_10HZ))
    else if Guard(3, val) then Decision(GREEN_LED, F20HZ, Some(RELOAD_20HZ))
    else if Guard(4, val) then Decision(BLUE_LED, F20HZ, Some(RELOAD_20HZ))
    else if Guard(5, val) then Decision(RED_LED, F20HZ, Some(RELOAD_20HZ))
    else Decision(RED_LED, FIXED, None)
  }

  /** The explicit guards never overlap, and none of them holds exactly when
      the sample is at or above FIXED_RED_FROM: every sample takes exactly
      one branch, whatever the textual order of the chain. */
  lemma GuardsPartition(val: Sample)
    ensures forall i, j :: 0 <= i < j < 6 ==> !(Guard(i, val) && Guard(j, val))
    ensures (forall k :: 0 <= k < 6 ==> !Guard(k, val)) <==> val >= FIXED_RED_FROM
  {
    forall i, j | 0 <= i < j < 6
      ensures !(Guard(i, val) && Guard(j, val))
    {
    }
    if val < FIXED_RED_FROM {
      if val < 9929 { assert Guard(0, val); }
      else if val < 19859 { assert Guard(3, val); }
      else if val < 29789 { assert Guard(1, val); }
      else if val < 39718 { assert Guard(4, val); }
      else if val < 49648 { assert Guard(2, val); }
      else { assert Guard(5, val); }
    }
  }

  /** The LED and mode a band selects. */
  datatype Setting = Setting(led: int, freq: int)

  /** A half-open range of samples [lo, hi) and what it selects. */
  datatype Band = Band(lo: int, hi: int, setting: Setting)

  predicate Contains(b: Band, val: int) {
    b.lo <= val < b.hi
  }

  /** The bands in numeric order; samples past the last one get FALLBACK. */
  const BandTable: seq<Band> := [
    Band(0, 9929, Setting(GREEN_LED, F10HZ)),
    Band(9929, 19859, Setting(GREEN_LED, F20HZ)),
    Band(19859, 29789, Setting(BLUE_LED, F10HZ)),
    Band(29789, 39718, Setting(BLUE_LED, F20HZ)),
    Band(39718, 49648, Setting(RED_LED, F10HZ)),
    Band(49648, FIXED_RED_FROM, Setting(RED_LED, F20HZ))
  ]

  const FALLBACK: Setting := Setting(RED_LED, FIXED)

  /** Each band ends where the next begins, so the bands tile [0, FIXED_RED_FROM). */
  predicate Tiles(table: seq<Band>, from: int, to: int) {
    if table == [] then from == to
    else table[0].lo == from && table[0].lo < table[0].hi && Tiles(table[1..], table[0].hi, to)
  }

  /** Bands that come later lie wholly above earlier ones. */
  predicate Ordered(table: seq<Band>) {
    forall i, j :: 0 <= i < j < |table| ==> table[i].hi <= table[j].lo
  }

  /** First-match lookup: the setting of the first band holding `val`, or FALLBACK. */
  function Lookup(table: seq<Band>, val: int): (r: Setting)
    ensures r == FALLBACK || exists i :: 0 <= i < |table| && Contains(table[i], val) && r == table[i].setting
  {
    if table == [] then FALLBACK
    else if Contains(table[0], val) then table[0].setting
    else
      var r := Lookup(table[1..], val);
      assert r != FALLBACK ==> exists i :: 0 <= i < |table| && Contains(table[i], val) && r == table[i].setting by {
        if r != FALLBACK {
          var i :| 0 <= i < |table[1..]| && Contains(table[1..][i], val) && r == table[1..][i].setting;
          assert table[i + 1] == table[1..][i];
        }
      }
      r
  }

  /** Tiling bands are ordered, and together they hold exactly [from, to). */
  lemma {:induction false} TilesOrdered(table: seq<Band>, from: int, to: int, val: int)
    requires Tiles(table, from, to)
    ensures Ordered(table)
    ensures from <= to
    ensures (exists i :: 0 <= i < |table| && Contains(table[i], val)) <==> from <= val < to
    ensures forall i :: 0 <= i < |table| ==> from <= table[i].lo && table[i].hi <= to
  {
    if table != [] {
      var tail := table[1..];
      TilesOrdered(tail, table[0].hi, to, val);
      forall i | 0 < i < |table|
        ensures table[i] == tail[i - 1]
      {
      }
      if from <= val < to && !Contains(table[0], val) {
        var i :| 0 <= i < |tail| && Contains(tail[i], val);
        assert Contains(table[i + 1], val);
      }
    }
  }

  /** In an ordered table the first match is the only match: the order of
      the tests does not matter. */
  lemma {:induction false} LookupUnique(table: seq<Band>, val: int, k: nat)
    requires Ordered(table)
    requires k < |table| && Contains(table[k], val)
    ensures Lookup(table, val) == table[k].setting
  {
    if k > 0 {
      assert table[0].hi <= table[k].lo;
      assert table[1..][k - 1] == table[k];
      LookupUnique(table[1..], val, k - 1);
    }
  }

  /** A sample in no band gets FALLBACK. */
  lemma LookupMiss(table: seq<Band>, val: int)
    requires forall i :: 0 <= i < |table| ==> !Contains(table[i], val)
    ensures Lookup(table, val) == FALLBACK
  {
  }

  /** getFLED selects, for every sample, the LED and mode of the band that
      holds it in numeric order, FALLBACK past the last band; and it loads
      the PIT with RELOAD_10HZ for F10HZ, RELOAD_20HZ for F20HZ, nothing for FIXED. */
  lemma ClassifyMatchesTable(val: Sample)
    ensures Setting(Classify(val).led, Classify(val).freq) == Lookup(BandTable, val)
    ensures Classify(val).reload ==
      if Classify(val).freq == F10HZ then Some(RELOAD_10HZ)
      else if Classify(val).freq == F20HZ then Some(RELOAD_20HZ)
      else None
  {
    assert Tiles(BandTable, 0, FIXED_RED_FROM) by {
      assert Tiles(BandTable[6..], FIXED_RED_FROM, FIXED_RED_FROM);
      assert Tiles(BandTable[5..], 49648, FIXED_RED_FROM);
      assert Tiles(BandTable[4..], 39718, FIXED_RED_FROM);
      assert Tiles(BandTable[3..], 29789, FIXED_RED_FROM);
      assert Tiles(BandTable[2..], 19859, FIXED_RED_FROM);
      assert Tiles(BandTable[1..], 9929, FIXED_RED_FROM);
    }
    TilesOrdered(BandTable, 0, FIXED_RED_FROM, val);
    if val < 9929 { LookupUnique(BandTable, val, 0); }
    else if val < 19859 { LookupUnique(BandTable, val, 1); }
    else if val < 29789 { LookupUnique(BandTable, val, 2); }
    else if val < 39718 { LookupUnique(BandTable, val, 3); }
    else if val < 49648 { LookupUnique(BandTable, val, 4); }
    else if val < FIXED_RED_FROM { LookupUnique(BandTable, val, 5); }
    else { LookupMiss(BandTable, val); }
  }

  /** The boundary samples on each side of every band edge. */
  lemma BoundaryValues()
    ensures Classify(0) == Decision(GREEN_LED, F10HZ, Some(RELOAD_10HZ))
    ensures Classify(9928) == Decision(GREEN_LED, F10HZ, Some(RELOAD_10HZ))
    ensures Classify(9929) == Decision(GREEN_LED, F20HZ, Some(RELOAD_20HZ))
    ensures Classify(19858) == Decision(GREEN_LED, F20HZ, Some(RELOAD_20HZ))
    ensures Classify(19859) == Decision(BLUE_LED, F10HZ, Some(RELOAD_10HZ))
    ensures Classify(29788) == Decision(BLUE_LED, F10HZ, Some(RELOAD_10HZ))
    ensures Classify(29789) == Decision(BLUE_LED, F20HZ, Some(RELOAD_20HZ))
    ensures Classify(39717) == Decision(BLUE_LED, F20HZ, Some(RELOAD_20HZ))
    ensures Classify(39718) == Decision(RED_LED, F10HZ, Some(RELOAD_10HZ))
    ensures Classify(49647) == Decision(RED_LED, F10HZ, Some(RELOAD_10HZ))
    ensures Classify(49648) == Decision(RED_LED, F20HZ, Some(RELOAD_20HZ))
    ensures Classify(59577) == Decision(RED_LED, F20HZ, Some(RELOAD_20HZ))
    ensures Classify(59578) == Decision(RED_LED, FIXED, None)
    ensures Classify(60000) == Decision(RED_LED, FIXED, None)
    ensures Classify(65535) == Decision(RED_LED, FIXED, None)
  {
  }
}
