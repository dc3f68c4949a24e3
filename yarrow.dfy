/**
 * The yarrow-stalk ("Cỏ Thi") cast: each interval tick turns one uniform
 * draw in [0, 1) into a line value and pushes it, bottom line first, until
 * six lines are there (index.tsx:424-449). The draws are parameters here;
 * the source takes them from `Math.random`, and its timers are not modelled.
 */
module Yarrow {
  import opened Wrappers
  import opened Lines

  /** The lower end of the band of draws that yields `v`. */
  function BandLow(v: LineValue): real
  {
    match v
    case 6 => 0.0
    case 8 => 0.125
    case 7 => 0.375
    case 9 => 0.875
  }

  /** The upper end (exclusive) of the band of draws that yields `v`. */
  function BandHigh(v: LineValue): real
  {
    match v
    case 6 => 0.125
    case 8 => 0.375
    case 7 => 0.875
    case 9 => 1.0
  }

  /**
   * The threshold rule of index.tsx:436-441. A draw in [0, 1) lands in the
   * band of the value it yields.
   */
  function YarrowLine(rand: real): (v: LineValue)
    ensures 0.0 <= rand < 1.0 ==> BandLow(v) <= rand < BandHigh(v)
  {
    if rand < 0.125 then 6
    else if rand < 0.375 then 8
    else if rand < 0.875 then 7
    else 9
  }

  /**
   * The bands tile [0, 1) in the order 6, 8, 7, 9 with widths 1/8, 1/4, 1/2
   * and 1/8, so a draw in [0, 1) yields `v` exactly when it lies in `v`'s
   * band. Under a uniform draw these widths are the chances of old yin,
   * young yin, young yang and old yang.
   */
  lemma YarrowBands(rand: real, v: LineValue)
    requires 0.0 <= rand < 1.0
    ensures YarrowLine(rand) == v <==> BandLow(v) <= rand < BandHigh(v)
    ensures BandLow(6) == 0.0 && BandHigh(6) == BandLow(8) && BandHigh(8) == BandLow(7)
    ensures BandHigh(7) == BandLow(9) && BandHigh(9) == 1.0
    ensures BandHigh(6) - BandLow(6) == 1.0 / 8.0 && BandHigh(8) - BandLow(8) == 1.0 / 4.0
    ensures BandHigh(7) - BandLow(7) == 1.0 / 2.0 && BandHigh(9) - BandLow(9) == 1.0 / 8.0
  {
  }

  /**
   * The state one yarrow cast keeps between ticks: `accumulatedLines` and
   * `currentLineIndex` (index.tsx:424-425).
   */
  class YarrowCasting {
    var accumulatedLines: seq<LineValue>
    var currentLineIndex: int

    ghost predicate Valid()
      reads this
    {
      0 <= currentLineIndex <= 6 && |accumulatedLines| == currentLineIndex
    }

    constructor ()
      ensures Valid()
      ensures accumulatedLines == [] && currentLineIndex == 0
    {
      accumulatedLines := [];
      currentLineIndex := 0;
    }

    /**
     * One interval tick (index.tsx:426-449). Once six lines are there the
     * tick completes the cast with them and changes nothing; before that it
     * turns the draw into a line, pushes it and moves to the next line.
     */
    method Tick(rand: real) returns (completed: Option<seq<LineValue>>)
      requires Valid()
      modifies this
      ensures Valid()
      ensures old(currentLineIndex) >= 6 ==>
        completed == Some(old(accumulatedLines)) && accumulatedLines == old(accumulatedLines) &&
        currentLineIndex == old(currentLineIndex)
      ensures old(currentLineIndex) < 6 ==>
        completed == None && accumulatedLines == old(accumulatedLines) + [YarrowLine(rand)] &&
        currentLineIndex == old(currentLineIndex) + 1
    {
      if currentLineIndex >= 6 {
        completed := Some(accumulatedLines);
        return;
      }
      var newLineVal := YarrowLine(rand);
      accumulatedLines := accumulatedLines + [newLineVal];
      currentLineIndex := currentLineIndex + 1;
      completed := None;
    }
  }

  /**
   * A whole yarrow cast driven by the six draws the ticks consume: six ticks
   * push a line each and the seventh completes the cast. The result holds
   * one line per draw, in draw order, so the first draw is the bottom line.
   */
  method CastYarrow(draws: seq<real>) returns (lines: seq<LineValue>)
    requires |draws| == 6
    ensures |lines| == 6
    ensures forall i :: 0 <= i < 6 ==> lines[i] == YarrowLine(draws[i])
  {
    var casting := new YarrowCasting();
    var completed: Option<seq<LineValue>> := None;
    var i := 0;
    while completed.None?
      invariant casting.Valid()
      invariant 0 <= i <= 6 && casting.currentLineIndex == i
      invariant forall k :: 0 <= k < i ==> casting.accumulatedLines[k] == YarrowLine(draws[k])
      invariant completed.Some? ==> i == 6 && completed.value == casting.accumulatedLines
      decreases 7 - i - (if completed.Some? then 1 else 0)
    {
      var rand := if i < 6 then draws[i] else 0.0;
      completed := casting.Tick(rand);
      if completed.None? {
        i := i + 1;
      }
    }
    lines := completed.value;
  }
}
