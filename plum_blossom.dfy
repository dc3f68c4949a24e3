/**
 * The Plum-Blossom ("Mai Hoa") cast: three numbers in 1..100 give an upper
 * trigram, a lower trigram and one moving line (index.tsx:385-410). The
 * numbers are parameters here; the source draws them with `Math.random`.
 */
module PlumBlossom {
  import opened Wrappers
  import opened Lines
  import opened Trigrams
  import opened Hexagrams
  import opened Resolution

  /**
   * `n % 8 || 8`: the remainder, with 0 read as 8. For positive `n`,
   * JavaScript's `%` agrees with Dafny's. The result is the one number in
   * 1..8 congruent to `n` modulo 8.
   */
  function TrigramKeyOf(n: int): (k: int)
    requires 1 <= n
    ensures 1 <= k <= 8
    ensures (n - k) % 8 == 0
  {
    if n % 8 == 0 then 8 else n % 8
  }

  /**
   * `(m % 6 || 6) - 1`: the remainder with 0 read as 6, less one. The
   * result is the one position in 0..5 that is `m - 1` modulo 6.
   */
  function MovingLineIndexOf(m: int): (i: int)
    requires 1 <= m
    ensures 0 <= i <= 5
    ensures (m - 1 - i) % 6 == 0
  {
    (if m % 6 == 0 then 6 else m % 6) - 1
  }

  /** The same reductions written as `((n - 1) mod 8) + 1` and `(m - 1) mod 6`. */
  lemma ReductionsAsShiftedRemainders(n: int, m: int)
    requires 1 <= n && 1 <= m
    ensures TrigramKeyOf(n) == (n - 1) % 8 + 1
    ensures MovingLineIndexOf(m) == (m - 1) % 6
  {
  }

  /** A zero remainder selects the last trigram or the top line, never 0. */
  lemma ZeroRemainderCases()
    ensures TrigramKeyOf(8) == 8 && TrigramKeyOf(9) == 1
    ensures TrigramKeyOf(16) == 8 && TrigramKeyOf(100) == 4
    ensures MovingLineIndexOf(6) == 5 && MovingLineIndexOf(7) == 0
    ensures MovingLineIndexOf(1) == 0 && MovingLineIndexOf(100) == 3
  {
  }

  /** `MaiHoaCalculation` (index.tsx:45-52), the numbers and what they select. */
  datatype MaiHoaCalculation = MaiHoaCalculation(
    upperNum: int,
    lowerNum: int,
    movingNum: int,
    upperTrigram: Trigram,
    lowerTrigram: Trigram,
    movingLineIndex: int)

  /** The calculation and the six line values it produces. */
  datatype PlumBlossomCast = PlumBlossomCast(calculation: MaiHoaCalculation, lines: seq<LineValue>)

  /**
   * The derivation in `CastingScreen`'s effect (index.tsx:390-410): the
   * lower trigram's lines then the upper trigram's, written 9/6 at the
   * moving position and 7/8 everywhere else. The cast has six lines, the
   * first three of the lower trigram and the last three of the upper, and
   * exactly one of them moves: the one at `movingLineIndex`.
   */
  function DerivePlumBlossom(upperNum: int, lowerNum: int, movingNum: int): (r: PlumBlossomCast)
    requires 1 <= upperNum <= 100 && 1 <= lowerNum <= 100 && 1 <= movingNum <= 100
    ensures r.calculation.upperNum == upperNum && r.calculation.lowerNum == lowerNum && r.calculation.movingNum == movingNum
    ensures r.calculation.upperTrigram == NumberToTrigramData((upperNum - 1) % 8 + 1).name
    ensures r.calculation.lowerTrigram == NumberToTrigramData((lowerNum - 1) % 8 + 1).name
    ensures r.calculation.movingLineIndex == (movingNum - 1) % 6
    ensures |r.lines| == 6
    ensures PrimaryLines(r.lines) == TrigramLines(r.calculation.lowerTrigram) + TrigramLines(r.calculation.upperTrigram)
    ensures forall i :: 0 <= i < 6 ==> (IsMovingLine(r.lines[i]) <==> i == r.calculation.movingLineIndex)
  {
    var upperTrigramKey := TrigramKeyOf(upperNum);
    var lowerTrigramKey := TrigramKeyOf(lowerNum);
    var movingLineIndex := MovingLineIndexOf(movingNum);
    ReductionsAsShiftedRemainders(upperNum, movingNum);
    ReductionsAsShiftedRemainders(lowerNum, movingNum);
    var calculation := MaiHoaCalculation(
      upperNum, lowerNum, movingNum,
      NumberToTrigramData(upperTrigramKey).name,
      NumberToTrigramData(lowerTrigramKey).name,
      movingLineIndex);
    var lowerLines := NumberToTrigramData(lowerTrigramKey).lines;
    var upperLines := NumberToTrigramData(upperTrigramKey).lines;
    var primaryHexagramLines := lowerLines + upperLines;
    var finalLines := seq(|primaryHexagramLines|, i requires 0 <= i < |primaryHexagramLines| =>
      LineValueOf(primaryHexagramLines[i], i == movingLineIndex));
    TrigramNumberingInjective(upperTrigramKey);
    TrigramNumberingInjective(lowerTrigramKey);
    assert PrimaryLines(finalLines) == primaryHexagramLines;
    PlumBlossomCast(calculation, finalLines)
  }

  /**
   * The values are 9 or 6 at the moving position, by the line's type, and 7
   * or 8 everywhere else.
   */
  lemma PlumBlossomLineValues(upperNum: int, lowerNum: int, movingNum: int, i: int)
    requires 1 <= upperNum <= 100 && 1 <= lowerNum <= 100 && 1 <= movingNum <= 100
    requires 0 <= i < 6
    ensures var r := DerivePlumBlossom(upperNum, lowerNum, movingNum);
      r.lines[i] == (if i == r.calculation.movingLineIndex then (if GetLineTypeFromValue(r.lines[i]) == Yang then 9 else 6)
                     else (if GetLineTypeFromValue(r.lines[i]) == Yang then 7 else 8))
  {
    var r := DerivePlumBlossom(upperNum, lowerNum, movingNum);
    ClassificationDeterminesValue(r.lines[i]);
  }

  /**
   * Resolving the six lines through `trigramMap` recovers the trigrams the
   * calculation names: the lower three lines give `calculation.lowerTrigram` and the
   * upper three `calculation.upperTrigram`.
   */
  lemma PlumBlossomTrigramsRecovered(upperNum: int, lowerNum: int, movingNum: int)
    requires 1 <= upperNum <= 100 && 1 <= lowerNum <= 100 && 1 <= movingNum <= 100
    ensures var r := DerivePlumBlossom(upperNum, lowerNum, movingNum);
      var lines := PrimaryLines(r.lines);
      LookupTrigram(TrigramKey(lines[0..3])) == Some(r.calculation.lowerTrigram) &&
      LookupTrigram(TrigramKey(lines[3..6])) == Some(r.calculation.upperTrigram)
  {
    var r := DerivePlumBlossom(upperNum, lowerNum, movingNum);
    var lines := PrimaryLines(r.lines);
    TrigramResolverOnto(r.calculation.lowerTrigram);
    TrigramResolverOnto(r.calculation.upperTrigram);
    assert lines[0..3] == TrigramLines(r.calculation.lowerTrigram);
    assert lines[3..6] == TrigramLines(r.calculation.upperTrigram);
  }

  /** The single moving line of a Plum-Blossom cast is the one derived from the third number. */
  lemma PlumBlossomMoving(upperNum: int, lowerNum: int, movingNum: int)
    requires 1 <= upperNum <= 100 && 1 <= lowerNum <= 100 && 1 <= movingNum <= 100
    ensures var r := DerivePlumBlossom(upperNum, lowerNum, movingNum);
      ProcessLines(r.lines).movingLinesIndices == [r.calculation.movingLineIndex]
  {
    var r := DerivePlumBlossom(upperNum, lowerNum, movingNum);
    AscendingDeterminedByMembers(MovingLinesIndices(r.lines), [r.calculation.movingLineIndex]);
  }

  /** The primary hexagram of a Plum-Blossom cast is the one stacked from the two derived trigrams. */
  lemma PlumBlossomPrimary(upperNum: int, lowerNum: int, movingNum: int)
    requires 1 <= upperNum <= 100 && 1 <= lowerNum <= 100 && 1 <= movingNum <= 100
    ensures var r := DerivePlumBlossom(upperNum, lowerNum, movingNum);
      ProcessLines(r.lines).primaryHexagram
        == Some(LookupHexagram(r.calculation.upperTrigram, r.calculation.lowerTrigram))
  {
    var r := DerivePlumBlossom(upperNum, lowerNum, movingNum);
    ProcessSixLinesPrimary(r.lines);
    var n := HexagramNumber(r.calculation.upperTrigram, r.calculation.lowerTrigram);
    HexagramTrigramsOfNumber(r.calculation.upperTrigram, r.calculation.lowerTrigram);
    GetHexagramFromLinesOnto(n);
    HexagramNamesAgree(r.calculation.upperTrigram, r.calculation.lowerTrigram);
    assert HexagramLines(n) == PrimaryLines(r.lines);
  }

  /** A Plum-Blossom cast always has a changed hexagram, and it differs from the primary one. */
  lemma PlumBlossomTransformed(upperNum: int, lowerNum: int, movingNum: int)
    requires 1 <= upperNum <= 100 && 1 <= lowerNum <= 100 && 1 <= movingNum <= 100
    ensures var p := ProcessLines(DerivePlumBlossom(upperNum, lowerNum, movingNum).lines);
      p.transformedHexagram.Some? && p.primaryHexagram.Some? &&
      p.transformedHexagram.value.number != p.primaryHexagram.value.number
  {
    var r := DerivePlumBlossom(upperNum, lowerNum, movingNum);
    assert IsMovingLine(r.lines[r.calculation.movingLineIndex]);
    ProcessSixLinesPrimary(r.lines);
    ProcessSixLinesTransformed(r.lines);
  }
}
