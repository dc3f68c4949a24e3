/**
 * Resolving cast lines to hexagrams: `getHexagramFromLines`
 * (index.tsx:112-141), `processLines` (index.tsx:143-161) and the check
 * the app makes on its result before showing a reading (index.tsx:611-627).
 */
module Resolution {
  import opened Wrappers
  import opened Lines
  import opened Trigrams
  import opened Hexagrams

  /**
   * `getHexagramFromLines`: `undefined` unless there are exactly six lines;
   * otherwise the bottom three and the top three lines are keyed through
   * `trigramMap` and the (upper, lower) pair is looked up. The hexagram
   * found is drawn with exactly the given lines, so a six-line input always
   * resolves and different inputs resolve to different hexagrams.
   */
  function GetHexagramFromLines(lines: seq<LineType>): (r: Option<HexagramData>)
    ensures r.Some? <==> |lines| == 6
    ensures r.Some? ==> 1 <= r.value.number <= 64 && HexagramLines(r.value.number) == lines
    ensures r.Some? ==> r.value == HexagramEntry(r.value.number)
  {
    if |lines| != 6 then None
    else
      var lowerTrigram := LookupTrigram(TrigramKey(lines[0..3]));
      var upperTrigram := LookupTrigram(TrigramKey(lines[3..6]));
      TrigramResolverTotal(lines[0..3]);
      TrigramResolverTotal(lines[3..6]);
      if lowerTrigram.None? || upperTrigram.None? then None
      else
        var h := LookupHexagram(upperTrigram.value, lowerTrigram.value);
        LookupHexagramDrawn(upperTrigram.value, lowerTrigram.value);
        assert lines == lines[0..3] + lines[3..6];
        Some(h)
  }

  /** Every hexagram is reached: its own six lines resolve to it. */
  lemma GetHexagramFromLinesOnto(n: int)
    requires 1 <= n <= 64
    ensures GetHexagramFromLines(HexagramLines(n)).Some?
    ensures GetHexagramFromLines(HexagramLines(n)).value == HEXAGRAM_DATA[n - 1]
  {
    var (upper, lower) := HexagramTrigrams(n);
    var lines := HexagramLines(n);
    TrigramResolverOnto(lower);
    TrigramResolverOnto(upper);
    assert lines[0..3] == TrigramLines(lower);
    assert lines[3..6] == TrigramLines(upper);
    HexagramDataNumbered(n);
  }

  /** Different hexagrams are drawn differently: the drawing determines the number. */
  lemma HexagramLinesInjective(n: int, m: int)
    requires 1 <= n <= 64 && 1 <= m <= 64
    requires HexagramLines(n) == HexagramLines(m)
    ensures n == m
  {
    GetHexagramFromLinesOnto(n);
    GetHexagramFromLinesOnto(m);
    HexagramDataNumbered(n);
    HexagramDataNumbered(m);
  }

  /** Six yang lines give "Thuần Càn", number 1; six yin lines give "Thuần Khôn", number 2. */
  lemma PureHexagrams()
    ensures GetHexagramFromLines([Yang, Yang, Yang, Yang, Yang, Yang]) == Some(HEXAGRAM_DATA[0])
    ensures HEXAGRAM_DATA[0].number == 1
    ensures GetHexagramFromLines([Yin, Yin, Yin, Yin, Yin, Yin]) == Some(HEXAGRAM_DATA[1])
    ensures HEXAGRAM_DATA[1].number == 2
  {
    PureYangResolves();
    PureYinResolves();
  }

  /** Proof split for `PureHexagrams`: six yang lines. */
  lemma PureYangResolves()
    ensures GetHexagramFromLines([Yang, Yang, Yang, Yang, Yang, Yang]) == Some(HEXAGRAM_DATA[0])
    ensures HEXAGRAM_DATA[0].number == 1
  {
    assert HexagramLines(1) == [Yang, Yang, Yang, Yang, Yang, Yang];
    GetHexagramFromLinesOnto(1);
  }

  /** Proof split for `PureHexagrams`: six yin lines. */
  lemma PureYinResolves()
    ensures GetHexagramFromLines([Yin, Yin, Yin, Yin, Yin, Yin]) == Some(HEXAGRAM_DATA[1])
    ensures HEXAGRAM_DATA[1].number == 2
  {
    assert HexagramLines(2) == [Yin, Yin, Yin, Yin, Yin, Yin];
    GetHexagramFromLinesOnto(2);
  }

  /** `lines.map(getLineTypeFromValue)`. */
  function PrimaryLines(lines: seq<LineValue>): (r: seq<LineType>)
  {
    seq(|lines|, i requires 0 <= i < |lines| => GetLineTypeFromValue(lines[i]))
  }

  /** `lines.map((l, i) => isMovingLine(l) ? i : -1)`. */
  function MarkMoving(lines: seq<LineValue>): seq<int>
  {
    seq(|lines|, i requires 0 <= i < |lines| => if IsMovingLine(lines[i]) then i else -1)
  }

  /** `.filter(i => i !== -1)`. */
  function DropUnmarked(marks: seq<int>): seq<int>
  {
    if marks == [] then []
    else (if marks[0] != -1 then [marks[0]] else []) + DropUnmarked(marks[1..])
  }

  predicate StrictlyAscending(s: seq<int>)
  {
    forall i, j :: 0 <= i < j < |s| ==> s[i] < s[j]
  }

  /** A strictly ascending sequence is determined by the values it holds. */
  lemma {:induction false} AscendingDeterminedByMembers(s: seq<int>, t: seq<int>)
    requires StrictlyAscending(s) && StrictlyAscending(t)
    requires forall x :: x in s <==> x in t
    ensures s == t
  {
    if s != [] {
      assert s[0] in s;
    }
    if t != [] {
      assert t[0] in t;
    }
    if s != [] && t != [] {
      assert s[0] == t[0] by {
        var j :| 0 <= j < |t| && t[j] == s[0];
        var i :| 0 <= i < |s| && s[i] == t[0];
        assert t[0] <= t[j] && s[0] <= s[i];
      }
      TailsShareMembers(s, t);
      TailsShareMembers(t, s);
      AscendingDeterminedByMembers(s[1..], t[1..]);
      assert s == [s[0]] + s[1..];
      assert t == [t[0]] + t[1..];
    }
  }

  /** Proof split for `AscendingDeterminedByMembers`: with equal heads, the tails share their members. */
  lemma TailsShareMembers(s: seq<int>, t: seq<int>)
    requires StrictlyAscending(s) && StrictlyAscending(t)
    requires forall x :: x in s <==> x in t
    requires s != [] && t != [] && s[0] == t[0]
    ensures forall x :: x in s[1..] ==> x in t[1..]
  {
    forall x | x in s[1..]
      ensures x in t[1..]
    {
      var i :| 1 <= i < |s| && s[i] == x;
      assert x in s;
      var j :| 0 <= j < |t| && t[j] == x;
      assert j != 0;
      assert t[1..][j - 1] == x;
    }
  }

  /** Marks holding -1 or `base + i` at position `i`: the shape `MarkMoving` produces. */
  predicate MarkedFrom(marks: seq<int>, base: int)
  {
    forall i :: 0 <= i < |marks| ==> marks[i] == -1 || marks[i] == base + i
  }

  /** Filtering such marks keeps only values in `base .. base + |marks| - 1`. */
  lemma {:induction false} DropUnmarkedBounds(marks: seq<int>, base: int)
    requires MarkedFrom(marks, base)
    ensures forall x :: x in DropUnmarked(marks) ==> base <= x < base + |marks|
  {
    if marks != [] {
      assert MarkedFrom(marks[1..], base + 1) by {
        forall i | 0 <= i < |marks[1..]| ensures marks[1..][i] == -1 || marks[1..][i] == base + 1 + i {
          assert marks[1..][i] == marks[i + 1];
        }
      }
      DropUnmarkedBounds(marks[1..], base + 1);
    }
  }

  /** Filtering such marks keeps them in strictly ascending order. */
  lemma {:induction false} DropUnmarkedAscending(marks: seq<int>, base: int)
    requires MarkedFrom(marks, base)
    ensures StrictlyAscending(DropUnmarked(marks))
  {
    if marks != [] {
      var rest := marks[1..];
      assert MarkedFrom(rest, base + 1) by {
        forall i | 0 <= i < |rest| ensures rest[i] == -1 || rest[i] == base + 1 + i {
          assert rest[i] == marks[i + 1];
        }
      }
      DropUnmarkedAscending(rest, base + 1);
      DropUnmarkedBounds(rest, base + 1);
      var head := if marks[0] != -1 then [marks[0]] else [];
      var tail := DropUnmarked(rest);
      assert DropUnmarked(marks) == head + tail;
      forall i, j | 0 <= i < j < |head + tail|
        ensures (head + tail)[i] < (head + tail)[j]
      {
        if |head| == 1 && i == 0 {
          assert (head + tail)[j] in tail;
        }
      }
    }
  }

  /** Filtering such marks keeps `base + i` exactly when position `i` is marked. */
  lemma {:induction false} DropUnmarkedMembers(marks: seq<int>, base: int)
    requires MarkedFrom(marks, base)
    ensures forall i :: 0 <= i < |marks| ==> (base + i in DropUnmarked(marks) <==> marks[i] != -1)
  {
    if marks != [] {
      var rest := marks[1..];
      assert MarkedFrom(rest, base + 1) by {
        forall i | 0 <= i < |rest| ensures rest[i] == -1 || rest[i] == base + 1 + i {
          assert rest[i] == marks[i + 1];
        }
      }
      DropUnmarkedMembers(rest, base + 1);
      DropUnmarkedBounds(rest, base + 1);
      var head := if marks[0] != -1 then [marks[0]] else [];
      assert DropUnmarked(marks) == head + DropUnmarked(rest);
      forall i | 0 <= i < |marks|
        ensures base + i in DropUnmarked(marks) <==> marks[i] != -1
      {
        if i > 0 {
          assert rest[i - 1] == marks[i];
        }
      }
    }
  }

  /**
   * `movingLinesIndices`: strictly ascending, and holding exactly the
   * positions whose value is 6 or 9.
   */
  function MovingLinesIndices(lines: seq<LineValue>): (r: seq<int>)
    ensures StrictlyAscending(r)
    ensures forall k :: k in r <==> 0 <= k < |lines| && IsMovingLine(lines[k])
  {
    MovingPositionsKept(lines);
    DropUnmarked(MarkMoving(lines))
  }

  lemma MovingPositionsKept(lines: seq<LineValue>)
    ensures StrictlyAscending(DropUnmarked(MarkMoving(lines)))
    ensures forall k :: k in DropUnmarked(MarkMoving(lines)) <==> 0 <= k < |lines| && IsMovingLine(lines[k])
  {
    var marks := MarkMoving(lines);
    DropUnmarkedBounds(marks, 0);
    DropUnmarkedAscending(marks, 0);
    DropUnmarkedMembers(marks, 0);
    forall k
      ensures k in DropUnmarked(marks) <==> 0 <= k < |lines| && IsMovingLine(lines[k])
    {
      if 0 <= k < |lines| {
        assert marks[k] != -1 <==> IsMovingLine(lines[k]);
        assert 0 + k in DropUnmarked(marks) <==> marks[k] != -1;
      } else {
        assert k !in DropUnmarked(marks);
      }
    }
  }

  /**
   * `primaryLines.map((type, i) => movingLinesIndices.includes(i) ? flipped : type)`
   * (index.tsx:151-156).
   */
  function TransformedLines(primaryLines: seq<LineType>, movingLinesIndices: seq<int>): seq<LineType>
  {
    seq(|primaryLines|, i requires 0 <= i < |primaryLines| =>
      if i in movingLinesIndices then Opposite(primaryLines[i]) else primaryLines[i])
  }

  /** The object `processLines` returns; `null` and `undefined` are both `None`. */
  datatype ProcessedLines = ProcessedLines(
    primaryHexagram: Option<HexagramData>,
    transformedHexagram: Option<HexagramData>,
    movingLinesIndices: seq<int>)

  /** `processLines` (index.tsx:143-161). */
  function ProcessLines(lines: seq<LineValue>): ProcessedLines
  {
    var primaryLines := PrimaryLines(lines);
    var movingLinesIndices := MovingLinesIndices(lines);
    var primaryHexagram := GetHexagramFromLines(primaryLines);
    var transformedHexagram :=
      if |movingLinesIndices| > 0 then GetHexagramFromLines(TransformedLines(primaryLines, movingLinesIndices))
      else None;
    ProcessedLines(primaryHexagram, transformedHexagram, movingLinesIndices)
  }

  /**
   * `h` is a table entry drawn with the six `lines` flipped at their moving
   * positions and unchanged elsewhere.
   */
  predicate DrawnFlipped(lines: seq<LineValue>, h: HexagramData)
    requires |lines| == 6
  {
    1 <= h.number <= 64 && h == HexagramEntry(h.number) &&
    forall i :: 0 <= i < 6 ==>
      HexagramLines(h.number)[i] ==
        (if IsMovingLine(lines[i]) then Opposite(GetLineTypeFromValue(lines[i])) else GetLineTypeFromValue(lines[i]))
  }

  /** Unfolding helper: with a moving line, the transformed hexagram is that of the transformed lines. */
  lemma ProcessLinesTransformedIs(lines: seq<LineValue>)
    requires |MovingLinesIndices(lines)| > 0
    ensures ProcessLines(lines).transformedHexagram ==
      GetHexagramFromLines(TransformedLines(PrimaryLines(lines), MovingLinesIndices(lines)))
  {
  }

  /** Some line of the cast is a 6 or a 9. */
  predicate HasMovingLine(lines: seq<LineValue>)
  {
    exists i :: 0 <= i < |lines| && IsMovingLine(lines[i])
  }

  /**
   * The transformed lines are the primary lines flipped at exactly the
   * moving positions; every other position is unchanged.
   */
  lemma TransformedLinesFlipMoving(lines: seq<LineValue>)
    ensures |TransformedLines(PrimaryLines(lines), MovingLinesIndices(lines))| == |lines|
    ensures forall i :: 0 <= i < |lines| ==>
      TransformedLines(PrimaryLines(lines), MovingLinesIndices(lines))[i] ==
        (if IsMovingLine(lines[i]) then Opposite(GetLineTypeFromValue(lines[i])) else GetLineTypeFromValue(lines[i]))
  {
  }

  /** `processLines` on six lines: the primary hexagram is drawn with the lines' yin/yang types. */
  lemma ProcessSixLinesPrimary(lines: seq<LineValue>)
    requires |lines| == 6
    ensures ProcessLines(lines).primaryHexagram.Some?
    ensures HexagramLines(ProcessLines(lines).primaryHexagram.value.number) == PrimaryLines(lines)
    ensures ProcessLines(lines).primaryHexagram.value == HexagramEntry(ProcessLines(lines).primaryHexagram.value.number)
  {
    assert ProcessLines(lines).primaryHexagram == GetHexagramFromLines(PrimaryLines(lines));
  }

  /** `processLines` on six lines: the transformed hexagram is absent exactly when no line moves. */
  lemma ProcessSixLinesTransformedPresent(lines: seq<LineValue>)
    requires |lines| == 6
    ensures ProcessLines(lines).transformedHexagram.Some? <==> HasMovingLine(lines)
  {
    var moving := MovingLinesIndices(lines);
    if HasMovingLine(lines) {
      var k :| 0 <= k < |lines| && IsMovingLine(lines[k]);
      assert k in moving;
    }
    if |moving| > 0 {
      assert moving[0] in moving;
    }
  }

  /**
   * `processLines` on six lines with a moving line: the transformed
   * hexagram is drawn with the primary lines flipped at exactly the moving
   * positions, and its number differs from the primary's.
   */
  lemma ProcessSixLinesTransformed(lines: seq<LineValue>)
    requires |lines| == 6
    requires HasMovingLine(lines)
    ensures ProcessLines(lines).transformedHexagram.Some?
    ensures forall i :: 0 <= i < 6 ==>
      HexagramLines(ProcessLines(lines).transformedHexagram.value.number)[i] ==
        (if IsMovingLine(lines[i]) then Opposite(GetLineTypeFromValue(lines[i])) else GetLineTypeFromValue(lines[i]))
    ensures ProcessLines(lines).transformedHexagram.value.number != ProcessLines(lines).primaryHexagram.value.number
    ensures ProcessLines(lines).transformedHexagram.value == HexagramEntry(ProcessLines(lines).transformedHexagram.value.number)
    ensures DrawnFlipped(lines, ProcessLines(lines).transformedHexagram.value)
  {
    var primaryLines := PrimaryLines(lines);
    var moving := MovingLinesIndices(lines);
    var transformed := TransformedLines(primaryLines, moving);
    TransformedLinesFlipMoving(lines);
    ProcessSixLinesTransformedPresent(lines);
    ProcessSixLinesPrimary(lines);
    var r := ProcessLines(lines);
    assert r.transformedHexagram == GetHexagramFromLines(transformed);
    var k :| 0 <= k < |lines| && IsMovingLine(lines[k]);
    assert transformed[k] != primaryLines[k];
  }

  /** `processLines` on six lines, its primary and transformed hexagrams together. */
  lemma ProcessSixLines(lines: seq<LineValue>)
    requires |lines| == 6
    ensures ProcessLines(lines).primaryHexagram.Some?
    ensures HexagramLines(ProcessLines(lines).primaryHexagram.value.number) == PrimaryLines(lines)
    ensures ProcessLines(lines).primaryHexagram.value == HexagramEntry(ProcessLines(lines).primaryHexagram.value.number)
    ensures ProcessLines(lines).transformedHexagram.Some? <==> HasMovingLine(lines)
    ensures ProcessLines(lines).transformedHexagram.Some? ==>
      DrawnFlipped(lines, ProcessLines(lines).transformedHexagram.value) &&
      ProcessLines(lines).transformedHexagram.value.number != ProcessLines(lines).primaryHexagram.value.number
  {
    ProcessSixLinesPrimary(lines);
    ProcessSixLinesTransformedPresent(lines);
    if HasMovingLine(lines) {
      ProcessSixLinesTransformed(lines);
    }
  }

  /** Anything but six lines gives neither a primary nor a transformed hexagram. */
  lemma ProcessWrongLineCount(lines: seq<LineValue>)
    requires |lines| != 6
    ensures ProcessLines(lines).primaryHexagram.None?
    ensures ProcessLines(lines).transformedHexagram.None?
  {
  }

  /** A completed reading: the cast lines and what `processLines` found for them. */
  datatype CastingResult = CastingResult(
    lines: seq<LineValue>,
    primaryHexagram: HexagramData,
    transformedHexagram: Option<HexagramData>,
    movingLinesIndices: seq<int>)

  /** The one error a cast can end in: no primary hexagram (index.tsx:614-617). */
  datatype CastingError = InvalidLineCount

  /**
   * `handleCastingComplete` up to the point where the reading is shown
   * (index.tsx:611-627): an error unless the lines resolve to a primary
   * hexagram, which happens exactly for six lines.
   */
  function CompleteCasting(lines: seq<LineValue>): (r: Result<CastingResult, CastingError>)
    ensures r.Success? <==> |lines| == 6
    ensures r.Success? ==> r.value.lines == lines
    ensures r.Success? ==>
      1 <= r.value.primaryHexagram.number <= 64 &&
      HexagramLines(r.value.primaryHexagram.number) == PrimaryLines(lines)
    ensures r.Success? ==> r.value.primaryHexagram == HexagramEntry(r.value.primaryHexagram.number)
    ensures r.Success? ==> (r.value.transformedHexagram.Some? <==> HasMovingLine(lines))
    ensures r.Success? && r.value.transformedHexagram.Some? ==>
      DrawnFlipped(lines, r.value.transformedHexagram.value) &&
      r.value.transformedHexagram.value.number != r.value.primaryHexagram.number
    ensures r.Success? ==> r.value.movingLinesIndices == MovingLinesIndices(lines)
  {
    var processed := ProcessLines(lines);
    if processed.primaryHexagram.None? then Failure(InvalidLineCount)
    else
      ProcessSixLines(lines);
      Success(CastingResult(lines, processed.primaryHexagram.value, processed.transformedHexagram,
                            processed.movingLinesIndices))
  }

  /** A worked cast, bottom line first. */
  const WORKED_CAST: seq<LineValue> := [9, 8, 7, 6, 8, 7]

  /** The worked cast 9, 8, 7, 6, 8, 7 moves at positions 0 and 3. */
  lemma WorkedCastMoving()
    ensures MovingLinesIndices(WORKED_CAST) == [0, 3]
  {
    assert MarkMoving(WORKED_CAST) == [0, -1, -1, 3, -1, -1];
    assert DropUnmarked([0, -1, -1, 3, -1, -1]) == [0, 3];
  }

  /** The worked cast read as yin and yang, bottom first: Fire below Thunder. */
  lemma WorkedCastPrimaryLines()
    ensures PrimaryLines(WORKED_CAST) == [Yang, Yin, Yang, Yin, Yin, Yang]
  {
  }

  /** Flipping lines 0 and 3 of Fire below Thunder gives Thunder below Fire. */
  lemma FlipZeroAndThree()
    ensures TransformedLines([Yang, Yin, Yang, Yin, Yin, Yang], [0, 3]) == [Yin, Yin, Yang, Yang, Yin, Yang]
  {
    assert 0 in [0, 3] && 3 in [0, 3] && 1 !in [0, 3] && 2 !in [0, 3] && 4 !in [0, 3] && 5 !in [0, 3];
  }

  /** The worked cast's transformed lines, bottom first. */
  lemma WorkedCastTransformedLines()
    ensures TransformedLines(PrimaryLines(WORKED_CAST), MovingLinesIndices(WORKED_CAST))
      == [Yin, Yin, Yang, Yang, Yin, Yang]
  {
    WorkedCastMoving();
    WorkedCastPrimaryLines();
    FlipZeroAndThree();
  }

  /** Six lines Yang, Yin, Yang, Yin, Yin, Yang resolve to entry 55 of the table. */
  lemma ThunderOverFireResolves()
    ensures GetHexagramFromLines([Yang, Yin, Yang, Yin, Yin, Yang]) == Some(HEXAGRAM_DATA[54])
  {
    assert HexagramLines(55) == [Yang, Yin, Yang, Yin, Yin, Yang];
    GetHexagramFromLinesOnto(55);
  }

  /** Six lines Yin, Yin, Yang, Yang, Yin, Yang resolve to entry 21 of the table. */
  lemma FireOverThunderResolves()
    ensures GetHexagramFromLines([Yin, Yin, Yang, Yang, Yin, Yang]) == Some(HEXAGRAM_DATA[20])
  {
    assert HexagramLines(21) == [Yin, Yin, Yang, Yang, Yin, Yang];
    GetHexagramFromLinesOnto(21);
  }

  /** The worked cast's primary hexagram is Thunder over Fire, number 55. */
  lemma WorkedCastPrimary()
    ensures ProcessLines(WORKED_CAST).primaryHexagram == Some(HEXAGRAM_DATA[54])
  {
    WorkedCastPrimaryLines();
    ThunderOverFireResolves();
  }

  /**
   * The worked cast's transformed hexagram flips positions 0 and 3: Fire
   * over Thunder, number 21.
   */
  lemma WorkedCastTransformed()
    ensures ProcessLines(WORKED_CAST).transformedHexagram == Some(HEXAGRAM_DATA[20])
  {
    WorkedCastMoving();
    ProcessLinesTransformedIs(WORKED_CAST);
    WorkedCastTransformedLines();
    FireOverThunderResolves();
  }

  /** The two table entries the worked cast lands on: 55 "Lôi Hỏa Phong" and 21 "Hỏa Lôi Phệ Hạp". */
  lemma WorkedCastEntries()
    ensures HEXAGRAM_DATA[54].number == 55 && HEXAGRAM_DATA[54].vietnameseName == "Lôi Hỏa Phong"
    ensures HEXAGRAM_DATA[20].number == 21 && HEXAGRAM_DATA[20].vietnameseName == "Hỏa Lôi Phệ Hạp"
  {
    HexagramDataNumbered(55);
    HexagramDataNumbered(21);
  }
}
