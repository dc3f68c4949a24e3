/**
 * Line values as the casting screens produce them (6, 7, 8, 9) and their
 * classification into a yin/yang line type and a moving flag
 * (index.tsx:9-10, 109-110).
 */
module Lines {

  /** A line's state, `'yang' | 'yin'` in the source. */
  datatype LineType = Yang | Yin

  /**
   * A cast line: 6 old yin (moving), 7 young yang, 8 young yin, 9 old yang
   * (moving). The source's type is the literal union `6 | 7 | 8 | 9`.
   */
  type LineValue = v: int | 6 <= v <= 9 witness 7

  /** `getLineTypeFromValue`: 7 and 9 are yang, everything else yin. */
  function GetLineTypeFromValue(value: LineValue): LineType
  {
    if value == 7 || value == 9 then Yang else Yin
  }

  /** `isMovingLine`: only the "old" values 6 and 9 move. */
  predicate IsMovingLine(value: LineValue)
  {
    value == 6 || value == 9
  }

  /** The yin/yang flip applied to a moving line. */
  function Opposite(t: LineType): (r: LineType)
    ensures r != t
  {
    if t == Yang then Yin else Yang
  }

  /**
   * The inverse of the classification: the value that carries a line type
   * and a moving flag. Moving lines are 9 (yang) or 6 (yin), stable lines
   * 7 (yang) or 8 (yin); this is the encoding the Plum-Blossom method
   * writes out (index.tsx:406-408).
   */
  function LineValueOf(t: LineType, moving: bool): (v: LineValue)
    ensures GetLineTypeFromValue(v) == t
    ensures IsMovingLine(v) == moving
  {
    match (t, moving)
    case (Yang, true) => 9
    case (Yin, true) => 6
    case (Yang, false) => 7
    case (Yin, false) => 8
  }

  /**
   * The classification loses nothing: a line value is determined by its
   * line type and its moving flag, so the four values correspond one to
   * one with the four (type, moving) pairs.
   */
  lemma ClassificationDeterminesValue(v: LineValue)
    ensures LineValueOf(GetLineTypeFromValue(v), IsMovingLine(v)) == v
  {
  }

  /** Yang exactly for 7 and 9, yin exactly for 6 and 8; moving exactly for 6 and 9. */
  lemma ClassificationTable(v: LineValue)
    ensures GetLineTypeFromValue(v) == Yang <==> v == 7 || v == 9
    ensures GetLineTypeFromValue(v) == Yin <==> v == 6 || v == 8
    ensures IsMovingLine(v) <==> v == 6 || v == 9
  {
  }
}
