/**
 * The two trigram tables: `trigramMap`, keyed by a string of '1' (yang) and
 * '0' (yin) built bottom line first (index.tsx:54-57), and
 * `numberToTrigramData`, the 1..8 numbering used by the Plum-Blossom
 * method (index.tsx:59-68).
 */
module Trigrams {
  import opened Wrappers
  import opened Lines

  /**
   * The eight trigrams, named by their usual English glosses:
   * Heaven = Càn, Water = Khảm, Mountain = Cấn, Thunder = Chấn,
   * Wind = Tốn, Fire = Ly, Earth = Khôn, Lake = Đoài.
   */
  datatype Trigram = Heaven | Water | Mountain | Thunder | Wind | Fire | Earth | Lake

  /** One character of a trigram key: `l === 'yang' ? '1' : '0'`. */
  function LineBit(t: LineType): char
  {
    if t == Yang then '1' else '0'
  }

  /** `lines.map(l => l === 'yang' ? '1' : '0').join('')` (index.tsx:114-115). */
  function TrigramKey(lines: seq<LineType>): string
  {
    seq(|lines|, i requires 0 <= i < |lines| => LineBit(lines[i]))
  }

  /** Unfolding helper: the key of a three-line sequence, character by character. */
  lemma KeyOfThree(lines: seq<LineType>)
    requires |lines| == 3
    ensures TrigramKey(lines) == [LineBit(lines[0]), LineBit(lines[1]), LineBit(lines[2])]
  {
  }

  /** `trigramMap`, transcribed with its keys exactly as written (index.tsx:54-57). */
  const TRIGRAM_MAP: map<string, Trigram> := map[
    "111" := Heaven, "010" := Water, "100" := Mountain, "001" := Thunder,
    "110" := Wind, "101" := Fire, "000" := Earth, "011" := Lake
  ]

  /** `trigramMap[key]`, which is `undefined` for a key the table lacks. */
  function LookupTrigram(key: string): Option<Trigram>
  {
    if key in TRIGRAM_MAP then Some(TRIGRAM_MAP[key]) else None
  }

  /** An entry of `numberToTrigramData`. */
  datatype TrigramData = TrigramData(name: Trigram, lines: seq<LineType>)

  /** `numberToTrigramData[k]`, transcribed (index.tsx:59-68). */
  function NumberToTrigramData(k: int): TrigramData
    requires 1 <= k <= 8
  {
    match k
    case 1 => TrigramData(Heaven, [Yang, Yang, Yang])
    case 2 => TrigramData(Lake, [Yin, Yang, Yang])
    case 3 => TrigramData(Fire, [Yang, Yin, Yang])
    case 4 => TrigramData(Thunder, [Yin, Yin, Yang])
    case 5 => TrigramData(Wind, [Yang, Yang, Yin])
    case 6 => TrigramData(Water, [Yin, Yang, Yin])
    case 7 => TrigramData(Mountain, [Yang, Yin, Yin])
    case 8 => TrigramData(Earth, [Yin, Yin, Yin])
  }

  /**
   * The two tables agree: the lines of `numberToTrigramData[k]`, keyed bottom
   * first through `trigramMap`, give back the name `numberToTrigramData[k]`
   * carries.
   */
  lemma TrigramTablesAgree(k: int)
    requires 1 <= k <= 8
    ensures |NumberToTrigramData(k).lines| == 3
    ensures LookupTrigram(TrigramKey(NumberToTrigramData(k).lines)) == Some(NumberToTrigramData(k).name)
  {
    KeyOfThree(NumberToTrigramData(k).lines);
  }

  /** The position of a trigram in `numberToTrigramData`: the table names every trigram once. */
  function TrigramNumber(t: Trigram): (k: int)
    ensures 1 <= k <= 8
    ensures NumberToTrigramData(k).name == t
  {
    match t
    case Heaven => 1
    case Lake => 2
    case Fire => 3
    case Thunder => 4
    case Wind => 5
    case Water => 6
    case Mountain => 7
    case Earth => 8
  }

  /** `numberToTrigramData` names eight different trigrams. */
  lemma TrigramNumberingInjective(k: int)
    requires 1 <= k <= 8
    ensures TrigramNumber(NumberToTrigramData(k).name) == k
  {
  }

  /** The three lines of a trigram, bottom first, as `numberToTrigramData` draws it. */
  function TrigramLines(t: Trigram): seq<LineType>
  {
    NumberToTrigramData(TrigramNumber(t)).lines
  }

  /**
   * The trigram resolver is total and loses nothing: every three-line
   * sequence has a key in `trigramMap`, and the trigram it resolves to is
   * drawn with exactly those lines.
   */
  lemma TrigramResolverTotal(lines: seq<LineType>)
    requires |lines| == 3
    ensures LookupTrigram(TrigramKey(lines)).Some?
    ensures TrigramLines(LookupTrigram(TrigramKey(lines)).value) == lines
  {
    KeyOfThree(lines);
    assert lines == [lines[0], lines[1], lines[2]];
  }

  /** Every trigram is reached: its own lines resolve to it. */
  lemma TrigramResolverOnto(t: Trigram)
    ensures |TrigramLines(t)| == 3
    ensures LookupTrigram(TrigramKey(TrigramLines(t))) == Some(t)
  {
    TrigramTablesAgree(TrigramNumber(t));
  }

  /** Different line sequences get different keys: the key loses nothing. */
  lemma {:induction false} TrigramKeyInjective(a: seq<LineType>, b: seq<LineType>)
    requires TrigramKey(a) == TrigramKey(b)
    ensures a == b
  {
    assert |a| == |TrigramKey(a)| == |b|;
    forall i | 0 <= i < |a|
      ensures a[i] == b[i]
    {
      assert TrigramKey(a)[i] == LineBit(a[i]);
      assert TrigramKey(b)[i] == LineBit(b[i]);
    }
  }

  /**
   * The key is built bottom line first: yang at the bottom under two yin
   * lines keys as "100", which `trigramMap` calls Cấn (Mountain), and the
   * reverse drawing keys as "001", Chấn (Thunder).
   */
  lemma BottomFirstKeys()
    ensures TrigramKey([Yang, Yin, Yin]) == "100" && LookupTrigram("100") == Some(Mountain)
    ensures TrigramKey([Yin, Yin, Yang]) == "001" && LookupTrigram("001") == Some(Thunder)
  {
    KeyOfThree([Yang, Yin, Yin]);
    KeyOfThree([Yin, Yin, Yang]);
  }

  /** Different three-line sequences resolve to different trigrams. */
  lemma TrigramResolverInjective(a: seq<LineType>, b: seq<LineType>)
    requires |a| == 3 && |b| == 3
    requires LookupTrigram(TrigramKey(a)) == LookupTrigram(TrigramKey(b))
    ensures a == b
  {
    TrigramResolverTotal(a);
    TrigramResolverTotal(b);
  }
}
