# I Ching divination engine, modelled in Dafny

This project models the divination engine of the kinhdichai app (`index.tsx`). The engine turns a cast of six line values into the hexagrams of a reading. It has five parts:

- **Line classification.** The codes 6, 7, 8 and 9 become yin or yang plus a moving flag (`getLineTypeFromValue`, `isMovingLine`).
- **Resolution of six yin/yang lines to one of the 64 hexagrams.**
  - The bottom three lines and the top three lines each become a 3-character key. The key is built bottom line first.
  - `trigramMap` turns each key into a trigram.
  - `fullHexagramMap` names the hexagram for the key `upper-lower`.
  - `hexagramLookup` finds the `HEXAGRAM_DATA` entry with that name.
- **Transformation.** `processLines` collects the indices of the moving lines and resolves the primary hexagram. When some line moves, it flips those lines and resolves the transformed hexagram.
- **The Plum-Blossom ("Mai Hoa") cast.** Three numbers in 1..100 select:
  - an upper trigram and a lower trigram, through `n % 8 || 8` and `numberToTrigramData`;
  - one moving line, through `(m % 6 || 6) - 1`.
  The six lines are then written as 9/6 at the moving line and 7/8 everywhere else.
- **The yarrow-stalk ("Cỏ Thi") cast.** Each interval tick turns one uniform draw in [0, 1) into a line value by thresholds. The tick pushes that value until six lines have accumulated, bottom line first.

Modules, one per part and following the order of the source:

- `Wrappers`: `Option` and `Result`.
- `Lines`: line classification.
- `Trigrams`: `trigramMap`, `numberToTrigramData` and the 3-line keys.
- `Hexagrams`:
  - `HEXAGRAM_DATA`;
  - `fullHexagramMap`;
  - the (upper, lower) to number bijection.
- `Resolution`:
  - `getHexagramFromLines`;
  - `processLines`;
  - the check `handleCastingComplete` makes before a reading is shown.
- `PlumBlossom`: the Plum-Blossom derivation.
- `Yarrow`: the yarrow-stalk tick, as a class with the source's two mutable variables, and a method that runs a whole cast.

Modelling decisions:

- **Trigram names.** Trigrams are an enumeration with English glosses. The comment in `trigrams.dfy` gives the Vietnamese name of each.
- **Resolution by number.** The source resolves a trigram pair to a name and then looks the name up in `hexagramLookup`. The model instead resolves the pair to a hexagram number with `HexagramNumber` and takes entry `HexagramEntry(number)`. `Hexagrams.HexagramNamesAgree` proves the two routes meet for every pair. The name `fullHexagramMap` gives that pair is the `vietnameseName` of that entry.
- **Tables transcribed as written.** The key is built bottom line first (index.tsx:114), while `trigramMap` reads like the traditional top-first drawing. For example, bottom-yang, yin, yin gives key `100`, which the map calls Cấn (Mountain). The model follows the code. `Trigrams.TrigramTablesAgree` proves that `trigramMap` and `numberToTrigramData` agree with each other under that reading, so every result below holds for the tables exactly as written.
- **`null` and `undefined`.** Both are `None`.
- **Random draws.** The source draws its inputs with `Math.random`. Here the Plum-Blossom numbers and the yarrow draws are parameters.

## Model

| member | source | states |
|---|---|---|
| Lines.GetLineTypeFromValue | index.tsx:109 | No contract of its own: `getLineTypeFromValue` as written. Its properties are ClassificationTable and ClassificationDeterminesValue. |
| Lines.IsMovingLine | index.tsx:110 | No contract of its own: `isMovingLine` as written. Its properties are ClassificationTable and ClassificationDeterminesValue. |
| Lines.ClassificationTable | index.tsx:109-110 | Values 7 and 9 are yang, 6 and 8 are yin, and a value is moving exactly when it is 6 or 9; each stated as an if-and-only-if. |
| Lines.ClassificationDeterminesValue | index.tsx:109-110 | Classification loses nothing: a value is recovered from its (type, moving) pair, so the four values match the four pairs one to one. |
| Lines.LineValueOf | index.tsx:406-408 | The 9/6/7/8 encoding the Plum-Blossom cast writes is the inverse of the classification: its value classifies back to the given type and moving flag. |
| Lines.Opposite | index.tsx:153-154 | The flip applied to a moving line always changes yin to yang or yang to yin. |
| Trigrams.TrigramKey | index.tsx:114-115 | No contract of its own: the key-building `map`/`join` as written. Its properties are TrigramKeyInjective and BottomFirstKeys. |
| Trigrams.LookupTrigram | index.tsx:54-57 | No contract of its own: lookup in `TRIGRAM_MAP`, `trigramMap` transcribed with its keys as written. Its properties are TrigramResolverTotal, TrigramResolverOnto, TrigramResolverInjective and TrigramTablesAgree. |
| Trigrams.NumberToTrigramData | index.tsx:59-68 | No contract of its own: `numberToTrigramData` transcribed. Its properties are TrigramTablesAgree, TrigramNumber and TrigramNumberingInjective. |
| Trigrams.TrigramKeyInjective | index.tsx:114-115 | Different line sequences get different keys, so building the key loses nothing. |
| Trigrams.BottomFirstKeys | index.tsx:54-57 | The key is built bottom line first. Yang below two yin lines gives "100", which `trigramMap` calls Cấn (Mountain). The reverse drawing gives "001", Chấn (Thunder). |
| Trigrams.TrigramTablesAgree | index.tsx:54-68 | For every k in 1..8, the lines of `numberToTrigramData[k]`, keyed through `trigramMap`, give back the name `numberToTrigramData[k]` carries. |
| Trigrams.TrigramNumber | index.tsx:59-68 | Every trigram occurs in `numberToTrigramData`, at a position in 1..8. |
| Trigrams.TrigramNumberingInjective | index.tsx:59-68 | `numberToTrigramData` names eight different trigrams: the position of entry k's name is k. |
| Trigrams.TrigramResolverTotal | index.tsx:54-57 | Every three-line sequence has a key in `trigramMap`, and the trigram it resolves to is drawn with exactly those lines. |
| Trigrams.TrigramResolverOnto | index.tsx:54-57 | Every trigram is reached: its own three lines resolve to it. |
| Trigrams.TrigramResolverInjective | index.tsx:54-57 | Different three-line sequences resolve to different trigrams. |
| Hexagrams.HexagramEntry | index.tsx:70-103 | `HEXAGRAM_DATA` is numbered by position: entry n carries number n. |
| Hexagrams.HexagramDataNumbered | index.tsx:70-103 | Element n-1 of the 64-element array is entry n and carries number n. |
| Hexagrams.FullHexagramName | index.tsx:120-139 | No contract of its own: `fullHexagramMap` transcribed, indexed by (upper, lower). Its property is HexagramNamesAgree. |
| Hexagrams.LookupHexagram | index.tsx:139-140 | No contract of its own: the hexagram a pair resolves to, taken by number. Its properties are HexagramNamesAgree and LookupHexagramDrawn. |
| Hexagrams.HexagramNumber | index.tsx:120-137 | Every (upper, lower) pair has a hexagram number in 1..64. |
| Hexagrams.HexagramNamesAgree | index.tsx:105-140 | For every pair, the name `fullHexagramMap` gives it is the `vietnameseName` of `HEXAGRAM_DATA` entry `HexagramNumber(upper, lower)`, and that hexagram is the one the lookup returns. |
| Hexagrams.LookupHexagramDrawn | index.tsx:112-140 | The hexagram a pair looks up is drawn with the lower trigram's lines below the upper trigram's. |
| Hexagrams.HexagramTrigrams | index.tsx:120-137 | Every number in 1..64 is the number of some pair, so the pair-to-number map is onto. |
| Hexagrams.HexagramTrigramsOfNumber | index.tsx:120-137 | Decomposing a pair's number gives the pair back. |
| Hexagrams.HexagramNumberInjective | index.tsx:120-137 | Different (upper, lower) pairs get different numbers, so the 64 pairs are in bijection with 1..64. |
| Resolution.GetHexagramFromLines | index.tsx:112-141 | A hexagram is found exactly when there are six lines. The one found is a `HEXAGRAM_DATA` entry numbered in 1..64 and drawn with exactly the given lines. |
| Resolution.GetHexagramFromLinesOnto | index.tsx:112-141 | Every hexagram is reached: its own six lines resolve to `HEXAGRAM_DATA` entry n. |
| Resolution.HexagramLinesInjective | index.tsx:112-141 | Different hexagrams are drawn differently. |
| Resolution.PureHexagrams | index.tsx:112-141 | Six yang lines resolve to the first entry (number 1) and six yin lines to the second (number 2). |
| Resolution.PrimaryLines | index.tsx:144 | No contract of its own: `lines.map(getLineTypeFromValue)`. Its properties are ProcessSixLinesPrimary and WorkedCastPrimaryLines. |
| Resolution.MarkMoving | index.tsx:145 | No contract of its own: the `map` to index or -1. Its property is MovingLinesIndices. |
| Resolution.DropUnmarked | index.tsx:145 | No contract of its own: the `filter` of the -1 marks. Its property is MovingLinesIndices. |
| Resolution.MovingLinesIndices | index.tsx:145 | The moving indices are strictly ascending and hold exactly the positions (so within 0..length-1) whose value is 6 or 9. |
| Resolution.TransformedLinesFlipMoving | index.tsx:151-156 | The transformed lines are the primary lines flipped at exactly the moving positions and unchanged elsewhere. |
| Resolution.TransformedLines | index.tsx:151-156 | No contract of its own: the flipping `map` as written. Its property is TransformedLinesFlipMoving. |
| Resolution.ProcessLines | index.tsx:143-161 | No contract of its own: `processLines` as written. Its properties are ProcessSixLines, ProcessSixLinesPrimary, ProcessSixLinesTransformedPresent, ProcessSixLinesTransformed and ProcessWrongLineCount. |
| Resolution.ProcessSixLines | index.tsx:143-161 | On six lines, the primary hexagram is the table entry drawn with the lines. The transformed hexagram is present exactly when some line moves, and it is then the table entry drawn with the moving lines flipped, with a different number. |
| Resolution.ProcessSixLinesPrimary | index.tsx:143-147 | On six lines, the primary hexagram exists, is a table entry and is drawn with the lines' yin/yang types. |
| Resolution.ProcessSixLinesTransformedPresent | index.tsx:148-158 | On six lines, the transformed hexagram is absent exactly when no line moves. |
| Resolution.ProcessSixLinesTransformed | index.tsx:148-158 | With a moving line, the transformed hexagram is drawn with the lines flipped at the moving positions, and its number differs from the primary hexagram's. |
| Resolution.ProcessWrongLineCount | index.tsx:112-113 | Anything but six lines gives neither a primary nor a transformed hexagram. |
| Resolution.CompleteCasting | index.tsx:611-627 | A reading is produced exactly for six lines and is an error otherwise. A reading keeps the lines and the moving indices. Its primary hexagram is the table entry drawn with the lines. It has a transformed hexagram exactly when some line moves; that hexagram is the table entry drawn with the moving lines flipped, and its number differs from the primary's. |
| Resolution.WorkedCastMoving | index.tsx:145 | The cast 9, 8, 7, 6, 8, 7 moves at positions 0 and 3. |
| Resolution.WorkedCastPrimaryLines | index.tsx:144 | That cast reads yang, yin, yang, yin, yin, yang. |
| Resolution.FlipZeroAndThree | index.tsx:151-156 | Flipping positions 0 and 3 of those lines gives yin, yin, yang, yang, yin, yang. |
| Resolution.WorkedCastTransformedLines | index.tsx:151-156 | The cast's transformed lines are the flipped lines above. |
| Resolution.ThunderOverFireResolves | index.tsx:112-141 | Yang, yin, yang, yin, yin, yang resolves to table entry 55. |
| Resolution.FireOverThunderResolves | index.tsx:112-141 | Yin, yin, yang, yang, yin, yang resolves to table entry 21. |
| Resolution.WorkedCastPrimary | index.tsx:143-147 | The cast's primary hexagram is table entry 55. |
| Resolution.WorkedCastTransformed | index.tsx:148-158 | The cast's transformed hexagram is table entry 21. |
| Resolution.WorkedCastEntries | index.tsx:70-103 | Those entries are number 55 "Lôi Hỏa Phong" and number 21 "Hỏa Lôi Phệ Hạp". |
| PlumBlossom.TrigramKeyOf | index.tsx:390-391 | `n % 8` with 0 read as 8 lies in 1..8 and is congruent to n modulo 8. |
| PlumBlossom.MovingLineIndexOf | index.tsx:392 | `m % 6` with 0 read as 6, less one, lies in 0..5 and is m - 1 modulo 6. |
| PlumBlossom.ReductionsAsShiftedRemainders | index.tsx:390-392 | The reductions equal `(n - 1) mod 8 + 1` and `(m - 1) mod 6`. |
| PlumBlossom.ZeroRemainderCases | index.tsx:390-392 | A zero remainder selects 8 or the top line, never 0: 8 gives 8, 9 gives 1, and 16 gives 8; 6 gives 5, 7 gives 0, and 1 gives 0. |
| PlumBlossom.DerivePlumBlossom | index.tsx:390-410 | The calculation keeps the three numbers and names `numberToTrigramData` at the reduced keys. The cast has six lines, the lower trigram's followed by the upper trigram's, and exactly one of them moves: the one at `movingLineIndex`. |
| PlumBlossom.PlumBlossomLineValues | index.tsx:406-410 | The moving line is 9 if yang and 6 if yin; every other line is 7 if yang and 8 if yin. |
| PlumBlossom.PlumBlossomTrigramsRecovered | index.tsx:394-404 | Resolving the lower and upper three lines through `trigramMap` gives back the calculation's lower and upper trigrams. |
| PlumBlossom.PlumBlossomMoving | index.tsx:392-410 | `processLines` finds exactly one moving index, `movingLineIndex`. |
| PlumBlossom.PlumBlossomPrimary | index.tsx:394-404 | The primary hexagram is the one looked up for the calculation's (upper, lower) pair. |
| PlumBlossom.PlumBlossomTransformed | index.tsx:406-410 | A transformed hexagram always exists and its number differs from the primary's. |
| Yarrow.YarrowLine | index.tsx:436-441 | A draw in [0, 1) yields the value whose band contains it. |
| Yarrow.YarrowBands | index.tsx:436-441 | A draw yields v exactly when it lies in v's band. The bands tile [0, 1) in the order 6, 8, 7, 9, with widths 1/8, 1/4, 1/2 and 1/8. |
| Yarrow.YarrowCasting.constructor | index.tsx:424-425 | A cast starts with no lines at index 0. |
| Yarrow.YarrowCasting.Tick | index.tsx:426-449 | Below six lines, a tick pushes the draw's value and advances the index without completing. At six, it completes with the accumulated lines and changes nothing. It keeps the index equal to the number of lines, at most 6. |
| Yarrow.CastYarrow | index.tsx:424-449 | Six draws give exactly six lines, line i being the value of draw i, so the first draw is the bottom line. |

## Left out

- React components, rendering, screens and the theme toggle: user interface only.
- The recomputation of the transformed lines in `ResultScreen` (index.tsx:488-492) and the modulo display in `PlumBlossomAnimation` (index.tsx:358-360): presentation copies of logic modelled here.
- `fetchAiInterpretation` (index.tsx:168-223): a network call into a foreign library.
- `localStorage` history and theme persistence: I/O.
- `setTimeout`/`setInterval` pacing and cleanup: timers and asynchronous scheduling. Only the per-tick accumulation is modelled.
- `Math.random`: its values are parameters. The claim that yarrow frequencies approach 1/8, 1/4, 1/2 and 1/8 is probabilistic and is not stated. Only the band widths are proved.
- Whether the `hanTu` glyphs and display names are correct against the traditional I Ching: only their role as lookup keys matters.
- Hexagrams.HexagramNamesAgree: `hexagramLookup` is a `Map` built from the names. It returns the entry carrying a name only if no later entry carries the same name. The model resolves by number and proves that this entry carries the name. It does not prove that the 64 names are pairwise distinct.
- Resolution.CompleteCasting: the `question` and `method` fields of `CastingResult` are not modelled. Neither are the state updates: on the error path, `setError` and the return to the home screen (index.tsx:615-616), which the model reduces to a `Failure`; after success, storing the reading and what follows (index.tsx:628 onwards).
- PlumBlossom.DerivePlumBlossom: JavaScript's `%` truncates toward zero and Dafny's is Euclidean. They agree here only because the numbers are at least 1.
- The name strings as lookup keys: trigram names are an enumeration rather than the source's strings. A trigram pair resolves to its hexagram by number instead of through the name-keyed `hexagramLookup` (see "Resolution by number"). `HexagramData` keeps `vietnameseName` as a string.
