# Plate candidate selection and similarity scoring, in Dafny

This project models the decision logic of a parking-zone service that reads
licence plates from photographs (`app/uteis.py`). There are three parts:

- **Plate-text cleaning and check** (`PlateText`, `plate_text.dfy`). An OCR
  fragment is cleaned by removing `-` and spaces, upper-casing it and stripping
  surrounding whitespace. `only_letters_numbers` then asks whether the cleaned
  text matches `[A-Z0-9]+`.
- **Candidate selection** (`PlateSelector`, `plate_selector.dfy`). This is the
  loop of `get_plate_info` over the OCR detections of one image.
  `GetPlateInfo` is that loop as an imperative method. It is proved equal to
  `SelectPlate`, a recursive functional statement of what the loop returns, and the
  lemmas state that function's properties. The loop is modelled exactly as
  written, with its inverted class test and its early return.
  `SelectPlateIntended` is the evidently intended variant and stands beside it
  (see Findings).
- **Confusion-aware similarity** (`PlateScorer`, `plate_scorer.dfy`). This is
  `distancia_ponderada`. `DistanciaPonderada` is the 7-step loop with its
  running cost, streak flag and list of details. It is proved against
  `Judge`, which says how one position is scored, and `Cost`, the recursive
  sum of the per-position points. Its guard paths are stated exactly, and the
  lemmas give the bounds, the perfect-score characterisation and the
  properties of the confusion table.

The loop keeps only texts that are not purely letters and digits, and it
returns early while nothing has been recorded. `GetPlateInfo` models it as
written. The selection that was evidently intended is `SelectPlateIntended`
(see Findings).

## Model

| member | source | states |
|---|---|---|
| PlateText.IsSpace | app/uteis.py:15 | defines the whitespace `strip()` removes: space, tab, line feed, vertical tab, form feed, carriage return and the separators 0x1C-0x1F |
| PlateText.IsAlpha | app/uteis.py:122 | defines `isalpha()` on ASCII: the letters a-z and A-Z |
| PlateText.UpperChar | app/uteis.py:15 | upper-casing maps each lower-case ASCII letter to its upper-case counterpart (code point minus 32), leaves every other character unchanged, and gives an upper-case letter exactly for letters |
| PlateText.Without | app/uteis.py:15 | `replace(c, "")`: a character is in the result iff it is in the input and differs from c; the result is never longer, and text without c is returned unchanged |
| PlateText.WithoutMultiset | app/uteis.py:15 | `replace(c, "")` keeps every other character exactly as many times as it occurs and removes every c |
| PlateText.WithoutAppend | app/uteis.py:15 | `replace(c, "")` works piece by piece, `Without(a + b) == Without(a) + Without(b)`, so the kept characters stay in their original order |
| PlateText.Upper | app/uteis.py:15 | defines `upper()`: UpperChar at every position, length unchanged |
| PlateText.StripStart | app/uteis.py:15 | the part `strip()` removes at the front is all whitespace, and the kept text starts with a non-space |
| PlateText.StripEnd | app/uteis.py:15 | the part `strip()` removes at the back is all whitespace, and the kept text ends with a non-space |
| PlateText.Strip | app/uteis.py:15 | defines `strip()`: the text between StripStart and StripEnd, or empty text when it is all whitespace |
| PlateText.Normalize | app/uteis.py:15 | defines the cleaning step in the source's order: remove `-`, remove spaces, upper-case, strip |
| PlateText.MatchesPlatePattern | app/uteis.py:16 | defines `re.fullmatch(r'[A-Z0-9]+', s)`: s is non-empty and every character is A-Z or 0-9 |
| PlateText.OnlyLettersNumbers | app/uteis.py:11-16 | defines only_letters_numbers: the cleaned text matches [A-Z0-9]+; the lemmas below state what it accepts and rejects |
| PlateText.NormalizeIsNormalised | app/uteis.py:15 | cleaned text has no `-`, no space, no lower-case letter and no surrounding whitespace |
| PlateText.NormalizeFixpoint | app/uteis.py:15 | text already in that form is left unchanged by cleaning |
| PlateText.NormalizeIdempotent | app/uteis.py:27 | cleaning twice is the same as cleaning once |
| PlateText.OnlyLettersNumbersOfNormalised | app/uteis.py:33 | calling only_letters_numbers on the already-cleaned text, as the loop does, gives the same answer as on the raw text |
| PlateText.OnlyLettersNumbersAccepts | app/uteis.py:11-16 | text made of ASCII letters of either case, digits, `-` and spaces, with at least one letter or digit, passes the check |
| PlateText.OnlyLettersNumbersChars | app/uteis.py:11-16 | text that passes holds only ASCII letters, digits, `-` and whitespace |
| PlateSelector.CleanAll | app/uteis.py:27 | defines the detections with every text cleaned by Normalize, confidences unchanged, order and length kept |
| PlateSelector.Survives | app/uteis.py:29-30 | defines the filter: the cleaned text has at least 6 characters and is neither "BRASIL" nor "BR" |
| PlateSelector.Competes | app/uteis.py:29-33 | defines the detections the confidence comparison considers: survivors whose text matches [A-Z0-9]+ or not, as chosen |
| PlateSelector.KeepBest | app/uteis.py:33-36 | defines the running-best scan with no early return: a competing detection replaces the best only with strictly greater confidence |
| PlateSelector.SelectCleaned | app/uteis.py:25-41 | defines the loop's result over cleaned detections: skip non-survivors, return the first survivor at once when it is alphanumeric or has confidence not above 0.0, else the running best over non-alphanumeric survivors |
| PlateSelector.SelectPlate | app/uteis.py:22-41 | defines get_plate_info's result for raw detections: SelectCleaned of the cleaned detections |
| PlateSelector.GetPlateInfo | app/uteis.py:22-41 | the selection loop, with its early return, returns exactly SelectPlate of the detections |
| PlateSelector.KeepBestIsFirstMaximum | app/uteis.py:33-36 | the running best ends with the first detection of maximal confidence among those compared, or keeps the starting candidate when none beats it; its confidence is never below the start |
| PlateSelector.RecordChangesOnlyUpward | app/uteis.py:33-36 | while a candidate is held, one step either leaves the record alone or replaces it with a non-alphanumeric text of strictly greater confidence; a tie keeps the earlier one; the confidence never decreases |
| PlateSelector.SelectCleanedSkips | app/uteis.py:29-30 | detections shorter than 6 characters or equal to "BRASIL"/"BR" ahead of the first survivor do not affect the result |
| PlateSelector.SelectCleanedFromInput | app/uteis.py:22-41 | plate is None iff no detection survives the filter, and then the confidence is 0.0; otherwise the result is the text and confidence of a surviving detection |
| PlateSelector.SelectPlateFromInput | app/uteis.py:22-41 | the same over raw detections: a returned plate passes the filter and is the cleaned text of some input detection with that detection's confidence |
| PlateSelector.SelectCleanedEarlyReturn | app/uteis.py:38-39 | the first survivor is returned at once when its text is purely letters and digits or its confidence is not above 0.0 |
| PlateSelector.SelectCleanedAsKeepBest | app/uteis.py:32-36 | when the first survivor is not purely letters and digits and has positive confidence, the result is the running best over the whole sequence |
| PlateSelector.SelectCleanedRunningBest | app/uteis.py:32-41 | in that case the result is the first detection of maximal confidence among surviving non-alphanumeric texts |
| PlateSelector.CleanAllOfClean | app/uteis.py:27 | detections whose texts are already clean are unchanged by the cleaning step |
| PlateSelector.SelectPlateFiltersBanners | app/uteis.py:29-30 | for ("BRASIL", 0.9), ("AB", 0.95), ("ABC1D23", 0.8) the banner and the short fragment are skipped and ("ABC1D23", 0.8) is returned |
| PlateSelector.SelectPlateReturnsEarly | app/uteis.py:38-39 | for ("ABC1D23", 0.5), ("XYZ9K88", 0.9) the loop returns ABC1D23 at 0.5; the intended selection returns XYZ9K88 at 0.9 |
| PlateSelector.TwoWellFormedPlates | app/uteis.py:32-39 | the cleaned-input half of that example |
| PlateSelector.SelectPlatePrefersMalformed | app/uteis.py:33-36 | for ("AB.C1D23", 0.9), ("ABC1D23", 0.95) the loop returns the malformed AB.C1D23; the intended selection returns ABC1D23 at 0.95 |
| PlateSelector.BestWellFormed | app/uteis.py:33-39 | defines the intended selection over cleaned detections: the running-best scan over alphanumeric survivors from (None, 0.0), with no early return |
| PlateSelector.SelectPlateIntended | app/uteis.py:22-41 | defines the intended get_plate_info for raw detections: BestWellFormed of the cleaned detections |
| PlateSelector.BestWellFormedIsFirstMaximum | app/uteis.py:33-39 | intended selection: None iff no well-formed survivor has positive confidence; otherwise a text matching [A-Z0-9]+ of maximal confidence, the earliest on ties |
| PlateScorer.TamanhoPlaca | app/uteis.py:43 | the plate length, 7 |
| PlateScorer.MaxPontuacaoPerfeita | app/uteis.py:44 | the score that stands for similarity 1.0, 100 |
| PlateScorer.CustoBase | app/uteis.py:90 | the starting score, 70 |
| PlateScorer.ConfusoesOcr | app/uteis.py:46-63 | the 16 entries of CONFUSOES_OCR, each key with its list of commonly confused characters |
| PlateScorer.ConfusionsOf | app/uteis.py:112 | defines `CONFUSOES_OCR.get(v, [])`: the table's list for a key, the empty list otherwise |
| PlateScorer.IsConfusion | app/uteis.py:112 | defines `o in CONFUSOES_OCR.get(v, [])` |
| PlateScorer.AfterMatch | app/uteis.py:91-142 | defines the streak flag on entry to position k: false at the first position, afterwards whether position k-1 matched (the flag is set to true only on a match and to false on every mismatch) |
| PlateScorer.PositionDetail | app/uteis.py:96-142 | defines the entry recorded for position k: 1-based position, expected and obtained one-character strings, and Judge's verdict and points under AfterMatch |
| PlateScorer.Judge | app/uteis.py:100-142 | branch priority per position: exact match, then table confusion, then letter/non-letter mismatch, then other. A match earns +5 only after a previous match (else 0). A table confusion costs 3, a letter/non-letter mismatch costs 10 and records whether the expected character is a letter and the obtained one a digit, and any other mismatch costs 5 |
| PlateScorer.Cost | app/uteis.py:90-142 | the points of n positions are at least -10n and at most 5(n-1) for n >= 1 (0 for n = 0), because the first position cannot earn a bonus |
| PlateScorer.Clamp01 | app/uteis.py:144 | the similarity is in [0, 1], equals its argument inside that range, and is 0 or 1 outside it |
| PlateScorer.CostPerfectIff | app/uteis.py:100-110 | n positions reach the ceiling 5(n-1) exactly when the plates agree on all of them |
| PlateScorer.CostAllWrongType | app/uteis.py:122-131 | positions that are all letter/non-letter mismatches outside the table cost exactly 10 each |
| PlateScorer.DistanciaPonderada | app/uteis.py:65-152 | empty OCR text gives 0/0/0 and one NoOcrText(0, "N/A", "N/A") entry. Otherwise a length other than 7 gives 0/0/0 and one WrongLength(len(plate_ocr)) entry. On 7-character plates there are 7 entries with positions 1..7 holding the compared characters and their Judge verdict. The cost is 70 + Cost, within [0, 100], and is 100 iff the plates are identical. Similarity is cost/100 and always in [0, 1] |
| PlateScorer.IdenticalPlatesScorePerfect | app/uteis.py:90-110 | identical 7-character plates score exactly 100 |
| PlateScorer.AllWrongTypeScoresZero | app/uteis.py:122-131 | plates that differ in class at every position, with no table confusion, score exactly 0 |
| PlateScorer.ConfusionSymmetric | app/uteis.py:46-63 | the confusion table is symmetric |
| PlateScorer.ConfusionIrreflexive | app/uteis.py:46-63 | no character is its own confusion, and a character that is not a key has none (the `.get(v, [])` default) |
| PlateScorer.ConfusionBeforeClass | app/uteis.py:112-131 | 'O' read as '0' is a letter/digit pair yet costs 3, because the table is consulted first; "ABC1O23" against "ABC1023" scores 87 |

## Left out

- The OCR engine (`easyocr.Reader(...)` and `readtext`, app/uteis.py:19-20) is not modelled. Its detections are the input sequence of `GetPlateInfo`, and the bounding box is dropped because the selection never reads it.
- `save_uploaded_image_as_png` (app/uteis.py:154-178) is left out. It is file-system I/O, image decoding and a wall-clock timestamp.
- `get_plate_text` (app/uteis.py:181-214) is left out. It covers upload reading, image filters on pixel arrays, the fallback raw OCR read and debug output.
- `print` calls and `async` markers are left out. They have no effect on the results.
- app/main.py is not part of this model. It is service set-up: the web application, middleware, routing, the message broker and database lifecycle.
- Upper-casing, stripping and the letter and digit tests cover ASCII only. Non-ASCII characters are left unchanged by upper-casing and are never whitespace, letters or digits. Python's Unicode case mapping (which can change a string's length), its Unicode whitespace and its Unicode letters are not modelled.
- Confidences and similarities are mathematical reals. Binary floating point, NaN and infinities are not modelled.
- DistanciaPonderada: `similaridade_pct` is modelled as `similaridade * 100.0`, without the `round(…, 1)` to one decimal place. Rounding a binary float is not modelled.
- GetPlateInfo: the source's `if text:` test (app/uteis.py:32) is not written out. It always holds after the length filter of line 29.

## Findings

| source | as written | input that shows it | evidently intended | confidence | as-written member | corrected member |
|---|---|---|---|---|---|---|
| app/uteis.py:33 | `if not only_letters_numbers(text)` records only texts that are NOT purely A-Z/0-9, so a well-formed plate is never recorded as the best candidate | detections ("AB.C1D23", 0.9), ("ABC1D23", 0.95): the result is "AB.C1D23" at 0.9 | record texts that ARE purely letters and digits | high; not executed | PlateSelector.SelectPlatePrefersMalformed | PlateSelector.BestWellFormedIsFirstMaximum |
| app/uteis.py:38-39 | while nothing is recorded, the first detection that passes the length filter is returned at once, whatever its confidence | detections ("ABC1D23", 0.5), ("XYZ9K88", 0.9): the result is "ABC1D23" at 0.5 | scan every detection and keep the highest confidence | high; not executed | PlateSelector.SelectPlateReturnsEarly | PlateSelector.BestWellFormedIsFirstMaximum |

The corrected selection is `SelectPlateIntended`. It is a recursive function,
not a loop: the running-best scan `KeepBest` over the whole sequence, with the
class test un-inverted and no early return. `GetPlateInfo` keeps the
behaviour as written, because it models the code the service runs.
