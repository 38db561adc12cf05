# ROLO bounding-box scoring, modelled in Dafny

This project models the evaluation helpers of the ROLO object tracker
(`ObjectTracking/ROLO_utils.py`). They score a predicted box against the
ground truth, one frame at a time:

- `find_gt_location` reads the ground-truth box `[x, y, w, h]` of one frame
  from a text line. Fields are tab-separated; the line is re-split on commas
  only when the tab split gives fewer than four fields.
- `locations_normal` rescales a relative box to pixels, in place.
- `validate_box` overwrites NaN components with 0, in place.
- `iou` sanitises both lists in place, truncates fresh copies to integers and
  returns intersection over union. It reads `[0]`/`[1]` as the centre of the
  box and `[2]`/`[3]` as its width and height.
- `cal_rolo_IOU` and `cal_yolo_IOU` (the tracker and detector wrappers) move
  the candidate box from its centre to its top-left corner, in place, and
  call `iou`.

Numbers are exact reals with an explicit NaN (`PyNum.Num`). Python's `int()`
on a float is truncation toward zero (`PyNum.Trunc`). Python lists that the
code mutates are `array<Num>`, updated by methods with `modifies` clauses.
Each such method is specified by a function on the list's contents
(`Boxes.Normalized`, `Boxes.Sanitized`, `Scoring.ShiftedToCorner`,
`Scoring.IouResult`). The pure parts are functions: splitting and `int()` on
strings (`PyStr`), ground-truth parsing (`GroundTruth`) and the IoU
arithmetic after truncation (`Scoring.IouOf`). Python exceptions are
`Results.Error` values: `IndexError`, `ValueError` and `ZeroDivisionError`.
A list shorter than the code indexes is not excluded by a precondition.
The methods return `Err(IndexError)` (`ShiftToCorner` returns `false`), and the list holds the writes Python made
before the exception. Two arguments may be the same list, as in `iou(b, b)`;
the contracts cover that case.

Modules: `Results`, `PyNum`, `PyStr`, `GroundTruth`,
`GroundTruthProperties`, `Boxes`, `BoxesProperties`, `Scoring`,
`IouProperties`, `CornerIou`.

## Model

| member | source | states |
|---|---|---|
| PyStr.Split | ObjectTracking/ROLO_utils.py:54-56 | `str.split(sep)` yields one more piece than there are separators, and no piece contains the separator |
| PyStr.JoinSplit | ObjectTracking/ROLO_utils.py:54-56 | joining the pieces of a split with the separator gives back the line |
| PyStr.SplitJoin | ObjectTracking/ROLO_utils.py:54-56 | splitting a join gives back the pieces when none of them holds the separator |
| PyStr.SplitAppend | ObjectTracking/ROLO_utils.py:54-56 | `(a + sep + b).split(sep)` is the pieces of `a` followed by the pieces of `b` |
| PyStr.CountAppend | ObjectTracking/ROLO_utils.py:54-56 | separator counts add up over concatenation (this fixes the number of split fields) |
| PyStr.TrailingSeparator | ObjectTracking/ROLO_utils.py:31 | a text ending in the separator splits into a trailing empty piece |
| PyStr.ParseInt | ObjectTracking/ROLO_utils.py:61 | `int(s)` on a string: surrounding whitespace stripped (space, `\t` to `\r` and the non-ASCII whitespace, but not U+001C to U+001F), an optional sign, ASCII digits with single underscores between them; `None` is the ValueError. Its properties are `ParseIntToString`, `ParseIntTrailingSpace`, `InformationSeparatorNotStripped`, `TabsTakePrecedence` and `CommaIsNotAnInteger` |
| PyStr.ParseIntToString | ObjectTracking/ROLO_utils.py:61 | `int(str(n)) == n` for every integer, negative ones included |
| PyStr.ParseIntTrailingSpace | ObjectTracking/ROLO_utils.py:61 | trailing characters that `int()` strips, such as `\r`, do not change what `int()` returns |
| PyStr.InformationSeparatorNotStripped | ObjectTracking/ROLO_utils.py:61 | `int()` does not strip U+001C to U+001F, although `str.isspace()` counts them as whitespace: `int("5\x1c")` raises ValueError |
| PyStr.IntToStringChars | ObjectTracking/ROLO_utils.py:61 | a written integer holds only digits and a minus sign, so neither tab nor comma |
| GroundTruth.LoadDatasetGt | ObjectTracking/ROLO_utils.py:29-32 | the file text split on line breaks is never an empty list |
| GroundTruthProperties.TrailingEmptyLine | ObjectTracking/ROLO_utils.py:29-32 | a final line break adds an empty last line, and reading that line fails with IndexError |
| GroundTruth.GtFields | ObjectTracking/ROLO_utils.py:54-56 | the fields of a line, never an empty list: the tab split, or the comma split when the tab split has fewer than four pieces (`GtFieldsSeparator` states when each is used) |
| GroundTruth.ParseFields | ObjectTracking/ROLO_utils.py:61 | a successful conversion has one integer per field |
| GroundTruth.ParseFieldsOk | ObjectTracking/ROLO_utils.py:61 | the conversion succeeds exactly when every field is an integer literal, and then each integer is `int()` of its field |
| GroundTruth.ParseFieldsFirstError | ObjectTracking/ROLO_utils.py:61 | a failed conversion is the ValueError of the first field that is not an integer literal |
| GroundTruth.FindGtLocation | ObjectTracking/ROLO_utils.py:52-62 | `find_gt_location(lines, id)`: a successful result has four integers. The exact success and failure cases are `FindGtLocationOk`, `FindGtLocationIndexError` and `FindGtLocationValueError`; `FindGtLocationRoundTrip` is its inverse |
| GroundTruthProperties.FindGtLocationOk | ObjectTracking/ROLO_utils.py:52-62 | success exactly when the line exists, has four fields after the fallback and the first four are integers; the box is their four values |
| GroundTruthProperties.FindGtLocationIndexError | ObjectTracking/ROLO_utils.py:52-60 | IndexError exactly when `id` is past the end or the line has fewer than four fields after the comma fallback |
| GroundTruthProperties.FindGtLocationValueError | ObjectTracking/ROLO_utils.py:57-61 | any other failure is the ValueError of the first of the four fields that is not an integer literal |
| GroundTruthProperties.GtFieldsSeparator | ObjectTracking/ROLO_utils.py:54-56 | the tab fields are used when the line has at least three tabs, the comma fields otherwise |
| GroundTruthProperties.FindGtLocationIgnoresExtraTabFields | ObjectTracking/ROLO_utils.py:54-61 | appending further tab-separated fields to a line with four tab fields does not change the result |
| GroundTruthProperties.FindGtLocationIgnoresExtraCommaFields | ObjectTracking/ROLO_utils.py:55-61 | appending further comma-separated fields to a comma line that stays below three tabs does not change the result |
| GroundTruthProperties.ParseFieldsInverse | ObjectTracking/ROLO_utils.py:61 | converting the decimal text of a list of integers gives back the list |
| GroundTruthProperties.ParseFieldsAlike | ObjectTracking/ROLO_utils.py:61 | integer fields that `int()` reads alike convert to the same list |
| GroundTruthProperties.FindGtLocationRoundTrip | ObjectTracking/ROLO_utils.py:52-62 | every box written as a tab line or as a comma line is read back unchanged |
| GroundTruthProperties.CarriageReturnFields | ObjectTracking/ROLO_utils.py:54-56 | a `\r` at the end of a written line stays inside the fourth field |
| GroundTruthProperties.CarriageReturnIgnored | ObjectTracking/ROLO_utils.py:52-62 | a written line followed by a stray `\r` is still read back unchanged, because `int()` strips it |
| GroundTruthProperties.TabSeparatedLine | ObjectTracking/ROLO_utils.py:54 | `"10\t20\t30\t40"` reads as `[10, 20, 30, 40]` |
| GroundTruthProperties.CommaSeparatedLine | ObjectTracking/ROLO_utils.py:56 | `"10,20,30,40"` reads as `[10, 20, 30, 40]` |
| GroundTruthProperties.TabsTakePrecedence | ObjectTracking/ROLO_utils.py:54-61 | `"1,2\t3\t4\t5"` is not re-split on commas and fails with ValueError on `"1,2"` |
| GroundTruthProperties.CommaIsNotAnInteger | ObjectTracking/ROLO_utils.py:61 | `int("1,2")` fails |
| PyNum.Trunc | ObjectTracking/ROLO_utils.py:122-123 | `int(x)` lies within 1 of `x`, on the side of zero |
| PyNum.TruncOfInt | ObjectTracking/ROLO_utils.py:122-123 | `int()` leaves integral values unchanged |
| PyNum.ScaleInverse | ObjectTracking/ROLO_utils.py:45-48 | multiplying by a non-zero factor and then by its inverse gives back the number, NaN included |
| Boxes.Normalized | ObjectTracking/ROLO_utils.py:45-48 | the contents after `locations_normal`, of the same length: elements 0 and 2 scaled by `wid`, 1 and 3 by `ht`. `NormalizedInverse` is its inverse; `NormalizedKeepsTail` and `NormalizedKeepsNaN` state what it leaves alone |
| Boxes.LocationsNormal | ObjectTracking/ROLO_utils.py:41-49 | scales elements 0 and 2 by `wid` and 1 and 3 by `ht` in place, leaves the rest unchanged, returns the same list; IndexError on a list shorter than four, with the elements before the missing one already scaled |
| BoxesProperties.NormalizedInverse | ObjectTracking/ROLO_utils.py:45-48 | rescaling by `1/wid` and `1/ht` restores the relative box |
| BoxesProperties.NormalizedKeepsTail | ObjectTracking/ROLO_utils.py:45-49 | the length and every element after the fourth are unchanged |
| BoxesProperties.NormalizedKeepsNaN | ObjectTracking/ROLO_utils.py:45-48 | a NaN component stays NaN (rescaling does not sanitise) |
| BoxesProperties.NormalizedExample | ObjectTracking/ROLO_utils.py:41-49 | `(0.5, 0.5, 0.2, 0.1)` in a 100 by 200 image becomes `(50, 100, 20, 20)` |
| Boxes.Sanitized | ObjectTracking/ROLO_utils.py:110-113 | the sanitised list has the same length and no NaN |
| Boxes.ValidateBox | ObjectTracking/ROLO_utils.py:110-113 | overwrites the list in place with its sanitised contents |
| BoxesProperties.SanitizedPointwise | ObjectTracking/ROLO_utils.py:111-113 | every NaN position holds 0 afterwards, and every other position is unchanged |
| BoxesProperties.SanitizedIdempotent | ObjectTracking/ROLO_utils.py:110-113 | sanitising twice is sanitising once |
| BoxesProperties.SanitizedNoNaN | ObjectTracking/ROLO_utils.py:110-113 | a list without NaN is left as it is |
| Scoring.Truncated | ObjectTracking/ROLO_utils.py:122-123 | truncation keeps the length of the list |
| Scoring.IouOf | ObjectTracking/ROLO_utils.py:125-134 | the arithmetic of `iou` on the truncated lists; IndexError exactly when a list is shorter than four. Its properties are the `IouProperties` lemmas (symmetry, self-overlap, disjoint boxes, zero denominator, unit interval, containment) |
| Scoring.IouResult | ObjectTracking/ROLO_utils.py:116-134 | what `iou` returns for the caller's lists: `IouOf` of their sanitised, truncated copies; IndexError exactly when a list is shorter than four. `IouResultSymmetric` and `IouResultSelf` state its properties |
| Scoring.Iou | ObjectTracking/ROLO_utils.py:116-134 | both caller lists end up sanitised but not truncated, also when they are the same list; the result is the IoU of the truncated, sanitised copies |
| Scoring.ShiftToCorner | ObjectTracking/ROLO_utils.py:138-139 | `location[0] -= location[2]/2`, then `location[1] -= location[3]/2`, in place, NaN propagating; `[2]` and `[3]` unchanged; IndexError on a short list after the writes Python makes |
| Scoring.ShiftedToCorner | ObjectTracking/ROLO_utils.py:138-139 | the candidate list after the first two lines of the wrappers: same length, elements from index 2 on unchanged, `[0]` and `[1]` moved by half of `[2]` and `[3]` (a list of three has only `[0]` moved) |
| Scoring.CalIouResult | ObjectTracking/ROLO_utils.py:137-149 | what `cal_rolo_IOU` and `cal_yolo_IOU` return: `iou` of the shifted candidate and the ground truth; IndexError exactly when a list is shorter than four. `CalIouExample` and `WrapperMisreadsCornerBoxes` evaluate it |
| Scoring.CalRoloIou | ObjectTracking/ROLO_utils.py:137-141 | moves `location` to its corner and scores it against the ground truth with `iou`; states the final contents of both lists and the aliased case |
| Scoring.CalYoloIou | ObjectTracking/ROLO_utils.py:144-149 | the same contract as `CalRoloIou`: the two wrappers behave identically |
| IouProperties.OverlapCommutes | ObjectTracking/ROLO_utils.py:125-128 | the per-axis overlap does not depend on the order of the boxes |
| IouProperties.IouSymmetric | ObjectTracking/ROLO_utils.py:125-134 | `iou(a, b) == iou(b, a)` on the truncated lists, error cases included |
| IouProperties.IouResultSymmetric | ObjectTracking/ROLO_utils.py:116-134 | `iou(a, b) == iou(b, a)` on the caller's lists |
| IouProperties.IouDisjoint | ObjectTracking/ROLO_utils.py:129-134 | if either overlap is not positive, the score is 0, or ZeroDivisionError when the two areas sum to 0 |
| IouProperties.IouSelf | ObjectTracking/ROLO_utils.py:125-134 | a box with truncated width and height at least 1 scores exactly 1 against itself |
| IouProperties.IouResultSelf | ObjectTracking/ROLO_utils.py:116-134 | on the caller's lists, a box at least one pixel wide and high scores 1 against itself |
| IouProperties.SubPixelBoxDividesByZero | ObjectTracking/ROLO_utils.py:122-134 | a half-pixel box truncates to area 0, and scoring it against itself raises ZeroDivisionError |
| IouProperties.OverlapAtMostWidth | ObjectTracking/ROLO_utils.py:125-128 | each per-axis overlap is at most the size of either box on that axis |
| IouProperties.IntersectionAtMost | ObjectTracking/ROLO_utils.py:129-133 | the intersection term is between 0 and the product of the sizes it is bounded by |
| IouProperties.IntersectionBounds | ObjectTracking/ROLO_utils.py:125-133 | for non-negative sizes, the intersection lies between 0 and the smaller area |
| IouProperties.IouZeroDenominator | ObjectTracking/ROLO_utils.py:125-134 | for non-negative truncated sizes, the division fails exactly when both truncated areas are 0 |
| IouProperties.IouInUnitInterval | ObjectTracking/ROLO_utils.py:125-134 | for non-negative sizes, not both areas 0, the score exists and lies in [0, 1] |
| IouProperties.IouContained | ObjectTracking/ROLO_utils.py:125-134 | for centre-anchored boxes, a box inside another scores the ratio of the two areas |
| IouProperties.CalIouExample | ObjectTracking/ROLO_utils.py:137-141 | centre box `(50, 50, 20, 20)` against ground truth `(40, 40, 20, 20)` scores 1 |
| CornerIou.CornerIouOf | ObjectTracking/ROLO_utils.py:144-148 | corrected score: the IoU of two corner-anchored truncated boxes; IndexError exactly when a list is shorter than four. `CornerIouContained`, `CornerIouSymmetric` and `CornerIouDisjoint` state its properties |
| CornerIou.CalIouCorrected | ObjectTracking/ROLO_utils.py:137-149 | corrected wrapper score: `CornerIouOf` of the shifted candidate and the ground truth; IndexError exactly when a list is shorter than four |
| CornerIou.CornerIouContained | ObjectTracking/ROLO_utils.py:144-148 | corrected score: a corner box inside another scores the ratio of the two areas |
| CornerIou.CornerIouSymmetric | ObjectTracking/ROLO_utils.py:144-148 | the corrected score is symmetric |
| CornerIou.CornerIouDisjoint | ObjectTracking/ROLO_utils.py:144-148 | with the corrected score, boxes apart on one axis score 0, or ZeroDivisionError when the two areas sum to 0 |
| CornerIou.IouAgreesOnEqualSizes | ObjectTracking/ROLO_utils.py:125-128 | `iou` as written and the corrected score agree whenever the two boxes have equal width and equal height |
| CornerIou.WrapperMisreadsCornerBoxes | ObjectTracking/ROLO_utils.py:144-148 | for a candidate lying inside the ground truth, the wrappers as written return 1/19 and the corrected wrappers return the intended 1/4 |

## Findings

| source | as written | input that shows it | evidently intended | confidence | as-written member | corrected member |
|---|---|---|---|---|---|---|
| ObjectTracking/ROLO_utils.py:144-148 (also 137-140 and 125-128) | the wrappers move the candidate's `[0]`/`[1]` from its centre to its top-left corner, as the comment at line 145 says, but `iou` then reads `[0]`/`[1]` of both boxes as centres. Each box is shifted by half its own size | candidate centre box `[30, 30, 20, 20]` (covering `[20, 40]` on each axis) against ground truth `[0, 0, 40, 40]`: result 100/1900 = 1/19 | the IoU of the two corner-anchored rectangles: 400/1600 = 1/4, the ratio of the areas, since the candidate lies inside the ground truth | high on the mismatch of conventions; not executed | CornerIou.WrapperMisreadsCornerBoxes | CornerIou.CornerIouContained (on CornerIou.CornerIouOf, used by CornerIou.CalIouCorrected) |

The two conventions agree on boxes of the same width and height
(`CornerIou.IouAgreesOnEqualSizes`), which hides the error when candidate
and ground truth have equal sizes. `Scoring.CalRoloIou` and
`Scoring.CalYoloIou` model the code as written. `CornerIou.CalIouCorrected`
is the corrected wrapper score beside them.

The code mutates the caller's lists, and the model follows it:
`Boxes.LocationsNormal`, `Boxes.ValidateBox`, `Scoring.Iou` and the wrappers
update their arrays in place.

## Left out

- `load_folder`, `file_to_img`: directory listing and OpenCV image decoding are I/O.
- `load_dataset_gt`: the file read is I/O. `GroundTruth.LoadDatasetGt` takes the file's text as a parameter and models only the split on line breaks.
- `GroundTruth.LoadDatasetGt`: takes the text after Python 3's universal-newline translation, which `open(gt_file, "r")` applies: `"\r\n"` and a lone `"\r"` become `"\n"`, so the text it splits holds no `\r`. The translation itself is not modelled; applied to raw text such as `"1,2,3,4\r5,6,7,8"` the model gives one line where Python gives two. The `\r` lemmas (`CarriageReturnFields`, `CarriageReturnIgnored`) are about lines that reach `find_gt_location` from other sources.
- `find_yolo_location`, `find_rolo_location`: directory listing and `np.load` are file I/O; what is left is plain indexing. Two quirks of that indexing are not modelled. `paths[id-1]` with `id = 0` picks the last file. The slice `4097:4101` skips element 4096.
- `debug_3_locations`: drawing on a bitmap with OpenCV; it has no effect on any score.
- `GroundTruth.FindGtLocation`: `id` is a natural number. Python's negative indices, which count from the end, are not modelled.
- `PyStr.ParseInt`: accepts ASCII digits only. Python's `int()` also accepts other Unicode decimal digits. Since Python 3.11 `int()` raises ValueError on a literal of more than 4300 digits; the model accepts literals of any length.
- Floating point: numbers are exact reals. IEEE-754 rounding is left out. In `iou`, `tb` and `lr` are half-integers and `tb*lr` is a multiple of 1/4, so while magnitudes stay well below 2^53 every value up to the final division is exact and only the final quotient would round. Infinities are left out; `int()` would raise OverflowError on them. NaN is modelled explicitly.
- `Boxes.LocationsNormal`: `wid` and `ht` are finite reals. The conversion `wid *= 1.0` only changes the Python type, so it has no counterpart.
- numpy array types (`float32` elements, views) are not distinguished from Python lists.
