# lutdiff diff engines in Dafny

lutdiff computes a *correction profile* between two camera colour profiles, a
start profile and a target profile. The result is a copy of the start profile.
Its name is rewritten to `Correct <start> to <target>`. Its look-table cells hold
`(start * -1) + target` instead of absolute values. Only in the XML variant, and
only when the tone curve is not skipped, does the tone curve hold such deltas,
and then only for the samples the filter keeps. The JSON variant's result, and
a skipped XML tone curve, keep the start's tone curve unchanged.
The repository has two profile formats, each with its own diff and its own
tone-curve filter:

- the XML `dcpData` profile (`DCPData`, lut/dcpdata.go), modelled in module
  `DcpProfile` (dcpdata.dfy);
- the JSON profile (`Profile`, lut/profile.go), modelled in module
  `JsonProfile` (profile.dfy).

Module `LutCommon` (common.dfy) holds what both share:
- the `Result` of a diff (`Ok(profile)` or `Err(message)`);
- the six-number look-table cell `LookEntry`, and the per-cell correction `Delta`;
- `Pick`, the selection of a sequence's elements at increasing positions, which
  both filters are specified with.

The profiles, the XML look table and the XML tone curve are pointers in Go and
classes here. `DeepCopy` allocates new objects. `Diff` writes only into that
copy and changes no object that existed before the call.

The model follows the code as written, including these behaviours a reader may
not expect:
- The JSON filter drops a point when some filter pair differs from it in *both*
  coordinates (lut/profile.go:103). This is not an exact-match exclusion. For
  example, `[(0,0),(1,1),(2,2)]` filtered by `[(1,1)]` gives `[(1,1)]`.
- `Profile.Diff` writes the tone-curve deltas into a filtered copy of value
  pairs that is never stored (lut/profile.go:61-72). The result therefore keeps
  the start profile's tone curve. The filtered lengths still decide the
  `ProfileToneCurve length mismatch` error.
- The length-mismatch errors carry fixed messages; they do not name the two lengths.
- `DCPData.Diff` leaves `ToneCurve.Size` at the start's value, even when the
  filter shortens the element list.

Each filter is specified by a function that gives the kept positions, in
increasing order (`KeptPositions`, `ProfileKeptPositions`). The filtered curve
is the input picked at those positions. Lemmas say:
- which positions are kept;
- that membership in the result is membership in the input minus the dropped points;
- that an empty filter list keeps everything;
- that filtering is idempotent;
- what the worked examples give.

The loop methods (`Filter`, `FilterToneCurve`, the row-correction loops) are
proved against these functions.

## Model

| member | source | states |
|---|---|---|
| `LutCommon.Delta` | lut/dcpdata.go:65-70 | The correction of one cell, `(start * -1) + target` in each of the six fields; adding it to the start cell gives the target cell |
| `LutCommon.DeltaIsUnique` | lut/profile.go:53-58 | Any correction that carries the start cell onto the target cell is `Delta` |
| `LutCommon.DeltaSignExample` | lut/profile.go:56 | A HueShift corrected from 1.0 towards 3.0 gives 2.0: target minus start, not start minus target |
| `LutCommon.CorrectCellsExample` | lut/profile.go:52-59 | One row (0,0,0,0,1,1) corrected towards (0,0,0,5,1,1) gives (0,0,0,5,0,0) |
| `LutCommon.CorrectCells` | lut/dcpdata.go:64-71 | The corrected table has the start's length, and its entry i carries start row i onto target row i |
| `DcpProfile.DCPLookTable.CorrectRows` | lut/dcpdata.go:64-71 | The loop leaves the table's elements equal to the correction of their old values onto the target rows; only `elements` may change |
| `DcpProfile.Ignored` | lut/dcpdata.go:140-145 | An element is dropped exactly when some filter pair equals its H and its V |
| `DcpProfile.FilterElements` | lut/dcpdata.go:136-153 | Every element of the filtered curve is an element of the curve that no pair matches |
| `DcpProfile.KeptPositions` | lut/dcpdata.go:138-150 | The kept positions lie inside the curve and strictly increase, so the filter preserves order |
| `DcpProfile.KeptPositionsExactly` | lut/dcpdata.go:139-149 | Position i is kept if and only if no filter pair equals element i's (H, V) |
| `DcpProfile.KeptPositionsAll` | lut/dcpdata.go:138-150 | When no element matches a pair, every position is kept, in order |
| `DcpProfile.FilterElementsMembers` | lut/dcpdata.go:136-153 | An element is in the filtered curve if and only if it is in the curve and no pair equals its (H, V) |
| `DcpProfile.FilterElementsNoPairs` | lut/dcpdata.go:140-146 | With no filter pairs the whole curve is returned |
| `DcpProfile.FilterElementsIdempotent` | lut/dcpdata.go:136-153 | Filtering the filtered curve again with the same pairs changes nothing |
| `DcpProfile.FilterElementsExample` | lut/dcpdata.go:141 | The curve (0,0), (1,1), (2,2) filtered by (1,1) is (0,0), (2,2) |
| `DcpProfile.CorrectSamples` | lut/dcpdata.go:85-89 | Tone-curve correction i has N = i, and adding start sample i's H and V to it gives target sample i's |
| `DcpProfile.CorrectSamplesIsUnique` | lut/dcpdata.go:85-89 | Any sequence with that property is `CorrectSamples` |
| `DcpProfile.Filter` | lut/dcpdata.go:136-153 | The nested loop with the `ignore` flag and `break` returns exactly the input's elements at the kept positions, in order |
| `DcpProfile.CorrectToneCurveRows` | lut/dcpdata.go:85-89 | The renumbering loop returns `CorrectSamples` of the two filtered curves |
| `DcpProfile.DCPData.WithTables` | lut/dcpdata.go:9-30 | A profile with the given tables and every other field equal to the given profile's |
| `DcpProfile.DCPData.DeepCopy` | lut/dcpdata.go:32-39 | A new profile, with new table objects, equal field for field to the start (name, header, divisions, cells, size, samples, absent tables) |
| `DcpProfile.DCPData.Diff` | lut/dcpdata.go:41-94 | Errors in the source's order: nil target, look-table length, then filtered tone-curve length (only when not skipped). Ok exactly when none applies. On success: the new name; every header field from the start; the start's divisions; the corrected cells. With skip, the start's tone curve. Without skip, the start's `Size` and `CorrectSamples` of the two filtered curves. The result is all new objects |
| `JsonProfile.Dropped` | lut/profile.go:102-107 | A point is kept exactly when every filter pair agrees with it in at least one coordinate; it is dropped when some pair differs from it in both |
| `JsonProfile.FilterPoints` | lut/profile.go:95-115 | Every point of the filtered curve is a point of the curve that no pair drops |
| `JsonProfile.ProfileKeptPositions` | lut/profile.go:99-112 | The kept positions lie inside the curve and strictly increase, so the filter preserves order |
| `JsonProfile.ProfileKeptPositionsExactly` | lut/profile.go:101-107 | Position i is kept if and only if every filter pair agrees with point i in at least one coordinate |
| `JsonProfile.ProfileKeptPositionsAll` | lut/profile.go:99-112 | When no point is dropped, every position is kept, in order |
| `JsonProfile.FilterPointsMembers` | lut/profile.go:95-115 | A point is in the filtered curve if and only if it is in the curve and no pair differs from it in both coordinates |
| `JsonProfile.FilterPointsNoPairs` | lut/profile.go:102-107 | With no filter pairs the whole curve is returned |
| `JsonProfile.FilterPointsIdempotent` | lut/profile.go:95-115 | Filtering the filtered curve again with the same pairs changes nothing |
| `JsonProfile.FilterPointsKeepsItsPair` | lut/profile.go:103 | With a single pair p, a point equal to p is kept |
| `JsonProfile.FilterPointsExample` | lut/profile.go:103 | The curve (0,0), (1,1), (2,2) filtered by (1,1) is (1,1) |
| `JsonProfile.CorrectPoints` | lut/profile.go:68-72 | The correction of a filtered curve has its length, and adding start point i to it gives target point i in both coordinates |
| `JsonProfile.FilterToneCurve` | lut/profile.go:95-115 | The nested loop with the `ignore` flag and `break` returns exactly the curve's points at the kept positions, in order |
| `JsonProfile.CorrectToneCurvePoints` | lut/profile.go:68-72 | The loop over points and coordinates returns `CorrectPoints` of the two filtered curves |
| `JsonProfile.Profile.Copy` | lut/profile.go:9-27 | A profile equal in every field to the given one |
| `JsonProfile.Profile.DeepCopy` | lut/profile.go:77-84 | A new profile equal field for field to the start |
| `JsonProfile.Profile.CorrectLookTable` | lut/profile.go:52-59 | The loop leaves the look table equal to the correction of its old rows onto the target rows; only the look table may change |
| `JsonProfile.Profile.Diff` | lut/profile.go:29-75 | Errors in the source's order: nil target, look-table length, then filtered tone-curve length. Ok exactly when none applies. On success: the new name; every other field from the start; the corrected look table; the start's tone curve, unfiltered and without deltas. The result is a new object |

## Left out

- main.go (flag parsing, file reading and writing, pretty-printing, parsing of
  `-i` values) is not part of this model.
- `DeepCopy` is a field-by-field copy into new objects. The Go code round-trips
  through `encoding/xml` or `encoding/json`. That library and its error path
  (for example JSON refusing NaN) are left out. With exact reals the encoders
  cannot fail, so neither `Diff` has an "encoding error" outcome.
- float64 is modelled as exact `real`. Rounding, NaN (which would never match a
  filter pair), signed zeros and `int` overflow in `(x * -1) + y` are not modelled.
- The debug `fmt.Printf` calls (lut/dcpdata.go:79, lut/profile.go:34) are output only.
- `DCPData.Diff` requires a present `LookTable` on both XML profiles when
  `other` is present, and a present `ToneCurve` on both when, in addition, the
  look tables have equal lengths and the tone curve is not skipped. These are
  exactly the inputs on which the Go code dereferences a nil pointer and panics,
  so the panic is not modelled.
- The look-table and tone-curve elements are values, not objects:
  - Go holds `[]*DCPLookTableElement`, `DCPToneCurveElements` and `[]*LookupRow`.
  - The diff writes only into elements of its own fresh copy, which nothing else
    refers to. Writing a field through an element pointer is then
    indistinguishable from replacing the element with the updated value.
  - `DCPToneCurveElements.Filter` returns its input's elements themselves. That
    becomes "returns the input's values at the kept positions".
  - The model therefore does not capture two slice positions sharing one element
    pointer, or a nil element pointer.
- A colour or forward matrix pointer of `DCPData` is an `Option` value. The
  model does not distinguish the new matrix objects the XML round trip creates
  from the start's.
- `XMLName` and the struct tags of the Go types only affect encoding and are not modelled.
- Go's distinction between a nil slice and an empty slice is not modelled. Both are `[]`.
