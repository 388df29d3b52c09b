/** Values shared by the two profile formats of the lut package: the error-or-value
    result of a diff, the six numbers of one look-table cell with the correction that
    moves one cell onto another, and the selection of a sequence's elements at
    increasing positions. */
module LutCommon {

  /** A Go pair `(*T, error)` where exactly one side is present. */
  datatype Result<T> = Ok(value: T) | Err(msg: string)

  /** A Go pointer to a value that is never written through: nil or a value. */
  datatype Option<T> = None | Some(value: T)

  /** The six numbers of one look-table cell (`DCPLookTableElement` and `LookupRow`
      have the same fields). float64 fields are modelled as exact reals. */
  datatype LookEntry = LookEntry(
    hueDiv: int, satDiv: int, valDiv: int,
    hueShift: real, satScale: real, valScale: real)

  /** Adds a correction to a cell, field by field. */
  function Apply(base: LookEntry, correction: LookEntry): LookEntry
  {
    LookEntry(
      base.hueDiv + correction.hueDiv, base.satDiv + correction.satDiv,
      base.valDiv + correction.valDiv, base.hueShift + correction.hueShift,
      base.satScale + correction.satScale, base.valScale + correction.valScale)
  }

  /** The correction a diff stores for one cell, computed as the source does:
      `(start * -1) + target` in every field. Applying it to the start cell
      gives the target cell. */
  function Delta(start: LookEntry, target: LookEntry): (d: LookEntry)
    ensures Apply(start, d) == target
  {
    LookEntry(
      start.hueDiv * -1 + target.hueDiv, start.satDiv * -1 + target.satDiv,
      start.valDiv * -1 + target.valDiv, start.hueShift * -1.0 + target.hueShift,
      start.satScale * -1.0 + target.satScale, start.valScale * -1.0 + target.valScale)
  }

  /** The delta is the only correction that moves `start` onto `target`. */
  lemma DeltaIsUnique(start: LookEntry, target: LookEntry, d: LookEntry)
    requires Apply(start, d) == target
    ensures d == Delta(start, target)
  {
  }

  /** The sign convention: a HueShift of 1.0 corrected towards 3.0 stores 2.0,
      target minus start. */
  lemma DeltaSignExample()
    ensures Delta(LookEntry(0, 0, 0, 1.0, 0.0, 0.0), LookEntry(0, 0, 0, 3.0, 0.0, 0.0)).hueShift == 2.0
  {
  }

  /** A one-row table whose target differs only in HueShift 5.0: the correction
      is HueShift 5.0 with every other field 0. */
  lemma CorrectCellsExample()
    ensures CorrectCells([LookEntry(0, 0, 0, 0.0, 1.0, 1.0)], [LookEntry(0, 0, 0, 5.0, 1.0, 1.0)])
         == [LookEntry(0, 0, 0, 5.0, 0.0, 0.0)]
  {
  }

  /** The correction for a whole table: position by position, the entry that
      carries the start cell onto the target cell. */
  function CorrectCells(start: seq<LookEntry>, target: seq<LookEntry>): (c: seq<LookEntry>)
    requires |start| == |target|
    ensures |c| == |start|
    ensures forall i :: 0 <= i < |c| ==> Apply(start[i], c[i]) == target[i]
  {
    seq(|start|, i requires 0 <= i < |start| => Delta(start[i], target[i]))
  }

  /** Positions that all lie in `0 .. n - 1` and strictly increase. */
  predicate Increasing(idx: seq<int>, n: int)
  {
    (forall j :: 0 <= j < |idx| ==> 0 <= idx[j] < n) &&
    (forall j, k :: 0 <= j < k < |idx| ==> idx[j] < idx[k])
  }

  /** The elements of `s` at the positions `idx`, in that order. */
  function Pick<T>(s: seq<T>, idx: seq<int>): (r: seq<T>)
    requires forall j :: 0 <= j < |idx| ==> 0 <= idx[j] < |s|
  {
    seq(|idx|, j requires 0 <= j < |idx| => s[idx[j]])
  }
}
