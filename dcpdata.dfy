/** The XML ("dcpData") camera profile of lut/dcpdata.go and its diff engine.
    The profile, its look table and its tone curve are pointers in the Go code and
    classes here, so that the diff visibly builds a new profile and writes only
    into it. The table elements are values (see the README). */
module DcpProfile {
  import opened LutCommon

  datatype DCPColorMatrixElement = DCPColorMatrixElement(text: real, row: int, col: int)

  /** A colour or forward matrix; the diff never writes into one, so it is a value. */
  datatype DCPColorMatrix = DCPColorMatrix(rows: int, cols: int, elements: seq<DCPColorMatrixElement>)

  datatype DCPReductionMatrix = DCPReductionMatrix(rows: int, cols: int)

  /** One cell of the look table: HueDiv, SatDiv, ValDiv, HueShift, SatScale, ValScale. */
  type DCPLookTableElement = LookEntry

  /** One point of the tone curve. */
  datatype DCPToneCurveElement = DCPToneCurveElement(n: int, h: real, v: real)

  type DCPToneCurveElements = seq<DCPToneCurveElement>

  class DCPLookTable {
    var hueDivisions: int
    var satDivisions: int
    var valDivisions: int
    var elements: seq<DCPLookTableElement>

    constructor (hueDivisions: int, satDivisions: int, valDivisions: int, elements: seq<DCPLookTableElement>)
      ensures this.hueDivisions == hueDivisions && this.satDivisions == satDivisions
      ensures this.valDivisions == valDivisions && this.elements == elements
    {
      this.hueDivisions, this.satDivisions, this.valDivisions := hueDivisions, satDivisions, valDivisions;
      this.elements := elements;
    }

    /** The look-table loop of `Diff`: every row is overwritten, field by field,
        with `(row * -1) + target row` at the same position. */
    method CorrectRows(target: seq<DCPLookTableElement>)
      requires |elements| == |target|
      modifies this`elements
      ensures elements == CorrectCells(old(elements), target)
    {
      for i := 0 to |elements|
        invariant |elements| == |target|
        invariant forall k :: 0 <= k < i ==> elements[k] == Delta(old(elements[k]), target[k])
        invariant forall k :: i <= k < |elements| ==> elements[k] == old(elements[k])
      {
        var row := elements[i];
        elements := elements[i := LookEntry(
          row.hueDiv * -1 + target[i].hueDiv, row.satDiv * -1 + target[i].satDiv,
          row.valDiv * -1 + target[i].valDiv, row.hueShift * -1.0 + target[i].hueShift,
          row.satScale * -1.0 + target[i].satScale, row.valScale * -1.0 + target[i].valScale)];
      }
    }
  }

  class DCPToneCurve {
    var size: int
    var elements: DCPToneCurveElements

    constructor (size: int, elements: DCPToneCurveElements)
      ensures this.size == size && this.elements == elements
    {
      this.size, this.elements := size, elements;
    }
  }

  /** The filter drops an element when some pair equals its (H, V) exactly. */
  predicate Ignored(e: DCPToneCurveElement, filters: seq<(real, real)>)
    ensures Ignored(e, filters) <==>
      exists j :: 0 <= j < |filters| && e.h == filters[j].0 && e.v == filters[j].1
  {
    (e.h, e.v) in filters
  }

  /** The positions of the elements the filter keeps, in increasing order. */
  function KeptPositions(s: DCPToneCurveElements, filters: seq<(real, real)>): (idx: seq<int>)
    ensures Increasing(idx, |s|)
    decreases |s|
  {
    if s == [] then []
    else
      var init := KeptPositions(s[..|s| - 1], filters);
      if Ignored(s[|s| - 1], filters) then init else init + [|s| - 1]
  }

  /** The elements the filter keeps, in their original order. */
  function FilterElements(s: DCPToneCurveElements, filters: seq<(real, real)>): (r: DCPToneCurveElements)
    ensures forall j :: 0 <= j < |r| ==> r[j] in s && !Ignored(r[j], filters)
  {
    KeptPositionsExactly(s, filters);
    Pick(s, KeptPositions(s, filters))
  }

  /** A position is kept exactly when no filter pair equals its element's (H, V). */
  lemma {:induction false} KeptPositionsExactly(s: DCPToneCurveElements, filters: seq<(real, real)>)
    ensures forall i :: 0 <= i < |s| ==> (i in KeptPositions(s, filters) <==> !Ignored(s[i], filters))
  {
    if s != [] {
      KeptPositionsExactly(s[..|s| - 1], filters);
    }
  }

  /** When no element is ignored every position is kept. */
  lemma {:induction false} KeptPositionsAll(s: DCPToneCurveElements, filters: seq<(real, real)>)
    requires forall i :: 0 <= i < |s| ==> !Ignored(s[i], filters)
    ensures KeptPositions(s, filters) == seq(|s|, i => i)
  {
    if s != [] {
      KeptPositionsAll(s[..|s| - 1], filters);
    }
  }

  /** An element is in the filtered curve exactly when it is in the curve and
      no filter pair equals its (H, V). */
  lemma FilterElementsMembers(s: DCPToneCurveElements, filters: seq<(real, real)>, e: DCPToneCurveElement)
    ensures e in FilterElements(s, filters) <==> e in s && !Ignored(e, filters)
  {
    var idx := KeptPositions(s, filters);
    KeptPositionsExactly(s, filters);
    if e in s && !Ignored(e, filters) {
      var i :| 0 <= i < |s| && s[i] == e;
      var j :| 0 <= j < |idx| && idx[j] == i;
      assert FilterElements(s, filters)[j] == e;
    }
  }

  /** With no filter pairs the curve is kept whole. */
  lemma FilterElementsNoPairs(s: DCPToneCurveElements)
    ensures FilterElements(s, []) == s
  {
    KeptPositionsAll(s, []);
  }

  /** Filtering twice with the same pairs is filtering once. */
  lemma FilterElementsIdempotent(s: DCPToneCurveElements, filters: seq<(real, real)>)
    ensures FilterElements(FilterElements(s, filters), filters) == FilterElements(s, filters)
  {
    var f := FilterElements(s, filters);
    KeptPositionsExactly(s, filters);
    forall j | 0 <= j < |f|
      ensures !Ignored(f[j], filters)
    {
      assert KeptPositions(s, filters)[j] in KeptPositions(s, filters);
    }
    KeptPositionsAll(f, filters);
  }

  /** The curve (0,0), (1,1), (2,2) filtered by the pair (1,1) keeps (0,0) and (2,2). */
  lemma FilterElementsExample()
    ensures FilterElements(
      [DCPToneCurveElement(0, 0.0, 0.0), DCPToneCurveElement(1, 1.0, 1.0), DCPToneCurveElement(2, 2.0, 2.0)],
      [(1.0, 1.0)])
      == [DCPToneCurveElement(0, 0.0, 0.0), DCPToneCurveElement(2, 2.0, 2.0)]
  {
    var s := [DCPToneCurveElement(0, 0.0, 0.0), DCPToneCurveElement(1, 1.0, 1.0), DCPToneCurveElement(2, 2.0, 2.0)];
    var f := [(1.0, 1.0)];
    assert s[..2][..1] == s[..1] && s[..1][..0] == [];
    assert !Ignored(s[0], f) && Ignored(s[1], f) && !Ignored(s[2], f);
    assert KeptPositions(s[..1], f) == [0];
    assert KeptPositions(s[..2], f) == [0];
    assert KeptPositions(s, f) == [0, 2];
  }

  /** The tone-curve correction: element i is numbered i, and adding the start's
      H and V to it gives the target's. */
  function CorrectSamples(start: DCPToneCurveElements, target: DCPToneCurveElements): (c: DCPToneCurveElements)
    requires |start| == |target|
    ensures |c| == |start|
    ensures forall i :: 0 <= i < |c| ==>
      c[i].n == i && start[i].h + c[i].h == target[i].h && start[i].v + c[i].v == target[i].v
  {
    seq(|start|, i requires 0 <= i < |start| =>
      DCPToneCurveElement(i, start[i].h * -1.0 + target[i].h, start[i].v * -1.0 + target[i].v))
  }

  /** A correction of the shape `CorrectSamples` describes is that correction. */
  lemma CorrectSamplesIsUnique(start: DCPToneCurveElements, target: DCPToneCurveElements, c: DCPToneCurveElements)
    requires |start| == |target| == |c|
    requires forall i :: 0 <= i < |c| ==>
      c[i].n == i && start[i].h + c[i].h == target[i].h && start[i].v + c[i].v == target[i].v
    ensures c == CorrectSamples(start, target)
  {
  }

  /** `DCPToneCurveElements.Filter`: keeps every element whose (H, V) matches no
      filter pair, in order. */
  method Filter(els: DCPToneCurveElements, filters: seq<(real, real)>) returns (out: DCPToneCurveElements)
    ensures out == FilterElements(els, filters)
  {
    out := [];
    for i := 0 to |els|
      invariant out == FilterElements(els[..i], filters)
    {
      var row := els[i];
      var ignore := false;
      for j := 0 to |filters|
        invariant !ignore ==> (row.h, row.v) !in filters[..j]
        invariant ignore ==> (row.h, row.v) in filters
      {
        if row.h == filters[j].0 && row.v == filters[j].1 {
          ignore := true;
          break;
        }
        assert filters[..j + 1] == filters[..j] + [filters[j]];
      }
      assert ignore == Ignored(row, filters) by {
        if !ignore {
          assert filters[..|filters|] == filters;
        }
      }
      assert els[..i + 1][..i] == els[..i];
      if !ignore {
        out := out + [row];
      }
    }
    assert els[..|els|] == els;
  }

  /** The tone-curve loop of `Diff`: element i of `curveA` is renumbered to i and
      its H and V become `(own * -1) + curveB's`. */
  method CorrectToneCurveRows(curveA: DCPToneCurveElements, curveB: DCPToneCurveElements)
    returns (c: DCPToneCurveElements)
    requires |curveA| == |curveB|
    ensures c == CorrectSamples(curveA, curveB)
  {
    c := curveA;
    for i := 0 to |c|
      invariant |c| == |curveA|
      invariant forall k :: 0 <= k < i ==> c[k] == CorrectSamples(curveA, curveB)[k]
      invariant forall k :: i <= k < |c| ==> c[k] == curveA[k]
    {
      var row := c[i];
      c := c[i := DCPToneCurveElement(i, row.h * -1.0 + curveB[i].h, row.v * -1.0 + curveB[i].v)];
    }
  }

  class DCPData {
    var profileName: string
    var calibrationIlluminant1: string
    var calibrationIlluminant2: string
    var colorMatrix1: Option<DCPColorMatrix>
    var colorMatrix2: Option<DCPColorMatrix>
    var forwardMatrix1: Option<DCPColorMatrix>
    var forwardMatrix2: Option<DCPColorMatrix>
    var reductionMatrix1: DCPReductionMatrix
    var reductionMatrix2: DCPReductionMatrix
    var copyright: string
    var embedPolicy: string
    var profileHueSatMapEncoding: string
    var lookTable: DCPLookTable?
    var toneCurve: DCPToneCurve?
    var profileCalibrationSignature: string
    var uniqueCameraModelRestriction: string
    var profileLookTableEncoding: string
    var baselineExposureOffset: string
    var defaultBlackRender: string

    /** A profile with the name and every header field of `p` and the given tables
        (what decoding the XML of `p` into `&DCPData{}` fills in). */
    constructor WithTables(p: DCPData, lookTable: DCPLookTable?, toneCurve: DCPToneCurve?)
      ensures profileName == p.profileName && SameHeader(p)
      ensures this.lookTable == lookTable && this.toneCurve == toneCurve
    {
      profileName := p.profileName;
      calibrationIlluminant1, calibrationIlluminant2 := p.calibrationIlluminant1, p.calibrationIlluminant2;
      colorMatrix1, colorMatrix2 := p.colorMatrix1, p.colorMatrix2;
      forwardMatrix1, forwardMatrix2 := p.forwardMatrix1, p.forwardMatrix2;
      reductionMatrix1, reductionMatrix2 := p.reductionMatrix1, p.reductionMatrix2;
      copyright, embedPolicy := p.copyright, p.embedPolicy;
      profileHueSatMapEncoding := p.profileHueSatMapEncoding;
      this.lookTable, this.toneCurve := lookTable, toneCurve;
      profileCalibrationSignature := p.profileCalibrationSignature;
      uniqueCameraModelRestriction := p.uniqueCameraModelRestriction;
      profileLookTableEncoding := p.profileLookTableEncoding;
      baselineExposureOffset, defaultBlackRender := p.baselineExposureOffset, p.defaultBlackRender;
    }

    /** Every field other than the name and the two tables is the same in `this` and `p`. */
    ghost predicate SameHeader(p: DCPData)
      reads this, p
    {
      calibrationIlluminant1 == p.calibrationIlluminant1 &&
      calibrationIlluminant2 == p.calibrationIlluminant2 &&
      colorMatrix1 == p.colorMatrix1 && colorMatrix2 == p.colorMatrix2 &&
      forwardMatrix1 == p.forwardMatrix1 && forwardMatrix2 == p.forwardMatrix2 &&
      reductionMatrix1 == p.reductionMatrix1 && reductionMatrix2 == p.reductionMatrix2 &&
      copyright == p.copyright && embedPolicy == p.embedPolicy &&
      profileHueSatMapEncoding == p.profileHueSatMapEncoding &&
      profileCalibrationSignature == p.profileCalibrationSignature &&
      uniqueCameraModelRestriction == p.uniqueCameraModelRestriction &&
      profileLookTableEncoding == p.profileLookTableEncoding &&
      baselineExposureOffset == p.baselineExposureOffset &&
      defaultBlackRender == p.defaultBlackRender
    }

    /** `DCPData.DeepCopy`: a new profile equal in value to this one, with new
        table objects (the source obtains it by an XML round trip). */
    method DeepCopy() returns (x: DCPData)
      ensures fresh(x) && x.profileName == profileName && x.SameHeader(this)
      ensures (x.lookTable == null) == (lookTable == null)
      ensures lookTable != null ==> (fresh(x.lookTable) &&
        x.lookTable.hueDivisions == lookTable.hueDivisions &&
        x.lookTable.satDivisions == lookTable.satDivisions &&
        x.lookTable.valDivisions == lookTable.valDivisions &&
        x.lookTable.elements == lookTable.elements)
      ensures (x.toneCurve == null) == (toneCurve == null)
      ensures toneCurve != null ==> (fresh(x.toneCurve) &&
        x.toneCurve.size == toneCurve.size && x.toneCurve.elements == toneCurve.elements)
    {
      var lt: DCPLookTable? := null;
      if lookTable != null {
        lt := new DCPLookTable(lookTable.hueDivisions, lookTable.satDivisions, lookTable.valDivisions,
          lookTable.elements);
      }
      var tc: DCPToneCurve? := null;
      if toneCurve != null {
        tc := new DCPToneCurve(toneCurve.size, toneCurve.elements);
      }
      x := new DCPData.WithTables(this, lt, tc);
    }

    /** `DCPData.Diff`: the correction profile from this (start) profile to `other`.
        The source dereferences both look tables once `other` is present, and both
        tone curves once the look tables have equal lengths and the tone curve is
        not skipped, without a check; those are the two requires. */
    method Diff(other: DCPData?, skipToneCurve: bool, ignoreToneCurveValues: seq<(real, real)>)
      returns (r: Result<DCPData>)
      requires other != null ==> lookTable != null && other.lookTable != null
      requires (other != null && |lookTable.elements| == |other.lookTable.elements| && !skipToneCurve) ==>
        toneCurve != null && other.toneCurve != null
      // the three errors, in the order the source checks them
      ensures other == null ==> r == Err("other profile is nil")
      ensures other != null && |lookTable.elements| != |other.lookTable.elements| ==>
        r == Err("ProfileLookTable length mismatch")
      ensures (other != null && |lookTable.elements| == |other.lookTable.elements| && !skipToneCurve &&
               |FilterElements(toneCurve.elements, ignoreToneCurveValues)| !=
               |FilterElements(other.toneCurve.elements, ignoreToneCurveValues)|) ==>
        r == Err("ProfileToneCurve length mismatch")
      ensures r.Ok? <==>
        (other != null && |lookTable.elements| == |other.lookTable.elements| &&
         (!skipToneCurve ==>
            |FilterElements(toneCurve.elements, ignoreToneCurveValues)| ==
            |FilterElements(other.toneCurve.elements, ignoreToneCurveValues)|))
      // the result: a new name, the header of the start profile, corrected cells
      ensures r.Ok? ==> (other != null &&
        r.value.profileName == "Correct " + profileName + " to " + other.profileName)
      ensures r.Ok? ==> r.value.SameHeader(this)
      ensures r.Ok? ==> (other != null && r.value.lookTable != null &&
        r.value.lookTable.hueDivisions == lookTable.hueDivisions &&
        r.value.lookTable.satDivisions == lookTable.satDivisions &&
        r.value.lookTable.valDivisions == lookTable.valDivisions &&
        r.value.lookTable.elements == CorrectCells(lookTable.elements, other.lookTable.elements))
      // a skipped tone curve is the start's; otherwise it holds the filtered corrections
      ensures r.Ok? && skipToneCurve ==> (r.value.toneCurve == null <==> toneCurve == null)
      ensures r.Ok? && skipToneCurve && toneCurve != null ==> (r.value.toneCurve != null &&
        r.value.toneCurve.size == toneCurve.size && r.value.toneCurve.elements == toneCurve.elements)
      ensures r.Ok? && !skipToneCurve ==> (other != null && r.value.toneCurve != null &&
        r.value.toneCurve.size == toneCurve.size &&
        r.value.toneCurve.elements == CorrectSamples(
          FilterElements(toneCurve.elements, ignoreToneCurveValues),
          FilterElements(other.toneCurve.elements, ignoreToneCurveValues)))
      // the result is made of new objects only, so it shares none with either input
      ensures r.Ok? ==> fresh(r.value) && fresh(r.value.lookTable)
      ensures r.Ok? && r.value.toneCurve != null ==> fresh(r.value.toneCurve)
    {
      if other == null {
        return Err("other profile is nil");
      }
      var n := DeepCopy();
      n.profileName := "Correct " + profileName + " to " + other.profileName;
      if |n.lookTable.elements| != |other.lookTable.elements| {
        return Err("ProfileLookTable length mismatch");
      }
      n.lookTable.CorrectRows(other.lookTable.elements);
      if skipToneCurve {
        return Ok(n);
      }
      var curveA := Filter(n.toneCurve.elements, ignoreToneCurveValues);
      var curveB := Filter(other.toneCurve.elements, ignoreToneCurveValues);
      if |curveA| != |curveB| {
        return Err("ProfileToneCurve length mismatch");
      }
      curveA := CorrectToneCurveRows(curveA, curveB);
      n.toneCurve.elements := curveA;
      return Ok(n);
    }
  }
}
