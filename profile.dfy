/** The JSON camera profile of lut/profile.go and its diff engine. The profile is
    a pointer in the Go code and a class here; its look-table rows and tone-curve
    points are values (see the README). */
module JsonProfile {
  import opened LutCommon

  /** One row of the look table: HueDiv, SatDiv, ValDiv, HueShift, SatScale, ValScale. */
  type LookupRow = LookEntry

  /** One point of the tone curve, a `[2]float64`. */
  type CurvePoint = (real, real)

  /** The filter drops a point when SOME pair differs from it in BOTH coordinates. */
  predicate Dropped(row: CurvePoint, filters: seq<CurvePoint>)
    ensures !Dropped(row, filters) <==>
      forall j :: 0 <= j < |filters| ==> row.0 == filters[j].0 || row.1 == filters[j].1
  {
    exists j :: 0 <= j < |filters| && row.0 != filters[j].0 && row.1 != filters[j].1
  }

  /** The positions of the points the filter keeps, in increasing order. */
  function ProfileKeptPositions(curve: seq<CurvePoint>, filters: seq<CurvePoint>): (idx: seq<int>)
    ensures Increasing(idx, |curve|)
    decreases |curve|
  {
    if curve == [] then []
    else
      var init := ProfileKeptPositions(curve[..|curve| - 1], filters);
      if Dropped(curve[|curve| - 1], filters) then init else init + [|curve| - 1]
  }

  /** The points the filter keeps, in their original order. */
  function FilterPoints(curve: seq<CurvePoint>, filters: seq<CurvePoint>): (r: seq<CurvePoint>)
    ensures forall j :: 0 <= j < |r| ==> r[j] in curve && !Dropped(r[j], filters)
  {
    ProfileKeptPositionsExactly(curve, filters);
    Pick(curve, ProfileKeptPositions(curve, filters))
  }

  /** A position is kept exactly when every filter pair agrees with its point in
      at least one coordinate. */
  lemma {:induction false} ProfileKeptPositionsExactly(curve: seq<CurvePoint>, filters: seq<CurvePoint>)
    ensures forall i :: 0 <= i < |curve| ==>
      (i in ProfileKeptPositions(curve, filters) <==>
       forall j :: 0 <= j < |filters| ==> curve[i].0 == filters[j].0 || curve[i].1 == filters[j].1)
  {
    if curve != [] {
      ProfileKeptPositionsExactly(curve[..|curve| - 1], filters);
    }
  }

  /** When no point is dropped every position is kept. */
  lemma {:induction false} ProfileKeptPositionsAll(curve: seq<CurvePoint>, filters: seq<CurvePoint>)
    requires forall i :: 0 <= i < |curve| ==> !Dropped(curve[i], filters)
    ensures ProfileKeptPositions(curve, filters) == seq(|curve|, i => i)
  {
    if curve != [] {
      ProfileKeptPositionsAll(curve[..|curve| - 1], filters);
    }
  }

  /** A point is in the filtered curve exactly when it is in the curve and no
      filter pair differs from it in both coordinates. */
  lemma FilterPointsMembers(curve: seq<CurvePoint>, filters: seq<CurvePoint>, p: CurvePoint)
    ensures p in FilterPoints(curve, filters) <==> p in curve && !Dropped(p, filters)
  {
    var idx := ProfileKeptPositions(curve, filters);
    ProfileKeptPositionsExactly(curve, filters);
    if p in curve && !Dropped(p, filters) {
      var i :| 0 <= i < |curve| && curve[i] == p;
      var k :| 0 <= k < |idx| && idx[k] == i;
      assert FilterPoints(curve, filters)[k] == p;
    }
  }

  /** With no filter pairs the curve is kept whole. */
  lemma FilterPointsNoPairs(curve: seq<CurvePoint>)
    ensures FilterPoints(curve, []) == curve
  {
    ProfileKeptPositionsAll(curve, []);
  }

  /** Filtering twice with the same pairs is filtering once. */
  lemma FilterPointsIdempotent(curve: seq<CurvePoint>, filters: seq<CurvePoint>)
    ensures FilterPoints(FilterPoints(curve, filters), filters) == FilterPoints(curve, filters)
  {
    var f := FilterPoints(curve, filters);
    ProfileKeptPositionsExactly(curve, filters);
    forall k | 0 <= k < |f|
      ensures !Dropped(f[k], filters)
    {
      assert ProfileKeptPositions(curve, filters)[k] in ProfileKeptPositions(curve, filters);
    }
    ProfileKeptPositionsAll(f, filters);
  }

  /** A filter pair is never dropped by itself: with a single pair, the point equal
      to it is kept (the opposite of what the XML profile's filter does with it). */
  lemma FilterPointsKeepsItsPair(curve: seq<CurvePoint>, p: CurvePoint)
    ensures p in curve ==> p in FilterPoints(curve, [p])
  {
    if p in curve {
      var i :| 0 <= i < |curve| && curve[i] == p;
      var idx := ProfileKeptPositions(curve, [p]);
      ProfileKeptPositionsExactly(curve, [p]);
      var k :| 0 <= k < |idx| && idx[k] == i;
      assert FilterPoints(curve, [p])[k] == p;
    }
  }

  /** The curve (0,0), (1,1), (2,2) filtered by the pair (1,1) keeps only (1,1). */
  lemma FilterPointsExample()
    ensures FilterPoints([(0.0, 0.0), (1.0, 1.0), (2.0, 2.0)], [(1.0, 1.0)]) == [(1.0, 1.0)]
  {
    var c: seq<CurvePoint> := [(0.0, 0.0), (1.0, 1.0), (2.0, 2.0)];
    var f: seq<CurvePoint> := [(1.0, 1.0)];
    assert c[..2][..1] == c[..1] && c[..1][..0] == [];
    assert Dropped(c[0], f) && !Dropped(c[1], f) && Dropped(c[2], f) by {
      assert c[1].0 == f[0].0;
    }
    assert ProfileKeptPositions(c[..1], f) == [];
    assert ProfileKeptPositions(c[..2], f) == [1];
    assert ProfileKeptPositions(c, f) == [1];
  }

  /** The tone-curve correction: adding the start point to it gives the target
      point, in both coordinates. */
  function CorrectPoints(start: seq<CurvePoint>, target: seq<CurvePoint>): (c: seq<CurvePoint>)
    requires |start| == |target|
    ensures |c| == |start|
    ensures forall i :: 0 <= i < |c| ==> start[i].0 + c[i].0 == target[i].0 && start[i].1 + c[i].1 == target[i].1
  {
    seq(|start|, i requires 0 <= i < |start| =>
      (start[i].0 * -1.0 + target[i].0, start[i].1 * -1.0 + target[i].1))
  }

  /** `filterToneCurve`: keeps every point that no filter pair differs from in
      both coordinates, in order. */
  method FilterToneCurve(curve: seq<CurvePoint>, filters: seq<CurvePoint>) returns (out: seq<CurvePoint>)
    ensures out == FilterPoints(curve, filters)
  {
    out := [];
    for i := 0 to |curve|
      invariant out == FilterPoints(curve[..i], filters)
    {
      var row := curve[i];
      var ignore := false;
      for j := 0 to |filters|
        invariant !ignore ==> forall k :: 0 <= k < j ==> row.0 == filters[k].0 || row.1 == filters[k].1
        invariant ignore ==> Dropped(row, filters)
      {
        if row.0 != filters[j].0 && row.1 != filters[j].1 {
          ignore := true;
          break;
        }
      }
      assert curve[..i + 1][..i] == curve[..i];
      if !ignore {
        out := out + [row];
      }
    }
    assert curve[..|curve|] == curve;
  }

  /** The tone-curve loop of `Profile.Diff`: every coordinate of `curveA` becomes
      `(own * -1) + curveB's`. */
  method CorrectToneCurvePoints(curveA: seq<CurvePoint>, curveB: seq<CurvePoint>) returns (c: seq<CurvePoint>)
    requires |curveA| == |curveB|
    ensures c == CorrectPoints(curveA, curveB)
  {
    c := curveA;
    for i := 0 to |c|
      invariant |c| == |curveA|
      invariant forall k :: 0 <= k < i ==> c[k] == CorrectPoints(curveA, curveB)[k]
      invariant forall k :: i <= k < |c| ==> c[k] == curveA[k]
    {
      var row := c[i];
      for j := 0 to 2
        invariant |c| == |curveA|
        invariant forall k :: 0 <= k < i ==> c[k] == CorrectPoints(curveA, curveB)[k]
        invariant forall k :: i < k < |c| ==> c[k] == curveA[k]
        invariant c[i] == (if j > 0 then row.0 * -1.0 + curveB[i].0 else row.0,
                           if j > 1 then row.1 * -1.0 + curveB[i].1 else row.1)
      {
        if j == 0 {
          c := c[i := (row.0 * -1.0 + curveB[i].0, c[i].1)];
        } else {
          c := c[i := (c[i].0, row.1 * -1.0 + curveB[i].1)];
        }
      }
    }
  }

  class Profile {
    var uniqueCameraModel: string
    var profileName: string
    var profileCopyright: string
    var profileEmbedPolicy: string
    var profileCalibrationSignature: string
    var calibrationIlluminant1: string
    var calibrationIlluminant2: string
    var colorMatrix1: seq<(real, real, real)>
    var colorMatrix2: seq<(real, real, real)>
    var forwardMatrix1: seq<(real, real, real)>
    var forwardMatrix2: seq<(real, real, real)>
    var defaultBlackRender: string
    var baselineExposureOffset: real
    var profileLookTableDims: seq<int>
    var profileLookTableEncoding: string
    var profileLookTable: seq<LookupRow>
    var profileToneCurve: seq<CurvePoint>

    /** A profile equal in every field to `p` (what decoding the JSON of `p` into
        `&Profile{}` fills in). */
    constructor Copy(p: Profile)
      ensures profileName == p.profileName && SameHeader(p)
      ensures profileLookTable == p.profileLookTable && profileToneCurve == p.profileToneCurve
    {
      uniqueCameraModel, profileName := p.uniqueCameraModel, p.profileName;
      profileCopyright, profileEmbedPolicy := p.profileCopyright, p.profileEmbedPolicy;
      profileCalibrationSignature := p.profileCalibrationSignature;
      calibrationIlluminant1, calibrationIlluminant2 := p.calibrationIlluminant1, p.calibrationIlluminant2;
      colorMatrix1, colorMatrix2 := p.colorMatrix1, p.colorMatrix2;
      forwardMatrix1, forwardMatrix2 := p.forwardMatrix1, p.forwardMatrix2;
      defaultBlackRender, baselineExposureOffset := p.defaultBlackRender, p.baselineExposureOffset;
      profileLookTableDims, profileLookTableEncoding := p.profileLookTableDims, p.profileLookTableEncoding;
      profileLookTable, profileToneCurve := p.profileLookTable, p.profileToneCurve;
    }

    /** Every field other than the name, the look table and the tone curve is the
        same in `this` and `p`. */
    ghost predicate SameHeader(p: Profile)
      reads this, p
    {
      uniqueCameraModel == p.uniqueCameraModel &&
      profileCopyright == p.profileCopyright && profileEmbedPolicy == p.profileEmbedPolicy &&
      profileCalibrationSignature == p.profileCalibrationSignature &&
      calibrationIlluminant1 == p.calibrationIlluminant1 &&
      calibrationIlluminant2 == p.calibrationIlluminant2 &&
      colorMatrix1 == p.colorMatrix1 && colorMatrix2 == p.colorMatrix2 &&
      forwardMatrix1 == p.forwardMatrix1 && forwardMatrix2 == p.forwardMatrix2 &&
      defaultBlackRender == p.defaultBlackRender &&
      baselineExposureOffset == p.baselineExposureOffset &&
      profileLookTableDims == p.profileLookTableDims &&
      profileLookTableEncoding == p.profileLookTableEncoding
    }

    /** `Profile.DeepCopy`: a new profile equal in value to this one (the source
        obtains it by a JSON round trip). */
    method DeepCopy() returns (x: Profile)
      ensures fresh(x) && x.profileName == profileName && x.SameHeader(this)
      ensures x.profileLookTable == profileLookTable && x.profileToneCurve == profileToneCurve
    {
      x := new Profile.Copy(this);
    }

    /** The look-table loop of `Profile.Diff`: every row is overwritten, field by
        field, with `(row * -1) + target row` at the same position. */
    method CorrectLookTable(target: seq<LookupRow>)
      requires |profileLookTable| == |target|
      modifies this`profileLookTable
      ensures profileLookTable == CorrectCells(old(profileLookTable), target)
    {
      for i := 0 to |profileLookTable|
        invariant |profileLookTable| == |target|
        invariant forall k :: 0 <= k < i ==> profileLookTable[k] == Delta(old(profileLookTable[k]), target[k])
        invariant forall k :: i <= k < |profileLookTable| ==> profileLookTable[k] == old(profileLookTable[k])
      {
        var row := profileLookTable[i];
        profileLookTable := profileLookTable[i := LookEntry(
          row.hueDiv * -1 + target[i].hueDiv, row.satDiv * -1 + target[i].satDiv,
          row.valDiv * -1 + target[i].valDiv, row.hueShift * -1.0 + target[i].hueShift,
          row.satScale * -1.0 + target[i].satScale, row.valScale * -1.0 + target[i].valScale)];
      }
    }

    /** `Profile.Diff`: the correction profile from this (start) profile to `other`.
        The tone-curve corrections are computed into a filtered copy that is never
        stored, so the result keeps the start's tone curve; the filtered lengths
        still decide the third error. */
    method Diff(other: Profile?, ignoreToneCurveValues: seq<CurvePoint>) returns (r: Result<Profile>)
      // the three errors, in the order the source checks them
      ensures other == null ==> r == Err("other profile is nil")
      ensures other != null && |profileLookTable| != |other.profileLookTable| ==>
        r == Err("ProfileLookTable length mismatch")
      ensures (other != null && |profileLookTable| == |other.profileLookTable| &&
               |FilterPoints(profileToneCurve, ignoreToneCurveValues)| !=
               |FilterPoints(other.profileToneCurve, ignoreToneCurveValues)|) ==>
        r == Err("ProfileToneCurve length mismatch")
      ensures r.Ok? <==>
        (other != null && |profileLookTable| == |other.profileLookTable| &&
         |FilterPoints(profileToneCurve, ignoreToneCurveValues)| ==
         |FilterPoints(other.profileToneCurve, ignoreToneCurveValues)|)
      // the result: a new name, the header of the start profile, corrected rows,
      // and the start's tone curve unchanged
      ensures r.Ok? ==> (other != null &&
        r.value.profileName == "Correct " + profileName + " to " + other.profileName)
      ensures r.Ok? ==> r.value.SameHeader(this)
      ensures r.Ok? ==> (other != null &&
        r.value.profileLookTable == CorrectCells(profileLookTable, other.profileLookTable))
      ensures r.Ok? ==> r.value.profileToneCurve == profileToneCurve
      // the result is a new object, so it shares none with either input
      ensures r.Ok? ==> fresh(r.value)
    {
      if other == null {
        return Err("other profile is nil");
      }
      var n := DeepCopy();
      n.profileName := "Correct " + profileName + " to " + other.profileName;
      if |n.profileLookTable| != |other.profileLookTable| {
        return Err("ProfileLookTable length mismatch");
      }
      n.CorrectLookTable(other.profileLookTable);
      var curveA := FilterToneCurve(n.profileToneCurve, ignoreToneCurveValues);
      var curveB := FilterToneCurve(other.profileToneCurve, ignoreToneCurveValues);
      if |curveA| != |curveB| {
        return Err("ProfileToneCurve length mismatch");
      }
      curveA := CorrectToneCurvePoints(curveA, curveB);
      return Ok(n);
    }
  }
}
