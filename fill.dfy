/**
 * Filling the event's output: for every accepted fitted track, a detector
 * info record (number of points, first and last point), a global track (length,
 * seed quality, truth, fit traits, flag) on a new track node. The helix
 * geometry of the output tracks is not modelled.
 */
module Fill {
  import opened Wrappers
  import opened CppArith
  import opened Truth
  import opened FitTrack
  import opened GeomUtils

  /** The type of an output track. */
  datatype TrackType = Global | Primary | OtherType

  /**
   * `FillTrackFlags`: the flag of a good fit (status digits 01) with the
   * detector digit 5 (sTGC) for a global track and 6 (sTGC plus primary
   * vertex) for a primary one; 0 for any other type.
   */
  function TrackFlag(t: TrackType): (flag: int)
    ensures flag == 501 || flag == 601 || flag == 0
  {
    if t == Global then 501 else if t == Primary then 601 else 0
  }

  /** The flag encodes a good fit and the detectors used, and is 0 exactly for other types. */
  lemma FlagEncoding(t: TrackType)
    ensures TrackFlag(t) == 0 <==> t == OtherType
    ensures TrackFlag(t) != 0 ==> TrackFlag(t) % 100 == 1
    ensures TrackFlag(t) / 100 == 5 <==> t == Global
    ensures TrackFlag(t) / 100 == 6 <==> t == Primary
  {
  }

  // ---------------------------------------------------------------------
  // Fit traits

  /** The slot of entry (i, j), i <= j, of a symmetric matrix packed by columns of its upper triangle. */
  function Slot(i: int, j: int): int
  {
    j * (j + 1) / 2 + i
  }

  /** The 15 packed entries of a symmetric 5x5 covariance, in the order `FillTrackFitTraits` writes them. */
  function PackCov(m: Mat5): (c: seq<real>)
    ensures |c| == 15
  {
    [m[0][0],
     m[0][1], m[1][1],
     m[0][2], m[1][2], m[2][2],
     m[0][3], m[1][3], m[2][3], m[3][3],
     m[0][4], m[1][4], m[2][4], m[3][4], m[4][4]]
  }

  /**
   * The packing as `FillTrackFitTraits` writes it: fifteen stores, slot by slot, into
   * a zeroed local buffer of fifteen entries.
   */
  method FillCovM(m: Mat5) returns (covM: seq<real>)
    ensures covM == PackCov(m)
  {
    covM := seq(15, _ => 0.0);
    var r0, r1, r2, r3, r4 := m[0], m[1], m[2], m[3], m[4];
    covM := covM[0 := r0[0]];
    covM := covM[1 := r0[1]];
    covM := covM[2 := r1[1]];
    covM := covM[3 := r0[2]];
    covM := covM[4 := r1[2]];
    covM := covM[5 := r2[2]];
    covM := covM[6 := r0[3]];
    covM := covM[7 := r1[3]];
    covM := covM[8 := r2[3]];
    covM := covM[9 := r3[3]];
    covM := covM[10 := r0[4]];
    covM := covM[11 := r1[4]];
    covM := covM[12 := r2[4]];
    covM := covM[13 := r3[4]];
    covM := covM[14 := r4[4]];
  }

  /** Entry (i, j) with i <= j sits in slot j(j+1)/2 + i. */
  lemma PackCovSlots(m: Mat5)
    ensures forall i, j :: 0 <= i <= j < 5 ==> PackCov(m)[Slot(i, j)] == m[i][j]
  {
    forall i, j | 0 <= i <= j < 5
      ensures PackCov(m)[Slot(i, j)] == m[i][j]
    {
      assert j == 0 || j == 1 || j == 2 || j == 3 || j == 4;
    }
  }

  /** The entry sitting in slot k. */
  function Unslot(k: int): (ij: (int, int))
    requires 0 <= k < 15
  {
    if k < 1 then (k, 0)
    else if k < 3 then (k - 1, 1)
    else if k < 6 then (k - 3, 2)
    else if k < 10 then (k - 6, 3)
    else (k - 10, 4)
  }

  /** The packing fills each of its 15 slots with exactly one upper-triangle entry. */
  lemma SlotBijection()
    ensures forall i, j :: 0 <= i <= j < 5 ==> 0 <= Slot(i, j) < 15 && Unslot(Slot(i, j)) == (i, j)
    ensures forall k :: 0 <= k < 15 ==> 0 <= Unslot(k).0 <= Unslot(k).1 < 5 && Slot(Unslot(k).0, Unslot(k).1) == k
  {
    forall i, j | 0 <= i <= j < 5
      ensures 0 <= Slot(i, j) < 15 && Unslot(Slot(i, j)) == (i, j)
    {
      assert j == 0 || j == 1 || j == 2 || j == 3 || j == 4;
    }
  }

  /** The points of a track all have a raw measurement from a detector id in [0, numDetIds). */
  predicate MeasuredIn(points: seq<TrackPoint>, numDetIds: nat)
  {
    forall i :: 0 <= i < |points| ==>
      points[i].measurement.Some? && 0 <= points[i].measurement.value.detId < numDetIds
  }

  /** Number of points measured by detector `d`. */
  function DetCount(points: seq<TrackPoint>, d: int): (n: nat)
    ensures n <= |points|
  {
    if points == [] then 0
    else
      var p := points[|points| - 1];
      DetCount(points[..|points| - 1], d) + (if p.measurement.Some? && p.measurement.value.detId == d then 1 else 0)
  }

  /** The per-detector counts of detectors 0..n-1, summed. */
  function CountsBelow(points: seq<TrackPoint>, n: nat): nat
  {
    if n == 0 then 0 else CountsBelow(points, n - 1) + DetCount(points, n - 1)
  }

  lemma {:induction false} CountsBelowSnoc(points: seq<TrackPoint>, p: TrackPoint, n: nat)
    ensures CountsBelow(points + [p], n) == CountsBelow(points, n) +
      (if p.measurement.Some? && 0 <= p.measurement.value.detId < n then 1 else 0)
  {
    assert (points + [p])[..|points + [p]| - 1] == points;
    if n > 0 {
      CountsBelowSnoc(points, p, n - 1);
    }
  }

  /** When every point is measured by a known detector, the per-detector counts add up to the number of points. */
  lemma {:induction false} DetCountsSum(points: seq<TrackPoint>, numDetIds: nat)
    requires MeasuredIn(points, numDetIds)
    ensures CountsBelow(points, numDetIds) == |points|
  {
    if points == [] {
      CountsBelowEmpty(numDetIds);
    } else {
      var init := points[..|points| - 1];
      assert MeasuredIn(init, numDetIds) by {
        forall i | 0 <= i < |init| ensures init[i] == points[i] { }
      }
      DetCountsSum(init, numDetIds);
      assert points == init + [points[|points| - 1]];
      CountsBelowSnoc(init, points[|points| - 1], numDetIds);
    }
  }

  lemma {:induction false} CountsBelowEmpty(n: nat)
    ensures CountsBelow([], n) == 0
  {
    if n > 0 {
      CountsBelowEmpty(n - 1);
    }
  }

  /** The fit points recorded per detector: only detectors with a nonzero count, each as an `unsigned char`. */
  function FitPointsOf(points: seq<TrackPoint>, numDetIds: nat): map<int, int>
  {
    map d | 0 <= d < numDetIds && DetCount(points, d) > 0 :: ToUChar(DetCount(points, d))
  }

  /** The fit traits of an output track. */
  datatype FitTraits = FitTraits(
    pidHypothesis: int,
    chi2: Option<real>,
    chi2Vertex: real,
    covM: seq<real>,
    fitPoints: map<int, int>,
    primaryVertexUsed: bool)

  /** What filling the fit traits reads of a track with a fit status. */
  predicate FitTraitsReady(t: Trajectory, numDetIds: nat)
  {
    |t.points| > 0 && t.points[0].fitterInfo.Some? && MeasuredIn(t.points, numDetIds)
  }

  /** chi2 per degree of freedom, with the degrees of freedom truncated to `int`; none when they are 0. */
  function ChiPerNdf(st: FitStatus): (r: Option<real>)
    ensures r.None? <==> TruncReal(st.ndf) == 0
    ensures r.Some? ==> r.value * TruncReal(st.ndf) as real == st.chi2
  {
    var ndf := TruncReal(st.ndf);
    if ndf == 0 then None else Some(st.chi2 / ndf as real)
  }

  /**
   * The fit traits `FillTrackFitTraits` sets: none without a fit status;
   * otherwise particle hypothesis 6, chi2 per degree of freedom, vertex chi2
   * -999, the packed covariance at the first point, the nonzero
   * per-detector point counts and the primary-vertex flag of a primary track.
   */
  function FitTraitsOf(t: Trajectory, ttype: TrackType, numDetIds: nat): Option<FitTraits>
    requires t.status.Some? ==> FitTraitsReady(t, numDetIds)
  {
    if t.status.None? then None
    else
      Some(FitTraits(6, ChiPerNdf(t.status.value), -999.0, PackCov(t.points[0].fitterInfo.value.cov),
                     FitPointsOf(t.points, numDetIds), ttype == Primary))
  }

  /** A detector has recorded fit points iff it measured a point of the track, and then it records their count. */
  lemma FitPointsExact(t: Trajectory, ttype: TrackType, numDetIds: nat)
    requires t.status.Some? && FitTraitsReady(t, numDetIds)
    ensures var f := FitTraitsOf(t, ttype, numDetIds).value.fitPoints;
      && (forall d :: d in f <==> 0 <= d < numDetIds && exists i :: 0 <= i < |t.points| && t.points[i].measurement.value.detId == d)
      && (forall d :: d in f ==> f[d] == ToUChar(DetCount(t.points, d)) && (DetCount(t.points, d) < 256 ==> f[d] == DetCount(t.points, d)))
  {
    forall d ensures DetCount(t.points, d) > 0 <==> exists i :: 0 <= i < |t.points| && t.points[i].measurement.value.detId == d {
      DetCountPositive(t.points, numDetIds, d);
    }
  }

  lemma {:induction false} DetCountPositive(points: seq<TrackPoint>, numDetIds: nat, d: int)
    requires MeasuredIn(points, numDetIds)
    ensures DetCount(points, d) > 0 <==> exists i :: 0 <= i < |points| && points[i].measurement.value.detId == d
  {
    if points != [] {
      var init := points[..|points| - 1];
      assert MeasuredIn(init, numDetIds) by {
        forall i | 0 <= i < |init| ensures init[i] == points[i] { }
      }
      DetCountPositive(init, numDetIds, d);
      if exists i :: 0 <= i < |init| && init[i].measurement.value.detId == d {
        var i :| 0 <= i < |init| && init[i].measurement.value.detId == d;
        assert points[i] == init[i];
      }
      if exists i :: 0 <= i < |points| && points[i].measurement.value.detId == d {
        var i :| 0 <= i < |points| && points[i].measurement.value.detId == d;
        if i < |init| {
          assert init[i] == points[i];
        }
      }
    }
  }

  /** The loop counting points per detector, into a zero-initialised array. */
  method CountHits(points: seq<TrackPoint>, numDetIds: nat) returns (nhits: array<int>)
    requires MeasuredIn(points, numDetIds)
    ensures fresh(nhits) && nhits.Length == numDetIds
    ensures forall d :: 0 <= d < numDetIds ==> nhits[d] == DetCount(points, d)
  {
    nhits := new int[numDetIds](_ => 0);
    for i := 0 to |points|
      invariant forall d :: 0 <= d < numDetIds ==> nhits[d] == DetCount(points[..i], d)
    {
      assert points[..i + 1][..i] == points[..i];
      var detId := points[i].measurement.value.detId;
      nhits[detId] := nhits[detId] + 1;
    }
    assert points[..|points|] == points;
  }

  /** The loop recording the nonzero counts, each cast to `unsigned char`. */
  method CollectFitPoints(nhits: seq<int>) returns (fitPoints: map<int, int>)
    ensures fitPoints == map d | 0 <= d < |nhits| && nhits[d] != 0 :: ToUChar(nhits[d])
  {
    fitPoints := map[];
    for d := 0 to |nhits|
      invariant fitPoints == map e | 0 <= e < d && nhits[e] != 0 :: ToUChar(nhits[e])
    {
      if nhits[d] != 0 {
        fitPoints := fitPoints[d := ToUChar(nhits[d])];
      }
    }
  }

  /** `FillTrackFitTraits` */
  method FillTrackFitTraits(t: Trajectory, ttype: TrackType, numDetIds: nat) returns (traits: Option<FitTraits>)
    requires t.status.Some? ==> FitTraitsReady(t, numDetIds)
    ensures traits == FitTraitsOf(t, ttype, numDetIds)
  {
    if t.status.None? {
      return None;
    }
    var chi2 := ChiPerNdf(t.status.value);
    var covM := FillCovM(t.points[0].fitterInfo.value.cov);

    var nhits := CountHits(t.points, numDetIds);
    var fitPoints := CollectFitPoints(nhits[..]);
    assert fitPoints == FitPointsOf(t.points, numDetIds);
    traits := Some(FitTraits(6, chi2, -999.0, covM, fitPoints, ttype == Primary));
  }

  // ---------------------------------------------------------------------
  // Detector info

  datatype Point3 = Point3(x: real, y: real, z: real)

  /** First and last point and the number of points of a track. */
  datatype DetectorInfo = DetectorInfo(firstPoint: Point3, lastPoint: Point3, numberOfPoints: int)

  /** The z the first and last points start from: beyond any detector. */
  const FarZ: real := 9000000000.0

  /** A point counts for the detector info when it has a raw measurement and fitter information. */
  predicate Usable(p: TrackPoint)
  {
    p.measurement.Some? && p.fitterInfo.Some?
  }

  /** The raw hit position of a usable point, with z from its detector plane. */
  function At(p: TrackPoint): Point3
    requires Usable(p)
  {
    Point3(p.measurement.value.x, p.measurement.value.y, p.fitterInfo.value.planeZ)
  }

  function NumUsable(points: seq<TrackPoint>): (n: nat)
    ensures n <= |points|
  {
    if points == [] then 0
    else NumUsable(points[..|points| - 1]) + (if Usable(points[|points| - 1]) then 1 else 0)
  }

  /** Among the first n points, the usable point i has the smallest z (below FarZ), and no earlier one has it. */
  ghost predicate IsFirstAt(points: seq<TrackPoint>, n: int, i: int)
    requires 0 <= n <= |points|
  {
    && 0 <= i < n && Usable(points[i]) && At(points[i]).z < FarZ
    && (forall j :: 0 <= j < n && Usable(points[j]) ==> At(points[i]).z <= At(points[j]).z)
    && (forall j :: 0 <= j < i && Usable(points[j]) ==> At(points[i]).z < At(points[j]).z)
  }

  /** Among the first n points, the usable point i has the largest z (above -FarZ), and no earlier one has it. */
  ghost predicate IsLastAt(points: seq<TrackPoint>, n: int, i: int)
    requires 0 <= n <= |points|
  {
    && 0 <= i < n && Usable(points[i]) && At(points[i]).z > -FarZ
    && (forall j :: 0 <= j < n && Usable(points[j]) ==> At(points[j]).z <= At(points[i]).z)
    && (forall j :: 0 <= j < i && Usable(points[j]) ==> At(points[j]).z < At(points[i]).z)
  }

  /** The first point of the detector info: the earliest usable point of least z, or (0, 0, FarZ) if none lies below FarZ. */
  ghost predicate IsFirstPoint(points: seq<TrackPoint>, fp: Point3)
  {
    || (exists i :: IsFirstAt(points, |points|, i) && fp == At(points[i]))
    || ((forall j :: 0 <= j < |points| && Usable(points[j]) ==> At(points[j]).z >= FarZ) && fp == Point3(0.0, 0.0, FarZ))
  }

  /** The last point of the detector info: the earliest usable point of greatest z, or (0, 0, -FarZ) if none lies above -FarZ. */
  ghost predicate IsLastPoint(points: seq<TrackPoint>, lp: Point3)
  {
    || (exists i :: IsLastAt(points, |points|, i) && lp == At(points[i]))
    || ((forall j :: 0 <= j < |points| && Usable(points[j]) ==> At(points[j]).z <= -FarZ) && lp == Point3(0.0, 0.0, -FarZ))
  }

  /** The first point is determined by the track. */
  lemma FirstPointUnique(points: seq<TrackPoint>, a: Point3, b: Point3)
    requires IsFirstPoint(points, a) && IsFirstPoint(points, b)
    ensures a == b
  {
    if exists i :: IsFirstAt(points, |points|, i) {
      var i :| IsFirstAt(points, |points|, i) && a == At(points[i]);
      var k :| IsFirstAt(points, |points|, k) && b == At(points[k]);
      FirstAtUnique(points, i, k);
    }
  }

  lemma FirstAtUnique(points: seq<TrackPoint>, i: int, k: int)
    requires IsFirstAt(points, |points|, i) && IsFirstAt(points, |points|, k)
    ensures i == k
  {
  }

  /** The last point is determined by the track. */
  lemma LastPointUnique(points: seq<TrackPoint>, a: Point3, b: Point3)
    requires IsLastPoint(points, a) && IsLastPoint(points, b)
    ensures a == b
  {
    if exists i :: IsLastAt(points, |points|, i) {
      var i :| IsLastAt(points, |points|, i) && a == At(points[i]);
      var k :| IsLastAt(points, |points|, k) && b == At(points[k]);
      LastAtUnique(points, i, k);
    }
  }

  lemma LastAtUnique(points: seq<TrackPoint>, i: int, k: int)
    requires IsLastAt(points, |points|, i) && IsLastAt(points, |points|, k)
    ensures i == k
  {
  }

  /** For a track with a usable point strictly between -FarZ and FarZ, the first point lies no further along z than the last. */
  lemma FirstNotAfterLast(points: seq<TrackPoint>, fp: Point3, lp: Point3, j: int)
    requires IsFirstPoint(points, fp) && IsLastPoint(points, lp)
    requires 0 <= j < |points| && Usable(points[j]) && -FarZ < At(points[j]).z < FarZ
    ensures fp.z <= At(points[j]).z <= lp.z
  {
  }

  /** What the scan for the first point knows after the first n points: the candidate so far, at index fi, or none (-1). */
  ghost predicate FirstSoFar(points: seq<TrackPoint>, n: int, fi: int, first: Point3)
    requires 0 <= n <= |points|
  {
    && (fi == -1 ==>
          first == Point3(0.0, 0.0, FarZ) &&
          forall j :: 0 <= j < n && Usable(points[j]) ==> At(points[j]).z >= FarZ)
    && (fi != -1 ==> IsFirstAt(points, n, fi) && first == At(points[fi]))
  }

  /** What the scan for the last point knows after the first n points. */
  ghost predicate LastSoFar(points: seq<TrackPoint>, n: int, li: int, last: Point3)
    requires 0 <= n <= |points|
  {
    && (li == -1 ==>
          last == Point3(0.0, 0.0, -FarZ) &&
          forall j :: 0 <= j < n && Usable(points[j]) ==> At(points[j]).z <= -FarZ)
    && (li != -1 ==> IsLastAt(points, n, li) && last == At(points[li]))
  }

  /** One more point: it becomes the first-point candidate when usable with a strictly smaller z. */
  lemma FirstStep(points: seq<TrackPoint>, n: int, fi: int, first: Point3)
    requires 0 <= n < |points| && FirstSoFar(points, n, fi, first)
    ensures Usable(points[n]) && At(points[n]).z < first.z ==> FirstSoFar(points, n + 1, n, At(points[n]))
    ensures !(Usable(points[n]) && At(points[n]).z < first.z) ==> FirstSoFar(points, n + 1, fi, first)
  {
  }

  /** One more point: it becomes the last-point candidate when usable with a strictly greater z. */
  lemma LastStep(points: seq<TrackPoint>, n: int, li: int, last: Point3)
    requires 0 <= n < |points| && LastSoFar(points, n, li, last)
    ensures Usable(points[n]) && At(points[n]).z > last.z ==> LastSoFar(points, n + 1, n, At(points[n]))
    ensures !(Usable(points[n]) && At(points[n]).z > last.z) ==> LastSoFar(points, n + 1, li, last)
  {
  }

  /** After all points the candidates are the first and the last point. */
  lemma ScanComplete(points: seq<TrackPoint>, fi: int, first: Point3, li: int, last: Point3)
    requires FirstSoFar(points, |points|, fi, first) && LastSoFar(points, |points|, li, last)
    ensures IsFirstPoint(points, first) && IsLastPoint(points, last)
  {
    if fi != -1 {
      assert IsFirstAt(points, |points|, fi) && first == At(points[fi]);
    }
    if li != -1 {
      assert IsLastAt(points, |points|, li) && last == At(points[li]);
    }
  }

  /**
   * `FillDetectorInfo`: scans the usable points for the least and the
   * greatest z (the earliest point winning ties), counts them, and records
   * the track's total number of points, stored as an `unsigned char` as the
   * earlier `(unsigned char)count` store into the same setter shows. The
   * count is returned: `StFwdTrackMaker` only asserts that it is positive.
   */
  method FillDetectorInfo(t: Trajectory) returns (info: DetectorInfo, count: nat)
    ensures count == NumUsable(t.points)
    ensures IsFirstPoint(t.points, info.firstPoint)
    ensures IsLastPoint(t.points, info.lastPoint)
    ensures info.numberOfPoints == ToUChar(|t.points|)
  {
    var points := t.points;
    var ntotal := |points|;
    var first := Point3(0.0, 0.0, FarZ);
    var last := Point3(0.0, 0.0, -FarZ);
    ghost var fi := -1;
    ghost var li := -1;
    count := 0;
    for i := 0 to |points|
      invariant count == NumUsable(points[..i])
      invariant FirstSoFar(points, i, fi, first)
      invariant LastSoFar(points, i, li, last)
    {
      assert points[..i + 1][..i] == points[..i];
      FirstStep(points, i, fi, first);
      LastStep(points, i, li, last);
      var p := points[i];
      if p.measurement.Some? {
        var x := p.measurement.value.x;
        var y := p.measurement.value.y;
        if p.fitterInfo.Some? {
          var z := p.fitterInfo.value.planeZ;
          if z > last.z {
            last := Point3(x, y, z);
            li := i;
          }
          if z < first.z {
            first := Point3(x, y, z);
            fi := i;
          }
          count := count + 1;
        }
      }
    }
    assert points[..|points|] == points;
    ScanComplete(points, fi, first, li, last);
    info := DetectorInfo(first, last, ToUChar(ntotal));
  }

  /** An accepted track whose points are all measured has as many usable points as points, so the count is positive. */
  lemma {:induction false} AcceptedCountPositive(t: Trajectory)
    requires StatusReadable(t) && Accept(t)
    requires forall i :: 0 <= i < |t.points| ==> t.points[i].measurement.Some?
    ensures NumUsable(t.points) == |t.points| > 0
  {
    AcceptIff(t);
    AllUsable(t.points);
  }

  lemma {:induction false} AllUsable(points: seq<TrackPoint>)
    requires forall i :: 0 <= i < |points| ==> Usable(points[i])
    ensures NumUsable(points) == |points|
  {
    if points != [] {
      var init := points[..|points| - 1];
      assert forall i :: 0 <= i < |init| ==> init[i] == points[i];
      AllUsable(init);
    }
  }

  // ---------------------------------------------------------------------
  // Tracks and the event

  /** A global (or other) output track as the maker fills it. */
  datatype TrackRecord = TrackRecord(
    trackType: TrackType,
    length: real,
    seedQuality: int,
    possiblePoints: int,
    idTruth: int,
    qaTruth: int,
    innerZ: real,
    outerZ: real,
    fitTraits: Option<FitTraits>,
    detectorInfo: DetectorInfo,
    flag: int)


  /** What `FillTrack` makes of a fitted track, its seed and its detector info. */
  ghost predicate IsFilledTrack(ttype: TrackType, t: Trajectory, seed: Seed, info: DetectorInfo, numDetIds: nat, rec: TrackRecord)
    requires |seed| > 0
    requires t.status.Some? ==> FitTraitsReady(t, numDetIds)
  {
    && rec.trackType == ttype
    && rec.length == FAbs(t.length)
    && rec.seedQuality == |seed|
    && rec.possiblePoints == 4
    && IsTruthVote(seed, rec.idTruth, rec.qaTruth)
    && rec.innerZ == 0.0 && rec.outerZ == 0.0
    && rec.fitTraits == FitTraitsOf(t, ttype, numDetIds)
    && rec.detectorInfo == info
    && rec.flag == TrackFlag(ttype)
  }

  /**
   * `FillTrack`: the sTGC plane z used for the inner and outer geometry
   * comes from the geometry helper's list lookup, which always hands back
   * the defaults (all 0.0), with or without a geometry.
   */
  method FillTrack(ttype: TrackType, t: Trajectory, seed: Seed, info: DetectorInfo, geo: Option<Navigator>, numDetIds: nat)
    returns (rec: TrackRecord)
    requires |seed| > 0
    requires t.status.Some? ==> FitTraitsReady(t, numDetIds)
    ensures IsFilledTrack(ttype, t, seed, info, numDetIds, rec)
  {
    var fttZ: seq<real>;
    if geo.Some? {
      var fwdGeoUtils := new FwdGeomUtils(geo);
      fttZ := fwdGeoUtils.FttZDefaults([0.0, 0.0, 0.0, 0.0]);
    } else {
      fttZ := [0.0, 0.0, 0.0, 0.0];
    }
    var idTruth, qaTruth := TheTruth(seed);
    var traits := FillTrackFitTraits(t, ttype, numDetIds);
    rec := TrackRecord(ttype, FAbs(t.length), |seed|, 4, idTruth, qaTruth, fttZ[0], fttZ[3], traits, info, TrackFlag(ttype));
  }

  /** The indices of the accepted tracks, in order. */
  function AcceptedIdx(tracks: seq<Trajectory>): seq<int>
    requires forall i :: 0 <= i < |tracks| ==> StatusReadable(tracks[i])
  {
    if tracks == [] then []
    else
      var init := tracks[..|tracks| - 1];
      assert forall i :: 0 <= i < |init| ==> init[i] == tracks[i];
      AcceptedIdx(init) + (if Accept(tracks[|tracks| - 1]) then [|tracks| - 1] else [])
  }

  /** The accepted indices are increasing, and they are exactly the tracks `accept` lets through. */
  lemma {:induction false} AcceptedIdxExact(tracks: seq<Trajectory>)
    requires forall i :: 0 <= i < |tracks| ==> StatusReadable(tracks[i])
    ensures forall k :: 0 <= k < |AcceptedIdx(tracks)| ==>
      0 <= AcceptedIdx(tracks)[k] < |tracks| && Accept(tracks[AcceptedIdx(tracks)[k]])
    ensures forall k, l :: 0 <= k < l < |AcceptedIdx(tracks)| ==> AcceptedIdx(tracks)[k] < AcceptedIdx(tracks)[l]
    ensures forall i :: 0 <= i < |tracks| && Accept(tracks[i]) ==> i in AcceptedIdx(tracks)
  {
    if tracks != [] {
      var last := |tracks| - 1;
      var init := tracks[..last];
      assert forall i :: 0 <= i < |init| ==> init[i] == tracks[i];
      AcceptedIdxExact(init);
      var a := AcceptedIdx(init);
      var r := AcceptedIdx(tracks);
      assert r == a + (if Accept(tracks[last]) then [last] else []);
      forall k | 0 <= k < |r|
        ensures 0 <= r[k] < |tracks| && Accept(tracks[r[k]])
      {
        if k < |a| {
          assert r[k] == a[k] && init[a[k]] == tracks[a[k]];
        }
      }
      forall k, l | 0 <= k < l < |r|
        ensures r[k] < r[l]
      {
        if l >= |a| {
          assert r[k] == a[k] && a[k] < |init|;
        }
      }
      forall i | 0 <= i < |tracks| && Accept(tracks[i])
        ensures i in r
      {
        if i < last {
          assert init[i] == tracks[i];
        }
      }
    }
  }

  /** What the maker hangs on the event for one accepted track. */
  ghost predicate IsFilledEntry(t: Trajectory, seed: Seed, geoNumDetIds: nat, rec: TrackRecord, info: DetectorInfo)
    requires StatusReadable(t) && Accept(t) && |seed| > 0 && MeasuredIn(t.points, geoNumDetIds)
  {
    && IsFirstPoint(t.points, info.firstPoint)
    && IsLastPoint(t.points, info.lastPoint)
    && info.numberOfPoints == ToUChar(|t.points|)
    && IsFilledTrack(Global, t, seed, info, geoNumDetIds, rec)
  }

  /** The tracks come with what filling an accepted one needs: a seed with hits and measured points. */
  predicate FillReady(tracks: seq<Trajectory>, seeds: seq<Seed>, numDetIds: nat)
  {
    && |seeds| >= |tracks|
    && forall i :: 0 <= i < |tracks| ==>
         StatusReadable(tracks[i]) && (Accept(tracks[i]) ==> |seeds[i]| > 0 && MeasuredIn(tracks[i].points, numDetIds))
  }

  /**
   * The containers after the first n tracks: the detector infos start with
   * the `kept` ones, and node k and the info just after them at offset k are
   * the filled form of the k-th accepted track among the first n.
   */
  ghost predicate FilledUpTo(tracks: seq<Trajectory>, seeds: seq<Seed>, numDetIds: nat, n: nat,
                             kept: seq<DetectorInfo>, nodes: seq<TrackRecord>, infos: seq<DetectorInfo>)
    requires FillReady(tracks, seeds, numDetIds) && n <= |tracks|
  {
    && |nodes| == |AcceptedIdx(tracks[..n])|
    && |infos| == |kept| + |nodes|
    && infos[..|kept|] == kept
    && forall k :: 0 <= k < |nodes| ==>
         var i := AcceptedIdx(tracks[..n])[k];
         0 <= i < n && Accept(tracks[i]) &&
         IsFilledEntry(tracks[i], seeds[i], numDetIds, nodes[k], infos[|kept| + k])
  }

  /** An accepted track n adds its filled entry at the end of both containers. */
  lemma FilledAccepted(tracks: seq<Trajectory>, seeds: seq<Seed>, numDetIds: nat, n: nat, kept: seq<DetectorInfo>,
                       nodes: seq<TrackRecord>, infos: seq<DetectorInfo>, rec: TrackRecord, info: DetectorInfo)
    requires FillReady(tracks, seeds, numDetIds) && n < |tracks| && Accept(tracks[n])
    requires FilledUpTo(tracks, seeds, numDetIds, n, kept, nodes, infos)
    requires IsFilledEntry(tracks[n], seeds[n], numDetIds, rec, info)
    ensures FilledUpTo(tracks, seeds, numDetIds, n + 1, kept, nodes + [rec], infos + [info])
  {
    assert tracks[..n + 1][..n] == tracks[..n];
    var before, after := AcceptedIdx(tracks[..n]), AcceptedIdx(tracks[..n + 1]);
    assert after == before + [n];
    var nodes', infos' := nodes + [rec], infos + [info];
    assert infos'[..|kept|] == infos[..|kept|];
    forall k | 0 <= k < |nodes'|
      ensures 0 <= after[k] < n + 1 && Accept(tracks[after[k]])
      ensures IsFilledEntry(tracks[after[k]], seeds[after[k]], numDetIds, nodes'[k], infos'[|kept| + k])
    {
      if k < |nodes| {
        assert after[k] == before[k] && nodes'[k] == nodes[k] && infos'[|kept| + k] == infos[|kept| + k];
      } else {
        assert after[k] == n && nodes'[k] == rec && infos'[|kept| + k] == info;
      }
    }
  }

  /** A track n that is not accepted adds nothing. */
  lemma FilledRejected(tracks: seq<Trajectory>, seeds: seq<Seed>, numDetIds: nat, n: nat, kept: seq<DetectorInfo>,
                       nodes: seq<TrackRecord>, infos: seq<DetectorInfo>)
    requires FillReady(tracks, seeds, numDetIds) && n < |tracks| && !Accept(tracks[n])
    requires FilledUpTo(tracks, seeds, numDetIds, n, kept, nodes, infos)
    ensures FilledUpTo(tracks, seeds, numDetIds, n + 1, kept, nodes, infos)
  {
    assert tracks[..n + 1][..n] == tracks[..n];
  }

  /**
   * The event after filling: node k holds the k-th accepted track, filled
   * from that track and its own seed, and is paired with the detector info
   * at `base + k`, `base` being the number of infos the event already had.
   */
  ghost predicate FilledFrom(tracks: seq<Trajectory>, seeds: seq<Seed>, numDetIds: nat, base: nat,
                             nodes: seq<TrackRecord>, infos: seq<DetectorInfo>)
    requires FillReady(tracks, seeds, numDetIds)
  {
    && |nodes| == |AcceptedIdx(tracks)|
    && |infos| == base + |nodes|
    && forall k :: 0 <= k < |nodes| ==>
      var i := AcceptedIdx(tracks)[k];
      0 <= i < |tracks| && Accept(tracks[i]) && IsFilledEntry(tracks[i], seeds[i], numDetIds, nodes[k], infos[base + k])
  }

  /** After the last track every accepted track has its node and detector info, after the kept infos. */
  lemma FilledAll(tracks: seq<Trajectory>, seeds: seq<Seed>, numDetIds: nat, kept: seq<DetectorInfo>,
                  nodes: seq<TrackRecord>, infos: seq<DetectorInfo>)
    requires FillReady(tracks, seeds, numDetIds)
    requires FilledUpTo(tracks, seeds, numDetIds, |tracks|, kept, nodes, infos)
    ensures FilledFrom(tracks, seeds, numDetIds, |kept|, nodes, infos)
    ensures infos[..|kept|] == kept
  {
    assert tracks[..|tracks|] == tracks;
  }

  /** The body of the `FillEvent` loop for an accepted track: its detector info, then its global track. */
  method FillAccepted(track: Trajectory, seed: Seed, geo: Option<Navigator>, numDetIds: nat)
    returns (rec: TrackRecord, info: DetectorInfo)
    requires StatusReadable(track) && Accept(track) && |seed| > 0 && MeasuredIn(track.points, numDetIds)
    ensures IsFilledEntry(track, seed, numDetIds, rec, info)
  {
    AcceptIff(track);
    var count;
    info, count := FillDetectorInfo(track);
    rec := FillTrack(Global, track, seed, info, geo, numDetIds);
  }

  /**
   * The `FillEvent` loop: walks the tracks with their seeds and, for each
   * accepted one, appends its node and its detector info; the infos start
   * from `kept`, those already in the event.
   */
  method FillTracks(tracks: seq<Trajectory>, seeds: seq<Seed>, geo: Option<Navigator>, numDetIds: nat,
                    kept: seq<DetectorInfo>)
    returns (nodes: seq<TrackRecord>, infos: seq<DetectorInfo>)
    requires FillReady(tracks, seeds, numDetIds)
    ensures FilledUpTo(tracks, seeds, numDetIds, |tracks|, kept, nodes, infos)
  {
    nodes := [];
    infos := kept;
    assert infos[..|kept|] == kept;
    for n := 0 to |tracks|
      invariant FilledUpTo(tracks, seeds, numDetIds, n, kept, nodes, infos)
    {
      var seed := seeds[n];
      var track := tracks[n];
      if Accept(track) {
        var rec, info := FillAccepted(track, seed, geo, numDetIds);
        FilledAccepted(tracks, seeds, numDetIds, n, kept, nodes, infos, rec, info);
        infos := infos + [info];
        nodes := nodes + [rec];
      } else {
        FilledRejected(tracks, seeds, numDetIds, n, kept, nodes, infos);
      }
    }
  }

  /** The event's track containers. */
  class StEventStore {
    var trackNodes: seq<TrackRecord>
    var trackDetectorInfos: seq<DetectorInfo>
    var primaryVertices: seq<Point3>

    constructor (nodes: seq<TrackRecord>, infos: seq<DetectorInfo>, vertices: seq<Point3>)
      ensures trackNodes == nodes && trackDetectorInfos == infos && primaryVertices == vertices
    {
      trackNodes := nodes;
      trackDetectorInfos := infos;
      primaryVertices := vertices;
    }

    /**
     * `FillEvent`: removes the event's track nodes and primary vertices, then
     * walks the fitted tracks with their seeds (seed i belongs to track i,
     * accepted or not) and, for each accepted track, appends a node holding
     * its global track and its detector info, in order. The detector infos
     * already in the event are kept: the new ones follow them.
     */
    method FillEvent(tracks: seq<Trajectory>, seeds: seq<Seed>, geo: Option<Navigator>, numDetIds: nat)
      requires FillReady(tracks, seeds, numDetIds)
      modifies this
      ensures primaryVertices == []
      ensures FilledFrom(tracks, seeds, numDetIds, |old(trackDetectorInfos)|, trackNodes, trackDetectorInfos)
      ensures trackDetectorInfos[..|old(trackDetectorInfos)|] == old(trackDetectorInfos)
    {
      var nodes, infos := FillTracks(tracks, seeds, geo, numDetIds, trackDetectorInfos);
      FilledAll(tracks, seeds, numDetIds, old(trackDetectorInfos), nodes, infos);
      trackNodes := nodes;
      trackDetectorInfos := infos;
      primaryVertices := [];
    }
  }
}
