/**
 * What each hit loader makes of one input record, as an `Action` on the
 * shared hit bookkeeping. Four record sources exist: the simulated sTGC and
 * silicon (FST) hits, and the reconstructed hits of the event's R&D hit
 * collection, which holds both detectors (layers up to 6 are silicon disks,
 * the others sTGC planes).
 *
 * Every decision a loader takes depends on the simulated-track table only
 * through which keys hold a track and the pseudorapidity of those tracks,
 * and loading changes neither; so the actions of a whole loader run can be
 * computed from the table it starts from.
 */
module Ingestion {
  import opened Wrappers
  import opened CppArith
  import opened Config
  import opened SiRaster
  import opened SiCov
  import opened Hits

  /**
   * A simulated sTGC hit record: track id, volume id, position, and the two
   * Gaussian draws (width 0.01) that blur x and y.
   */
  datatype GeantHit = GeantHit(trackId: int, volumeId: int, x: real, y: real, z: real, blurX: real, blurY: real)

  /** A reconstructed hit of the event's R&D collection: layer, position, truth id and covariance. */
  datatype RndHit = RndHit(layer: int, x: real, y: real, z: real, idTruth: int, cov: Mat3)

  /** A simulated silicon hit record: track id, volume id and position, in the polar form a three-vector reports. */
  datatype FsiHit = FsiHit(trackId: int, volumeId: int, pos: Polar)


  /** The covariance of a simulated sTGC hit: 0.01 squared in x and y, nothing in z. */
  const StgcCov: Mat3 := [[0.01 * 0.01, 0.0, 0.0], [0.0, 0.01 * 0.01, 0.0], [0.0, 0.0, 0.0]]

  /** The reference a new hit keeps to the simulated track under `k`: none when that entry is null or unknown. */
  function TrackRef(m: McMap, k: int): (r: Option<int>)
    ensures r.Some? <==> HasTrack(m, k)
    ensures r.Some? ==> r.value == k
  {
    if HasTrack(m, k) then Some(k) else None
  }

  /** The sTGC plane of a volume (four chambers per plane), with C++ integer division. */
  function StgcPlane(volumeId: int): int
  {
    TruncDiv(volumeId - 1, 4)
  }

  /**
   * Volumes 1..16 fall on planes 0..3, four each. Division truncating toward
   * zero also sends volumes -2..0 to plane 0, and nothing else is on a plane.
   */
  lemma StgcPlaneRange(v: int)
    ensures 0 <= StgcPlane(v) < 4 <==> -2 <= v <= 16
    ensures 1 <= v ==> StgcPlane(v) == (v - 1) / 4
  {
    var q := StgcPlane(v);
    var r := TruncRem(v - 1, 4);
    assert v - 1 == q * 4 + r;
    if 1 <= v {
      assert 0 <= r < 4;
      assert q == (v - 1) / 4;
    }
  }

  /** Whether the filter on simulated sTGC hits drops the hits of the track under `k`: those with |eta| > 5. */
  predicate FilteredOut(m: McMap, filter: bool, k: int)
  {
    filter && HasTrack(m, k) && FAbs(m[k].value.eta) > 5.0
  }

  /**
   * `loadStgcHitsFromGEANT`, one record: a null record and a volume off the
   * four planes are skipped; otherwise the record reads the table under its
   * track id, and, unless filtered out, becomes a blurred hit in sector
   * -plane that is appended to its simulated track.
   */
  function StgcGeantAction(m: McMap, filter: bool, row: Option<GeantHit>): (a: Action)
    ensures a.touch.Some? <==> row.Some? && -2 <= row.value.volumeId <= 16
    ensures a.touch.Some? ==> a.touch.value == row.value.trackId
    ensures a.hit.Some? <==> a.touch.Some? && !FilteredOut(m, filter, row.value.trackId)
    ensures a.hit.Some? ==> a.link && -3 <= a.hit.value.layer <= 0 && a.hit.value.tid == row.value.trackId
    ensures a.hit.Some? ==> a.hit.value.track == TrackRef(m, row.value.trackId) && a.hit.value.cov == StgcCov
    ensures a.hit.Some? ==> a.hit.value.layer == -StgcPlane(row.value.volumeId)
    ensures a.hit.Some? ==>
      a.hit.value.x == row.value.x + row.value.blurX && a.hit.value.y == row.value.y + row.value.blurY &&
      a.hit.value.z == row.value.z
  {
    if row.None? then Skip
    else
      var g := row.value;
      StgcPlaneRange(g.volumeId);
      var plane := StgcPlane(g.volumeId);
      if !(plane < 4 && plane >= 0) then Skip
      else if FilteredOut(m, filter, g.trackId) then Action(Some(g.trackId), None, false)
      else
        var p := HitProto(g.x + g.blurX, g.y + g.blurY, g.z, -plane, g.trackId, StgcCov, TrackRef(m, g.trackId));
        Action(Some(g.trackId), Some(p), true)
  }

  /**
   * `loadStgcHitsFromStEvent`, one hit: silicon layers (up to 6) are skipped;
   * an sTGC hit of layer L goes to sector 9 - L. Only a positive truth id is
   * looked up: the new hit refers to its track only when the table already
   * holds one there, and the table is read (and the hit appended) only then.
   */
  function StgcEventAction(m: McMap, h: RndHit): (a: Action)
    ensures a.hit.Some? <==> h.layer > 6
    ensures a.touch == (if h.layer > 6 && h.idTruth > 0 then Some(h.idTruth) else None)
    ensures a.link <==> h.layer > 6 && h.idTruth > 0
    ensures a.hit.Some? ==> a.hit.value.layer == 9 - h.layer && a.hit.value.tid == h.idTruth && a.hit.value.cov == h.cov
    ensures a.hit.Some? ==> (a.hit.value.track.Some? <==> h.idTruth > 0 && HasTrack(m, h.idTruth))
  {
    if h.layer <= 6 then Skip
    else
      var layer := h.layer - 9;
      var mct := if h.idTruth > 0 then TrackRef(m, h.idTruth) else None;
      var p := HitProto(h.x, h.y, h.z, -layer, h.idTruth, h.cov, mct);
      Action(if h.idTruth > 0 then Some(h.idTruth) else None, Some(p), h.idTruth > 0)
  }

  /**
   * `loadFstHitsFromStEvent`, one hit: sTGC layers (above 6) are skipped; a
   * silicon hit goes to the sector of its layer, reads the table under its
   * truth id and is never appended to a simulated track.
   */
  function FstEventAction(m: McMap, h: RndHit): (a: Action)
    ensures a.hit.Some? <==> h.layer <= 6
    ensures a.touch == (if h.layer <= 6 then Some(h.idTruth) else None)
    ensures !a.link
    ensures a.hit.Some? ==> a.hit.value.layer == h.layer && a.hit.value.tid == h.idTruth && a.hit.value.cov == h.cov
    ensures a.hit.Some? ==> a.hit.value.track == TrackRef(m, h.idTruth)
  {
    if h.layer > 6 then Skip
    else
      var p := HitProto(h.x, h.y, h.z, h.layer, h.idTruth, h.cov, TrackRef(m, h.idTruth));
      Action(Some(h.idTruth), Some(p), false)
  }

  /** The rasterizer, when active, has positive bin sizes. */
  predicate RasterOk(cfg: FwdTrackerConfig)
  {
    RasterActive(cfg) ==> RasterR(cfg) > 0.0 && RasterPhi(cfg) > 0.0
  }

  /** The position of a simulated silicon hit, rasterized when the rasterizer is active. */
  function SiPosition(cfg: FwdTrackerConfig, p: Polar): (q: Polar)
    requires RasterOk(cfg)
    ensures q.z == p.z
  {
    if RasterActive(cfg) then Raster(p, RasterR(cfg), RasterPhi(cfg)) else p
  }

  /** The silicon disk of a volume: its thousands digit, with C++ integer division. */
  function FsiDisk(volumeId: int): int
  {
    TruncDiv(volumeId, 1000)
  }

  /** Disks 4, 5 and 6 (planes 0..2) are exactly the volumes 4000..6999. */
  lemma FsiDiskRange(v: int)
    ensures 4 <= FsiDisk(v) <= 6 <==> 4000 <= v <= 6999
  {
    var q := FsiDisk(v);
    var r := TruncRem(v, 1000);
    assert v == q * 1000 + r;
  }

  /**
   * `loadFstHitsFromGEANT`, one record: a null record and a volume off
   * disks 4..6 are skipped; otherwise the (possibly rasterized) position
   * becomes a hit in the sector of its disk, with the covariance of a
   * silicon hit at that position, and the table is read under its track id.
   * `dir` gives the unit direction (cos, sin) of an azimuth.
   */
  function FsiGeantAction(cfg: FwdTrackerConfig, dir: real -> (real, real), m: McMap, row: Option<FsiHit>): (a: Action)
    requires RasterOk(cfg)
    ensures a.hit.Some? <==> row.Some? && 4000 <= row.value.volumeId <= 6999
    ensures a.touch == (if a.hit.Some? then Some(row.value.trackId) else None)
    ensures !a.link
    ensures a.hit.Some? ==> 4 <= a.hit.value.layer <= 6 && a.hit.value.layer == row.value.volumeId / 1000
    ensures a.hit.Some? ==> a.hit.value.tid == row.value.trackId && a.hit.value.track == TrackRef(m, row.value.trackId)
    ensures a.hit.Some? ==>
      var q := SiPosition(cfg, row.value.pos);
      var d := dir(q.phi);
      && a.hit.value.x == q.r * d.0 && a.hit.value.y == q.r * d.1 && a.hit.value.z == q.z
      && a.hit.value.cov == SiCovMat(d.0, d.1, q.r, CovRSize(cfg), CovPhiSize(cfg))
  {
    if row.None? then Skip
    else
      var g := row.value;
      var d := FsiDisk(g.volumeId);
      var q := SiPosition(cfg, g.pos);
      FsiDiskRange(g.volumeId);
      if !(d - 4 < 3 && d - 4 >= 0) then Skip
      else
        assert d == g.volumeId / 1000 by { FsiDiskDiv(g.volumeId); }
        var u := dir(q.phi);
        var p := HitProto(q.r * u.0, q.r * u.1, q.z, d, g.trackId, SiCovMat(u.0, u.1, q.r, CovRSize(cfg), CovPhiSize(cfg)),
          TrackRef(m, g.trackId));
        Action(Some(g.trackId), Some(p), false)
  }

  /** The direction oracle gives unit vectors, as (cos φ, sin φ) does. */
  ghost predicate UnitDir(dir: real -> (real, real))
  {
    forall phi: real :: IsUnit(dir(phi))
  }

  predicate IsUnit(d: (real, real))
  {
    d.0 * d.0 + d.1 * d.1 == 1.0
  }

  /**
   * A silicon hit seen from its radius r and direction d: it lies at
   * distance r from the beam, so r is the `R` that `makeSiCovMat` recomputes
   * from x and y; for r > 0 the direction it recomputes as (x/R, y/R) is d;
   * and the variances in x and y add up to the radial variance plus r^2
   * times the azimuthal one.
   */
  predicate AtRadius(h: HitProto, r: real, d: (real, real), rSize: real, phiSize: real)
  {
    && h.x * h.x + h.y * h.y == r * r
    && (r > 0.0 ==> d.0 == h.x / r && d.1 == h.y / r)
    && h.cov[0][0] + h.cov[1][1] == UniformVariance(rSize) + r * r * UniformVariance(phiSize)
  }

  /**
   * A hit placed at radius r along a unit direction d, with the covariance
   * built from r and d (what `FsiGeantAction` produces when the direction
   * oracle gives unit vectors), is `AtRadius` r along d.
   */
  lemma ProtoAtRadius(h: HitProto, r: real, d: (real, real), rSize: real, phiSize: real)
    requires IsUnit(d) && h.x == r * d.0 && h.y == r * d.1 && h.cov == SiCovMat(d.0, d.1, r, rSize, phiSize)
    ensures AtRadius(h, r, d, rSize, phiSize)
  {
    UnitRadius(h.x, h.y, r, d.0, d.1);
    SiCovTrace(d.0, d.1, r, rSize, phiSize);
  }

  /** A point at radius r along a unit direction (c, s): its squared distance is r^2, and (c, s) is recovered by dividing by r. */
  lemma UnitRadius(x: real, y: real, r: real, c: real, s: real)
    requires c * c + s * s == 1.0 && x == r * c && y == r * s
    ensures x * x + y * y == r * r
    ensures r > 0.0 ==> c == x / r && s == y / r
  {
    NormSquare(x, y, r, c, s);
    if r > 0.0 {
      Cancel(r, c);
      Cancel(r, s);
    }
  }

  lemma NormSquare(x: real, y: real, r: real, c: real, s: real)
    requires c * c + s * s == 1.0 && x == r * c && y == r * s
    ensures x * x + y * y == r * r
  {
    assert x * x + y * y == r * r * (c * c + s * s);
  }

  lemma Cancel(r: real, c: real)
    requires r != 0.0
    ensures (r * c) / r == c
  {
  }

  lemma FsiDiskDiv(v: int)
    requires v >= 0
    ensures FsiDisk(v) == v / 1000
  {
    var q := FsiDisk(v);
    var r := TruncRem(v, 1000);
    assert v == q * 1000 + r && 0 <= r < 1000;
  }

  /**
   * The position of a simulated silicon hit: the rasterized one when the
   * rasterizer is active, within half a radial bin of the record's radius;
   * the record's own otherwise.
   */
  lemma FsiGeantPosition(cfg: FwdTrackerConfig, p: Polar)
    requires RasterOk(cfg) && ValidPolar(p)
    ensures ValidPolar(SiPosition(cfg, p))
    ensures RasterActive(cfg) ==> -RasterR(cfg) / 2.0 <= SiPosition(cfg, p).r - p.r <= RasterR(cfg) / 2.0
    ensures !RasterActive(cfg) ==> SiPosition(cfg, p) == p
  {
    if RasterActive(cfg) {
      RasterRadius(p, RasterR(cfg), RasterPhi(cfg));
    }
  }

  /**
   * The covariance of a simulated silicon hit is symmetric, with
   * non-negative variances, and positive semi-definite: the quadratic form in
   * any (u, v) is non-negative.
   */
  lemma FsiGeantCov(cfg: FwdTrackerConfig, dir: real -> (real, real), m: McMap, row: Option<FsiHit>, u: real, v: real)
    requires RasterOk(cfg)
    ensures var a := FsiGeantAction(cfg, dir, m, row);
      a.hit.Some? ==>
        var cm := a.hit.value.cov;
        && cm[0][1] == cm[1][0] && cm[0][0] >= 0.0 && cm[1][1] >= 0.0
        && u * u * cm[0][0] + u * v * (cm[0][1] + cm[1][0]) + v * v * cm[1][1] >= 0.0
  {
    if row.Some? {
      var q := SiPosition(cfg, row.value.pos);
      var (c, s) := dir(q.phi);
      SiCovSymmetric(c, s, q.r, CovRSize(cfg), CovPhiSize(cfg));
      SiCovPositive(c, s, q.r, CovRSize(cfg), CovPhiSize(cfg), u, v);
    }
  }

  /** The action of every record of a run, in order. */
  function StgcGeantActions(m: McMap, filter: bool, rows: seq<Option<GeantHit>>): seq<Action>
  {
    seq(|rows|, i requires 0 <= i < |rows| => StgcGeantAction(m, filter, rows[i]))
  }

  function StgcEventActions(m: McMap, hits: seq<RndHit>): seq<Action>
  {
    seq(|hits|, i requires 0 <= i < |hits| => StgcEventAction(m, hits[i]))
  }

  function FstEventActions(m: McMap, hits: seq<RndHit>): seq<Action>
  {
    seq(|hits|, i requires 0 <= i < |hits| => FstEventAction(m, hits[i]))
  }

  function FsiGeantActions(cfg: FwdTrackerConfig, dir: real -> (real, real), m: McMap, rows: seq<Option<FsiHit>>): seq<Action>
    requires RasterOk(cfg)
  {
    seq(|rows|, i requires 0 <= i < |rows| => FsiGeantAction(cfg, dir, m, rows[i]))
  }

  /** The actions depend on the table only through its tracks and their pseudorapidities. */
  lemma ActionsStable(cfg: FwdTrackerConfig, dir: real -> (real, real), m: McMap, m': McMap, filter: bool,
                      g: Option<GeantHit>, h: RndHit, f: Option<FsiHit>)
    requires SameTracks(m, m') && RasterOk(cfg)
    ensures StgcGeantAction(m, filter, g) == StgcGeantAction(m', filter, g)
    ensures StgcEventAction(m, h) == StgcEventAction(m', h)
    ensures FstEventAction(m, h) == FstEventAction(m', h)
    ensures FsiGeantAction(cfg, dir, m, f) == FsiGeantAction(cfg, dir, m', f)
  {
    if g.Some? {
      assert FilteredOut(m, filter, g.value.trackId) == FilteredOut(m', filter, g.value.trackId);
      assert TrackRef(m, g.value.trackId) == TrackRef(m', g.value.trackId);
    }
    assert TrackRef(m, h.idTruth) == TrackRef(m', h.idTruth);
    if f.Some? {
      assert TrackRef(m, f.value.trackId) == TrackRef(m', f.value.trackId);
    }
  }
}
