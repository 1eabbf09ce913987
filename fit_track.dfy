/**
 * The fitted track as the maker sees it: an abstract trajectory record with
 * its points, the fit status of the cardinal representation and the
 * fitted state at each point that carries fitter information. The fit
 * itself is not modelled; its outcome is the record.
 */
module FitTrack {
  import opened Wrappers

  /** A symmetric 5x5 covariance as a square of rows. */
  type Mat5 = m: seq<seq<real>> | |m| == 5 && forall i | 0 <= i < |m| :: |m[i]| == 5
    witness [[0.0, 0.0, 0.0, 0.0, 0.0], [0.0, 0.0, 0.0, 0.0, 0.0], [0.0, 0.0, 0.0, 0.0, 0.0],
             [0.0, 0.0, 0.0, 0.0, 0.0], [0.0, 0.0, 0.0, 0.0, 0.0]]

  /** The raw measurement of a point: detector id and raw hit coordinates. */
  datatype Measurement = Measurement(detId: int, x: real, y: real)

  /**
   * Fitter information of a point: z of the detector plane origin, and the
   * fitted state there (transverse momentum and covariance).
   */
  datatype FitterInfo = FitterInfo(planeZ: real, pt: real, cov: Mat5)

  datatype TrackPoint = TrackPoint(measurement: Option<Measurement>, fitterInfo: Option<FitterInfo>)

  /** Fit status: convergence, chi2 and the number of degrees of freedom. */
  datatype FitStatus = FitStatus(converged: bool, chi2: real, ndf: real)

  datatype Trajectory = Trajectory(points: seq<TrackPoint>, status: Option<FitStatus>, length: real)

  /** Reading the fit status of a track that has points does not fail. */
  predicate StatusReadable(t: Trajectory)
  {
    |t.points| > 0 ==> t.status.Some?
  }

  /** Index of the first point carrying fitter information, if any. */
  function FirstFitted(points: seq<TrackPoint>): (r: Option<nat>)
    ensures r.Some? ==> r.value < |points| && points[r.value].fitterInfo.Some?
    ensures r.Some? ==> forall j :: 0 <= j < r.value ==> points[j].fitterInfo.None?
    ensures r.None? <==> forall j :: 0 <= j < |points| ==> points[j].fitterInfo.None?
  {
    if points == [] then None
    else if points[0].fitterInfo.Some? then Some(0)
    else
      match FirstFitted(points[1..])
      case None => None
      case Some(i) => Some(i + 1)
  }

  /** The minimum transverse momentum of an accepted track. */
  const MinPt: real := 0.10

  /**
   * `accept` for a fitted track: the checks in the order `StFwdTrackMaker::accept` makes
   * them, each rejecting on failure.
   */
  predicate Accept(t: Trajectory)
    requires StatusReadable(t)
  {
    if |t.points| == 0 then false
    else if !t.status.value.converged then false
    else if exists i :: 0 <= i < |t.points| && t.points[i].fitterInfo.None? then false
    else
      match FirstFitted(t.points)
      case None => false
      case Some(i) => !(t.points[i].fitterInfo.value.pt < MinPt)
  }

  /** `accept` for anything that is not a fitted track: every value passes. */
  function AcceptAny<T>(x: T): (r: bool)
    ensures r
  {
    true
  }

  /**
   * A track is accepted iff it has points, its fit converged, every point has
   * fitter information and the state at its first point has pt of at least 0.10.
   */
  lemma AcceptIff(t: Trajectory)
    requires StatusReadable(t)
    ensures Accept(t) <==>
      && |t.points| > 0
      && t.status.value.converged
      && (forall i :: 0 <= i < |t.points| ==> t.points[i].fitterInfo.Some?)
      && t.points[0].fitterInfo.value.pt >= MinPt
  {
    if |t.points| > 0 && t.points[0].fitterInfo.Some? {
      assert FirstFitted(t.points) == Some(0);
    }
  }

  /** For an accepted track the first fitted state is the one at the first point. */
  lemma AcceptedFirstFitted(t: Trajectory)
    requires StatusReadable(t) && Accept(t)
    ensures FirstFitted(t.points) == Some(0)
  {
    assert t.points[0].fitterInfo.Some?;
  }

  /** The boundary case: pt exactly 0.10 passes the cut. */
  lemma AcceptAtMinPt(fi: FitterInfo, m: Option<Measurement>)
    requires fi.pt == 0.10
    ensures Accept(Trajectory([TrackPoint(m, Some(fi))], Some(FitStatus(true, 1.0, 1.0)), 0.0))
  {
    var t := Trajectory([TrackPoint(m, Some(fi))], Some(FitStatus(true, 1.0, 1.0)), 0.0);
    AcceptIff(t);
  }
}
