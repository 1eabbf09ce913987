# Forward track maker: hit bookkeeping, truth matching and output filling

This project models the discrete core of STAR's forward-tracking maker
(`StFwdTrackMaker`) and of its geometry-lookup helper (`FwdGeomUtils`) and
proves properties of that model. The maker works on one event at a time:

- it reads the simulated (Monte Carlo) tracks into a table keyed by track id;
- it skips the event when too many of them point forward;
- it turns the sTGC and forward-silicon hit records into hits. Hits are
  numbered consecutively and bucketed by sector. sTGC hits are linked back
  into the hit lists of their simulated tracks;
- once the external tracker and fitter have run, it fills the event. For
  every accepted fitted track it stores a detector-info record and a global
  track: length, seed quality, dominant-contributor truth, fit traits and
  flag.

The tracker, the fitter, the magnetic field and the geometry manager are not
modelled. Their outputs enter the model as values:

- a fitted track is a `FitTrack.Trajectory`;
- a seed is a sequence of `Truth.SeedHit`;
- the geometry navigator is a map from path to placement;
- a direction oracle `dir` stands in for `atan2`, `sin`, `cos` and `sqrt`. The
  silicon loaders require it to give unit vectors (`Ingestion.UnitDir`), as
  (cos φ, sin φ) does.

Modules, one per file:

- `Wrappers` (`wrappers.dfy`): `Option`.
- `CppArith` (`cpp_arith.dfy`): C++ integer division and remainder, which
  truncate toward zero; `double`-to-`int` truncation; the cast to
  `unsigned char`; `fabs`.
- `Config` (`config.dfy`): the tracker configuration as a key-to-value map,
  with the defaults the maker reads.
- `OrderedKeys` (`ordered_keys.dfy`): picking a key out of a set, and the
  least key (the iteration order of `std::map`).
- `Truth` (`truth.dfy`): `TheTruth`, the dominant-contributor vote over a
  seed.
- `FitTrack` (`fit_track.dfy`): the fitted-track record and `accept`.
- `SiRaster` (`si_raster.dfy`): `SiRasterizer::raster`, in polar coordinates.
- `SiCov` (`si_cov.dfy`): `makeSiCovMat`.
- `Hits` (`hits.dfy`), the data and the per-record model of hit ingestion:
  - the hit and simulated-track types;
  - the hit buckets;
  - `operator[]` on the track table;
  - a record's effect as an `Action`, a fold `Run` over a sequence of
    actions, and the lemmas about that fold.
- `Ingestion` (`ingest.dfy`): the action that each loader takes for one
  record.
- `HitLoading` (`hit_loader.dfy`): the class `HitLoader`, which owns the
  simulated-track table, the sTGC hit map and the silicon hit map. It holds:
  - the loader loops;
  - `loadMcTracks`;
  - the count of forward tracks;
  - the hit-loading part of `Make`.
- `GeomUtils` (`geom_utils.dfy`): the class `FwdGeomUtils` (cursor fields
  updated by `cd`), the path strings and the z lookups.
- `Fill` (`fill.dfy`): `FillTrackFlags`, `FillTrackFitTraits`,
  `FillDetectorInfo`, `FillTrack`, and `FillEvent` on a class holding the
  event's containers.

How each loader method is specified:

- Every loader records its state, on exit, as a `Run` of one `Action` per
  record over its state on entry.
- An action is computed from the table as it was at the start.
- This is sound because a loader never changes which keys hold tracks, nor
  a track's pseudorapidity: `Hits.RunSameTracks` and
  `Ingestion.ActionsStable` prove it.
- The lemmas about `Run` then state what every loader does: one bucket per
  hit, consecutive ids, back-links, and null entries created by reads.

Where the code and its design description disagree, the model follows the
code:

- `TheTruth` without any hit that carries a track id returns id -1. Its
  quality is then `int(-100/N)`, a negative number for `N <= 100`, not 0
  (`Truth.NoForwardHitQuality`).
- A track id of 0 is tallied like any other key.
- The division by the number of degrees of freedom has no guard against 0
  (see `Fill.ChiPerNdf`).
- sTGC GEANT volumes -2, -1 and 0 are kept as plane 0. The reason is that
  `(volume_id - 1) / 4` truncates toward zero (`Ingestion.StgcPlaneRange`).
- `Make` passes no `count`, so both hit loaders number their hits from the
  same start; `HitLoading.HitLoader.MakeInput` takes that start as `count`.
- Both `fttZ(defaultZ)` overloads discard what they look up. So `FillTrack`
  always uses z = 0.0 for its inner and outer geometry.
- In `makeSiCovMat` the right factor is the transpose of the left one, so
  the product is the usual J·Σ·Jᵀ (`SiCov.RightFactor`).

## Model

| member | source | states |
|---|---|---|
| CppArith.TruncDiv | StRoot/StFwdTrackMaker/StFwdTrackMaker.cxx:494 | C++ `int` division: `a == q*b + rem`, where the remainder is that of `TruncRem` |
| CppArith.TruncRem | StRoot/StFwdTrackMaker/StFwdTrackMaker.cxx:681-683 | C++ `%`: smaller in magnitude than `b`, non-negative for a non-negative dividend and non-positive for a non-positive one |
| CppArith.TruncReal | StRoot/StFwdTrackMaker/StFwdTrackMaker.cxx:138 | `int(x)` truncates toward zero: `r <= x < r + 1` for non-negative `x`, and `r - 1 < x <= r` for negative `x` |
| CppArith.ToUChar | StRoot/StFwdTrackMaker/StFwdTrackMaker.cxx:1216 | `(unsigned char)n` lies in 0..255, is congruent to `n` mod 256 and is `n` itself on 0..255 |
| CppArith.FAbs | StRoot/StFwdTrackMaker/StFwdTrackMaker.cxx:1019 | the absolute value of a `double` is non-negative and equals `x` or `-x` |
| Config.PhiSizeDefaults | StRoot/StFwdTrackMaker/StFwdTrackMaker.cxx:388-389 | the rasterizer and the covariance read the same keys; only the φ default differs (0.1 against 0.004) |
| Truth.TallySeed | StRoot/StFwdTrackMaker/StFwdTrackMaker.cxx:119-126 | the loop counts every seed hit and tallies the track ids of forward hits: the count is the seed size and the tally is `TallyOf(seed)` |
| Truth.TallyCounts | StRoot/StFwdTrackMaker/StFwdTrackMaker.cxx:121-126 | an id is in the tally iff some forward hit carries it, and its tally is its number of votes; the tally is empty iff no hit is a forward hit |
| Truth.TheTruth | StRoot/StFwdTrackMaker/StFwdTrackMaker.cxx:117-141 | returns the id with the most votes, the least such id on ties, with quality `int(100*nmax/count)`; -1 when no hit is a forward hit |
| Truth.ScanStep | StRoot/StFwdTrackMaker/StFwdTrackMaker.cxx:130-135 | one step of the ascending-key scan with strict `>` keeps the running maximum and the least id that reaches it |
| Truth.ArgMaxIsVote | StRoot/StFwdTrackMaker/StFwdTrackMaker.cxx:128-138 | the end state of the scan is the truth vote of the seed |
| Truth.TruthVoteUnique | StRoot/StFwdTrackMaker/StFwdTrackMaker.cxx:128-138 | the truth vote of a seed is unique: id and quality are determined by the seed |
| Truth.VotedIdPresent | StRoot/StFwdTrackMaker/StFwdTrackMaker.cxx:121-125 | an id with votes belongs to a forward hit of the seed |
| Truth.QualityIsPercentage | StRoot/StFwdTrackMaker/StFwdTrackMaker.cxx:136-138 | with a forward hit present, the quality is 100 times the votes of the id, divided by the seed size, lies in 0..100, and the id belongs to a seed hit |
| Truth.Percentage | StRoot/StFwdTrackMaker/StFwdTrackMaker.cxx:138 | `int(100.0*v/n)` is the integer percentage `(100*v)/n`, in 0..100 for `v <= n` |
| Truth.NoForwardHitQuality | StRoot/StFwdTrackMaker/StFwdTrackMaker.cxx:128-138 | without forward hits the id is -1 and the quality is minus 100 divided by the seed size, negative for seeds of at most 100 hits |
| Truth.ThreeOfFive | StRoot/StFwdTrackMaker/StFwdTrackMaker.cxx:117-141 | ids [1,1,1,2,2] give id 1 with quality 60 |
| FitTrack.FirstFitted | StRoot/StFwdTrackMaker/StFwdTrackMaker.cxx:91-102 | the index of the first point with fitter information: every point before it lacks it; none iff no point has it |
| FitTrack.AcceptAny | StRoot/StFwdTrackMaker/StFwdTrackMaker.cxx:52 | the generic `accept` lets everything through |
| FitTrack.AcceptIff | StRoot/StFwdTrackMaker/StFwdTrackMaker.cxx:55-113 | a track is accepted iff it has points, its fit converged, every point has fitter information and the first fitted state has pt >= 0.10 |
| FitTrack.AcceptedFirstFitted | StRoot/StFwdTrackMaker/StFwdTrackMaker.cxx:91-104 | for an accepted track the state read for the pt cut is the one at point 0 |
| FitTrack.AcceptAtMinPt | StRoot/StFwdTrackMaker/StFwdTrackMaker.cxx:109 | pt exactly 0.10 passes the cut |
| SiRaster.NormalizePhi | StRoot/StFwdTrackMaker/StFwdTrackMaker.cxx:165 | reading the azimuth back gives a value in (-π, π]: unchanged there, shifted by 2π just above |
| SiRaster.BinMidNear | StRoot/StFwdTrackMaker/StFwdTrackMaker.cxx:164-165 | a bin midpoint is within half a bin of the value it bins |
| SiRaster.BinIndexOf | StRoot/StFwdTrackMaker/StFwdTrackMaker.cxx:164-165 | a value in `[lo + k*b, lo + (k+1)*b)` falls in bin `k` |
| SiRaster.Raster | StRoot/StFwdTrackMaker/StFwdTrackMaker.cxx:158-167 | rastering leaves z unchanged |
| SiRaster.RasterRadius | StRoot/StFwdTrackMaker/StFwdTrackMaker.cxx:160-164 | with positive bins the rastered radius is a valid radius within `binR/2` of the original |
| SiRaster.RasterAzimuth | StRoot/StFwdTrackMaker/StFwdTrackMaker.cxx:161-165 | with a nonzero rastered radius the azimuth is the φ-bin midpoint, read back into (-π, π] |
| SiRaster.RasterBinEdge | StRoot/StFwdTrackMaker/StFwdTrackMaker.cxx:164 | a radius exactly on a bin edge goes to the midpoint of the bin above it |
| SiRaster.RasterPhiBinEdge | StRoot/StFwdTrackMaker/StFwdTrackMaker.cxx:165 | an azimuth exactly on a bin edge goes to the midpoint of the bin above it |
| SiRaster.BinMidFixed | StRoot/StFwdTrackMaker/StFwdTrackMaker.cxx:164-165 | a bin midpoint is binned to itself |
| SiRaster.RasterIdempotent | StRoot/StFwdTrackMaker/StFwdTrackMaker.cxx:158-167 | rastering twice equals rastering once when the radius midpoint is non-negative and the φ midpoint is at most π |
| SiRaster.RasterIdempotentDefault | StRoot/StFwdTrackMaker/StFwdTrackMaker.cxx:150-151 | with the default bins (3.0, 0.1) rastering is idempotent on every point |
| SiRaster.RasterNotIdempotentNegativeMid | StRoot/StFwdTrackMaker/StFwdTrackMaker.cxx:164 | a point whose radius midpoint is negative is flipped by `SetPerp` and rasters differently the second time |
| SiRaster.RasterNotIdempotentWrap | StRoot/StFwdTrackMaker/StFwdTrackMaker.cxx:165 | a φ midpoint above π wraps on read-back and rasters differently the second time |
| SiCov.UniformVariance | StRoot/StFwdTrackMaker/StFwdTrackMaker.cxx:401-404 | the variance of a uniform cell of width `size`, `(size/√12)²`, is non-negative |
| SiCov.RightFactor | StRoot/StFwdTrackMaker/StFwdTrackMaker.cxx:409-417 | the right factor `J` is the transpose of the left factor `T` |
| SiCov.SiCovMat | StRoot/StFwdTrackMaker/StFwdTrackMaker.cxx:385-440 | the third row and column are zero except entry (2,2), which is 0.01² |
| SiCov.SiCovEntries | StRoot/StFwdTrackMaker/StFwdTrackMaker.cxx:419-431 | the 2x2 block is `c²a + R²s²b`, `cs(a - R²b)` and `s²a + R²c²b` with `a = dr²`, `b = dφ²` |
| SiCov.SiCovSymmetric | StRoot/StFwdTrackMaker/StFwdTrackMaker.cxx:428-436 | the matrix is symmetric, and its x and y variances are non-negative |
| SiCov.SiCovTrace | StRoot/StFwdTrackMaker/StFwdTrackMaker.cxx:419-429 | for a unit direction the xx and yy entries sum to `dr² + R²dφ²` |
| SiCov.SiCovPositive | StRoot/StFwdTrackMaker/StFwdTrackMaker.cxx:419-431 | the 2x2 block is positive semidefinite: `uᵀMu >= 0` for every vector `u` |
| SiCov.SiCovDefaultVariances | StRoot/StFwdTrackMaker/StFwdTrackMaker.cxx:388-389 | with the default sizes the variances are 0.75 and 0.004²/12 |
| Hits.Touch | StRoot/StFwdTrackMaker/StFwdTrackMaker.cxx:533 | `mcTrackMap[k]` adds key `k` with a null entry when it is missing and changes nothing else |
| Hits.Push | StRoot/StFwdTrackMaker/StFwdTrackMaker.cxx:536 | pushing a hit extends the bucket of its own sector by that hit and leaves every other bucket unchanged |
| Hits.AddHit | StRoot/StFwdTrackMaker/StFwdTrackMaker.cxx:539-540 | `addHit` appends the hit to that track's list only |
| Hits.Emit | StRoot/StFwdTrackMaker/StFwdTrackMaker.cxx:533 | a new hit carries the given id, layer and track id |
| Hits.EmittedIds | StRoot/StFwdTrackMaker/StFwdTrackMaker.cxx:533 | created hits are numbered `count, count+1, …` in input order |
| Hits.ApplyShape | StRoot/StFwdTrackMaker/StFwdTrackMaker.cxx:533-540 | one record advances the id only when it creates a hit, fills only that hit's bucket, adds only the key it reads, and keeps which keys hold tracks |
| Hits.ApplyTrack | StRoot/StFwdTrackMaker/StFwdTrackMaker.cxx:539-540 | one record appends its hit id to a present track only when it links, and a null entry stays null |
| Hits.ApplyBucket | StRoot/StFwdTrackMaker/StFwdTrackMaker.cxx:536 | one record's hit goes into its own sector's bucket only |
| Hits.RunNext | StRoot/StFwdTrackMaker/StFwdTrackMaker.cxx:533 | a loader hands out exactly one id per created hit |
| Hits.RunBuckets | StRoot/StFwdTrackMaker/StFwdTrackMaker.cxx:536 | after a loader each bucket holds its old hits followed by the created hits of that sector, in order |
| Hits.RunKeys | StRoot/StFwdTrackMaker/StFwdTrackMaker.cxx:533-540 | a loader keeps exactly the tracks it started with, and its table keys are the old ones plus those it read |
| Hits.RunTracks | StRoot/StFwdTrackMaker/StFwdTrackMaker.cxx:539-540 | every present track gains exactly the ids of the linked hits that carry its id, in order; entries created by reads stay null |
| Hits.InSectorExact | StRoot/StFwdTrackMaker/StFwdTrackMaker.cxx:536 | a created hit is in the bucket of its own sector and in no other |
| Hits.RunSameTracks | StRoot/StFwdTrackMaker/StFwdTrackMaker.cxx:533-540 | a loader changes neither which keys hold tracks nor their pseudorapidity |
| Ingestion.TrackRef | StRoot/StFwdTrackMaker/StFwdTrackMaker.cxx:533 | the track handed to a hit is non-null iff the table holds a track under its id |
| Ingestion.StgcPlaneRange | StRoot/StFwdTrackMaker/StFwdTrackMaker.cxx:494-520 | the truncated plane `(vid-1)/4` is in 0..3 iff `-2 <= vid <= 16`; for `vid >= 1` it is the ordinary quotient |
| Ingestion.StgcGeantAction | StRoot/StFwdTrackMaker/StFwdTrackMaker.cxx:487-541 | a GEANT sTGC record is read iff present with plane 0..3; kept unless the eta filter drops it; a kept hit has layer `-plane` of its own volume, in -3..0, position (x + blurX, y + blurY, z), the record's track id, the fixed 0.01² covariance, and a back-link |
| Ingestion.StgcEventAction | StRoot/StFwdTrackMaker/StFwdTrackMaker.cxx:562-593 | a shared record is an sTGC hit iff layer > 6, with layer `9 - layer`; it reads and links the table only for a positive truth id; it has a track iff that id is positive and present |
| Ingestion.FstEventAction | StRoot/StFwdTrackMaker/StFwdTrackMaker.cxx:629-651 | a shared record is a silicon hit iff layer <= 6, keeping its layer; it always reads the table at its truth id and never links |
| Ingestion.SiPosition | StRoot/StFwdTrackMaker/StFwdTrackMaker.cxx:690-699 | the hit position keeps z and is rastered only when the rasterizer is active |
| Ingestion.FsiDiskRange | StRoot/StFwdTrackMaker/StFwdTrackMaker.cxx:680-704 | the disk `vid/1000` (truncated) is in 4..6 iff `4000 <= vid <= 6999` |
| Ingestion.FsiDiskDiv | StRoot/StFwdTrackMaker/StFwdTrackMaker.cxx:681 | for non-negative volume ids the truncated disk is the ordinary quotient |
| Ingestion.FsiGeantAction | StRoot/StFwdTrackMaker/StFwdTrackMaker.cxx:672-720 | a GEANT silicon record is kept iff present with volume 4000..6999; a kept hit has layer = disk in 4..6, the record's track id and a read of its table entry; it lies at the (rasterized) radius along `dir` of the (rasterized) angle, at the (rasterized) z, with `makeSiCovMat` of that direction and radius; it never links |
| Ingestion.ProtoAtRadius | StRoot/StFwdTrackMaker/StFwdTrackMaker.cxx:396-430 | a hit placed at radius r along a unit direction, with the covariance built from them, is at distance r from the beam, gives back the direction as (x/r, y/r) for r > 0, and its xx and yy variances sum to `dr² + r²dφ²` |
| Ingestion.UnitRadius | StRoot/StFwdTrackMaker/StFwdTrackMaker.cxx:396-400 | a point at radius r along a unit direction has squared distance r², and dividing by r recovers the direction |
| Ingestion.FsiGeantPosition | StRoot/StFwdTrackMaker/StFwdTrackMaker.cxx:690-699 | the silicon hit position is valid; when rastered it is within half an r bin of the GEANT one, otherwise it is the GEANT one |
| Ingestion.FsiGeantCov | StRoot/StFwdTrackMaker/StFwdTrackMaker.cxx:715 | a silicon hit's covariance, computed from the possibly rastered position, is symmetric with a non-negative, positive semidefinite 2x2 block |
| Ingestion.ActionsStable | StRoot/StFwdTrackMaker/StFwdTrackMaker.cxx:514-540 | what a loader does with a record depends on the table only through which keys hold tracks and their pseudorapidity |
| HitLoading.FromRow | StRoot/StFwdTrackMaker/StFwdTrackMaker.cxx:740-748 | a new simulated track has the row's pt and eta and no hits |
| HitLoading.McTableKeys | StRoot/StFwdTrackMaker/StFwdTrackMaker.cxx:734-759 | the table keys are the old ones plus the row ids; exactly the old tracks and the row ids hold tracks; old tracks are kept |
| HitLoading.McTableFirstWins | StRoot/StFwdTrackMaker/StFwdTrackMaker.cxx:747-748 | for an id with no track yet, the first row carrying it defines the track |
| HitLoading.HitLoader.Clear | StRoot/StFwdTrackMaker/StFwdTrackMaker.cxx:233-237 | clearing empties the track table and both hit maps |
| HitLoading.HitLoader.LoadMcTracks | StRoot/StFwdTrackMaker/StFwdTrackMaker.cxx:723-760 | the table becomes the fold of the rows into the old table; the hit maps are unchanged; a missing table changes nothing |
| HitLoading.HitLoader.CountForwardTracks | StRoot/StFwdTrackMaker/StFwdTrackMaker.cxx:776-799 | counts the non-null tracks with 2.5 < eta < 4.0 and pt > 0.05 |
| HitLoading.HitLoader.StgcGeantRecord | StRoot/StFwdTrackMaker/StFwdTrackMaker.cxx:489-540 | one loop body: the new state is the record's action applied to the old one |
| HitLoading.HitLoader.StgcEventRecord | StRoot/StFwdTrackMaker/StFwdTrackMaker.cxx:563-592 | one loop body: the new state is the record's action applied to the old one |
| HitLoading.HitLoader.FstEventRecord | StRoot/StFwdTrackMaker/StFwdTrackMaker.cxx:630-649 | one loop body: the new silicon state is the record's action applied to the old one |
| HitLoading.HitLoader.FsiGeantRecord | StRoot/StFwdTrackMaker/StFwdTrackMaker.cxx:674-719 | one loop body: the new silicon state is the record's action applied to the old one |
| HitLoading.HitLoader.LoadStgcHitsFromGeant | StRoot/StFwdTrackMaker/StFwdTrackMaker.cxx:462-542 | the sTGC hits and the table are the run of the records' actions; the silicon hits are unchanged |
| HitLoading.HitLoader.LoadStgcHitsFromStEvent | StRoot/StFwdTrackMaker/StFwdTrackMaker.cxx:544-594 | the same for the shared collection's sTGC records; no event changes nothing |
| HitLoading.HitLoader.LoadFstHitsFromStEvent | StRoot/StFwdTrackMaker/StFwdTrackMaker.cxx:614-652 | the silicon hits and the table are the run of the shared collection's silicon actions; the sTGC hits are unchanged |
| HitLoading.HitLoader.LoadFstHitsFromGeant | StRoot/StFwdTrackMaker/StFwdTrackMaker.cxx:654-721 | the silicon hits and the table are the run of the GEANT silicon actions |
| HitLoading.HitLoader.LoadStgcHits | StRoot/StFwdTrackMaker/StFwdTrackMaker.cxx:442-460 | reads GEANT when there is no shared collection or the source is "GEANT", and the event otherwise |
| HitLoading.HitLoader.LoadFstHits | StRoot/StFwdTrackMaker/StFwdTrackMaker.cxx:596-612 | reads GEANT when the rasterizer is active or there is no shared collection, and the event otherwise |
| HitLoading.HitLoader.MakeInput | StRoot/StFwdTrackMaker/StFwdTrackMaker.cxx:764-816 | skips iff the forward count exceeds the maximum (default 10000), with only the table loaded; otherwise the hit maps and the table are the sTGC run, then the silicon run, both from `count` |
| Fill.TrackFlag | StRoot/StFwdTrackMaker/StFwdTrackMaker.cxx:1111-1118 | the flag is 501, 601 or 0 |
| Fill.FlagEncoding | StRoot/StFwdTrackMaker/StFwdTrackMaker.cxx:1064-1120 | the flag is 0 exactly for other types; a nonzero flag ends in 01 (good fit), with detector digit 5 iff global and 6 iff primary |
| Fill.FillCovM | StRoot/StFwdTrackMaker/StFwdTrackMaker.cxx:1192-1198 | the fifteen stores leave the buffer holding the upper triangle of the 5x5 covariance, column by column (`PackCov`) |
| Fill.PackCov | StRoot/StFwdTrackMaker/StFwdTrackMaker.cxx:1194-1198 | the packed covariance has 15 entries |
| Fill.PackCovSlots | StRoot/StFwdTrackMaker/StFwdTrackMaker.cxx:1194-1198 | entry (i, j) with i <= j is stored in slot `j(j+1)/2 + i` |
| Fill.SlotBijection | StRoot/StFwdTrackMaker/StFwdTrackMaker.cxx:1194-1198 | the slot map is a bijection between the upper triangle and 0..14: every slot is filled exactly once |
| Fill.DetCount | StRoot/StFwdTrackMaker/StFwdTrackMaker.cxx:1205-1209 | a detector's count is at most the number of points |
| Fill.CountHits | StRoot/StFwdTrackMaker/StFwdTrackMaker.cxx:1203-1209 | the tally array holds, for each detector, the number of points it measured |
| Fill.DetCountsSum | StRoot/StFwdTrackMaker/StFwdTrackMaker.cxx:1203-1209 | the per-detector counts add up to the number of points |
| Fill.DetCountPositive | StRoot/StFwdTrackMaker/StFwdTrackMaker.cxx:1205-1209 | a detector's count is positive iff it measured some point |
| Fill.CollectFitPoints | StRoot/StFwdTrackMaker/StFwdTrackMaker.cxx:1212-1217 | the recorded fit points are exactly the nonzero tallies, each cast to `unsigned char` |
| Fill.FitPointsExact | StRoot/StFwdTrackMaker/StFwdTrackMaker.cxx:1203-1217 | a detector has recorded fit points iff it measured a point, and it records its count (exactly, below 256) |
| Fill.ChiPerNdf | StRoot/StFwdTrackMaker/StFwdTrackMaker.cxx:1162-1165 | chi2 per degree of freedom, with the degrees truncated to `int`: absent iff they truncate to 0; otherwise times ndf it gives the chi2 |
| Fill.FillTrackFitTraits | StRoot/StFwdTrackMaker/StFwdTrackMaker.cxx:1147-1225 | no traits without a fit status; otherwise hypothesis 6, chi2/ndf, vertex chi2 -999, the packed covariance at point 0, the nonzero detector counts, and the primary-vertex flag for primary tracks |
| Fill.NumUsable | StRoot/StFwdTrackMaker/StFwdTrackMaker.cxx:1456-1487 | the number of usable points is at most the number of points |
| Fill.FillDetectorInfo | StRoot/StFwdTrackMaker/StFwdTrackMaker.cxx:1438-1499 | counts the points with a measurement and fitter information; the first (last) point is the earliest usable point of least (greatest) plane z, or (0, 0, ±9e9); the point count is the track's total, stored as an `unsigned char` |
| Fill.FirstPointUnique | StRoot/StFwdTrackMaker/StFwdTrackMaker.cxx:1482-1484 | the first point is determined by the track |
| Fill.LastPointUnique | StRoot/StFwdTrackMaker/StFwdTrackMaker.cxx:1478-1480 | the last point is determined by the track |
| Fill.FirstNotAfterLast | StRoot/StFwdTrackMaker/StFwdTrackMaker.cxx:1478-1484 | every usable point strictly between ±9e9 lies between the first and the last point in z |
| Fill.AcceptedCountPositive | StRoot/StFwdTrackMaker/StFwdTrackMaker.cxx:1495 | on an accepted track whose points all carry raw measurements, every point is usable, so the asserted count is positive |
| Fill.FillTrack | StRoot/StFwdTrackMaker/StFwdTrackMaker.cxx:997-1061 | length the absolute track length, seed quality the seed size, 4 possible points, the seed's truth vote, inner and outer z 0.0, the fit traits, the given detector info and the type's flag |
| Fill.AcceptedIdxExact | StRoot/StFwdTrackMaker/StFwdTrackMaker.cxx:947-957 | the accepted indices are increasing, are accepted, and include every accepted track |
| Fill.FillAccepted | StRoot/StFwdTrackMaker/StFwdTrackMaker.cxx:960-971 | for an accepted track: the detector info has its first and last points and its point count, and the node's global track is filled from the track, its seed and that info |
| Fill.FillTracks | StRoot/StFwdTrackMaker/StFwdTrackMaker.cxx:947-987 | after the loop, node k is the k-th accepted track filled with the seed of the same index, and the new detector infos follow the kept ones, the k-th new one paired with node k |
| Fill.FilledAll | StRoot/StFwdTrackMaker/StFwdTrackMaker.cxx:947-987 | at the end of the loop the nodes are exactly the accepted tracks in order, with the infos after the kept ones |
| Fill.StEventStore.FillEvent | StRoot/StFwdTrackMaker/StFwdTrackMaker.cxx:926-995 | removes the nodes and primary vertices; keeps the event's detector infos and appends after them; node k belongs to the k-th accepted track with the seed of the same index and is paired with info `old count + k` |
| GeomUtils.NatToString | StRoot/StFwdTrackMaker/include/Tracker/FwdGeomUtils.h:49 | a stream writes a natural number as a non-empty string of digits |
| GeomUtils.IntToString | StRoot/StFwdTrackMaker/include/Tracker/FwdGeomUtils.h:71 | an `int` is written with a minus sign when negative, then its digits |
| GeomUtils.ParseNatToString | StRoot/StFwdTrackMaker/include/Tracker/FwdGeomUtils.h:49 | reading back the written digits gives the number |
| GeomUtils.NatToStringInjective | StRoot/StFwdTrackMaker/include/Tracker/FwdGeomUtils.h:49 | distinct numbers are written differently |
| GeomUtils.FttPaths | StRoot/StFwdTrackMaker/include/Tracker/FwdGeomUtils.h:49-53 | planes 0..3 have the paths TGCP_8, TGCP_16, TGCP_24 and TGCP_32 |
| GeomUtils.FstPaths | StRoot/StFwdTrackMaker/include/Tracker/FwdGeomUtils.h:71 | disks 0..2 have the paths FTSD_1, FTSD_2 and FTSD_3 |
| GeomUtils.FttPathInjective | StRoot/StFwdTrackMaker/include/Tracker/FwdGeomUtils.h:49 | distinct planes have distinct paths |
| GeomUtils.FstPathInjective | StRoot/StFwdTrackMaker/include/Tracker/FwdGeomUtils.h:71 | distinct disks have distinct paths |
| GeomUtils.CursorAt | StRoot/StFwdTrackMaker/include/Tracker/FwdGeomUtils.h:26-32 | the node is set iff the path exists; without it all three fields are null; with it the volume is the node's |
| GeomUtils.ZAtFallback | StRoot/StFwdTrackMaker/include/Tracker/FwdGeomUtils.h:55-58 | a lookup without a transformation reports 0.0; otherwise the translation z plus the offset |
| GeomUtils.FwdGeomUtils.constructor | StRoot/StFwdTrackMaker/include/Tracker/FwdGeomUtils.h:12-15 | a new helper has the manager's navigator and a null cursor |
| GeomUtils.FwdGeomUtils.Cd | StRoot/StFwdTrackMaker/include/Tracker/FwdGeomUtils.h:21-34 | returns whether the path exists; on success the cursor holds the placement found there, on failure all three fields are null |
| GeomUtils.FwdGeomUtils.FttZ | StRoot/StFwdTrackMaker/include/Tracker/FwdGeomUtils.h:43-59 | the z of the plane's path plus 0.435028, or 0.0 on failure; the cursor is at that path |
| GeomUtils.FwdGeomUtils.FstZ | StRoot/StFwdTrackMaker/include/Tracker/FwdGeomUtils.h:69-77 | the z of the disk's path with no offset, or 0.0 on failure; the cursor is at that path |
| GeomUtils.FwdGeomUtils.FttZDefaults | StRoot/StFwdTrackMaker/include/Tracker/FwdGeomUtils.h:36-42 | returns the caller's defaults unchanged; the cursor is at TGCP_32 if plane 0's z exceeds 1.0, else at TGCP_8 |
| GeomUtils.FwdGeomUtils.FstZDefaults | StRoot/StFwdTrackMaker/include/Tracker/FwdGeomUtils.h:61-67 | returns the caller's defaults unchanged; the cursor is at FTSD_3 if disk 0's z exceeds 1.0, else at FTSD_1 |

## Left out

- Helix and field math: the parts of `FillTrackGeometry` and `FillTrackDcaGeometry` that extrapolate with the fitter, build the helix and read the field map are not modelled. These are foreign calls and floating-point physics, so the inner and outer geometries and the DCA geometry of an output track are absent from `Fill.TrackRecord`.
- The external tracker, the fitter, and `doEvent`: a fitted track and its seed are inputs.
- Random numbers: the Gaussian blur of sTGC GEANT positions is an input of the record (`blurX`, `blurY`).
- Diagnostics: histograms, tree filling and logging are not modelled. This includes the tree block's reads of `mcTrackMap[track_id]->mPt`, which would dereference null entries.
- Memory lifetime: `new`/`delete`, `shared_ptr` ownership and the release loop after the tracker has run; collections are values.
- Configuration loading: the configuration is a key-to-value map with the defaults the maker uses. `Config` turns a value of the wrong kind into the default.
- `sqrt`, `atan2`, `sin` and `cos`:
  - a silicon GEANT record gives its position in polar form (r, φ, z), and a direction oracle `dir` gives (cos φ, sin φ);
  - the simulated-track rows give pt and φ directly;
  - `makeSiCovMat` takes c, s and R (R = 0, which makes the C++ divide by zero, is not treated specially).
- Floating point: every `float` and `double` is a real, so rounding, the `float` copies of positions and chi2, and the non-finite value of a chi2 divided by 0 degrees of freedom are not modelled. `Fill.ChiPerNdf` gives no value there.
- SiRaster.Raster: non-positive bin sizes are excluded by `Ingestion.RasterOk`. The source would divide by zero or produce meaningless bins.
- Fill.FillDetectorInfo: the intermediate `setNumberOfPoints((unsigned char)count)` is overwritten by the final one, so only the final one is modelled. `assert(count)` is not a check: the count is returned, and `Fill.AcceptedCountPositive` proves it positive for accepted tracks whose points all carry measurements.
- Fill.FillCovM: the local `float[15]` buffer is modelled as a sequence updated slot by slot rather than as an array. Since the buffer is local and copied into the traits, no aliasing is lost.
- Fill.FillTrackFitTraits: `kMaxDetectorId` is the parameter `numDetIds`. The track's `encodedMethod` (`kUndefinedFitterId`) is not modelled. The reads that crash in the source are preconditions (`Fill.FitTraitsReady`): a point without a raw measurement, a detector id outside the tally array, and no fitted state at point 0.
- Fill.FillTrack: `abs(track_len)` is modelled as the absolute value of a `double`. It would truncate to an integer if only the C `int abs(int)` were in scope.
- HitLoading.HitLoader.LoadStgcHitsFromStEvent: an event without a hit collection is excluded by a precondition, because the source logs and then dereferences the null collection. The same precondition applies to `LoadFstHitsFromStEvent`.
- HitLoading.HitLoader.CountForwardTracks: it visits the table's keys in an arbitrary order rather than ascending, since the count does not depend on the order.
- HitLoading.HitLoader.MakeInput: the return codes of `Make`, the tracking, and the filling of the event after the hits are loaded are not modelled here (see `Fill`). The sector of a hit (`getSector`) is its layer, because the hit class is not part of this model.
- Fill.StEventStore.FillEvent: removing the event's node and vertex containers is modelled as emptying two sequences. `push_back` is modelled as appending to sequences, and the detector infos already in the event are kept. The primary vertices are only removed. `FillReady` requires at least as many seeds as tracks, because the source indexes `seed_tracks[track_count_total]` without a bound check (line 950). It also requires a readable fit status on every track, as `accept` needs.
- Truth.TheTruth: an empty seed is excluded by `requires |seed| > 0`, because the source then computes `int(100.0 * nmax / 0.0)` with `count` = 0 (line 138).
- FitTrack.Accept: `StatusReadable` is required because a track with points but no fit status is dereferenced as `status->isFitConverged()` at line 64. The same requirement is part of `AcceptIff` and of `Fill.FillReady`.
- Fill.FillDetectorInfo: the final `setNumberOfPoints(ntotal, kUnknownId)` is modelled as storing `ntotal` truncated to `unsigned char`, the type the earlier `(unsigned char)count` store passes to the same setter. The per-detector packing inside `StTrackDetectorInfo` is not part of this model.
