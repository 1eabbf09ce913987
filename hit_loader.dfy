/**
 * The per-event input stage of the forward-tracking maker: the hit loader
 * owns the table of simulated tracks and the two hit maps (sTGC hits and
 * silicon hits, each bucketed by sector), and the maker fills them from the
 * event's records. The loaders are methods over the loader's maps; each is
 * proved to leave the maps in the state that the `Run` of its records'
 * actions describes, so the lemmas of `Hits` and `Ingestion` apply to it.
 */
module HitLoading {
  import opened Wrappers
  import opened CppArith
  import opened Config
  import opened SiRaster
  import opened SiCov
  import opened OrderedKeys
  import opened Hits
  import opened Ingestion

  /** A simulated track record: id, transverse momentum, pseudorapidity, azimuth, charge and start vertex. */
  datatype McRow = McRow(id: int, pt: real, eta: real, phi: real, charge: int, startVertex: int)

  /** The reconstructed event, with its R&D hit collection (possibly missing). */
  datatype StEventData = StEventData(rnd: Option<seq<RndHit>>)

  /**
   * The records of one event: the simulated track table, the simulated sTGC
   * and silicon hit tables (each possibly missing, each row possibly null),
   * and the reconstructed event (possibly missing).
   */
  datatype EventInput = EventInput(
    mcRows: Option<seq<Option<McRow>>>,
    stgcRows: Option<seq<Option<GeantHit>>>,
    fsiRows: Option<seq<Option<FsiHit>>>,
    event: Option<StEventData>)

  /** The rows of a table; a missing table has none. */
  function Rows<T>(table: Option<seq<T>>): seq<T>
  {
    if table.None? then [] else table.value
  }

  /** The R&D hit collection of the event, if both exist. */
  function Rnd(input: EventInput): Option<seq<RndHit>>
  {
    if input.event.None? then None else input.event.value.rnd
  }

  /** The hits of the R&D collection of an event (none without an event). */
  function EventHits(event: Option<StEventData>): seq<RndHit>
    requires event.Some? ==> event.value.rnd.Some?
  {
    if event.None? then [] else event.value.rnd.value
  }

  /** The track built from a simulated track record, with no hits yet. */
  function FromRow(t: McRow): (r: McTrack)
    ensures r.hits == [] && r.eta == t.eta && r.pt == t.pt
  {
    McTrack(t.pt, t.eta, t.phi, t.charge, t.startVertex, [])
  }

  /** One simulated track record: stored unless the table already holds a track under its id. */
  function AddMcRow(m: McMap, row: Option<McRow>): McMap
  {
    if row.None? then m
    else if HasTrack(m, row.value.id) then m
    else m[row.value.id := Some(FromRow(row.value))]
  }

  /** The table after `loadMcTracks` read the given records, in order. */
  function McTable(m: McMap, rows: seq<Option<McRow>>): McMap
  {
    if rows == [] then m else AddMcRow(McTable(m, rows[..|rows| - 1]), rows[|rows| - 1])
  }

  /** The ids of the non-null simulated track records. */
  function McIds(rows: seq<Option<McRow>>): set<int>
  {
    set i | 0 <= i < |rows| && rows[i].Some? :: rows[i].value.id
  }

  /** The first non-null record with id `k` is at `i`. */
  predicate FirstWithId(rows: seq<Option<McRow>>, k: int, i: int)
  {
    && 0 <= i < |rows| && rows[i].Some? && rows[i].value.id == k
    && forall j :: 0 <= j < i ==> !(rows[j].Some? && rows[j].value.id == k)
  }

  /**
   * Loading adds the ids of the records to the table, each holding a track;
   * a track already there stays as it was.
   */
  lemma {:induction false} McTableKeys(m: McMap, rows: seq<Option<McRow>>)
    ensures McTable(m, rows).Keys == m.Keys + McIds(rows)
    ensures forall k :: k in McIds(rows) ==> HasTrack(McTable(m, rows), k)
    ensures forall k :: HasTrack(m, k) ==> McTable(m, rows)[k] == m[k]
    ensures forall k :: HasTrack(McTable(m, rows), k) <==> HasTrack(m, k) || k in McIds(rows)
    ensures forall k :: k in m && k !in McIds(rows) ==> McTable(m, rows)[k] == m[k]
  {
    if rows != [] {
      var init := rows[..|rows| - 1];
      McTableKeys(m, init);
      assert McIds(rows) == McIds(init) + (if rows[|rows| - 1].Some? then {rows[|rows| - 1].value.id} else {}) by {
        forall k | k in McIds(rows) ensures k in McIds(init) + (if rows[|rows| - 1].Some? then {rows[|rows| - 1].value.id} else {}) {
          var i :| 0 <= i < |rows| && rows[i].Some? && rows[i].value.id == k;
          if i < |rows| - 1 { assert init[i] == rows[i]; }
        }
        forall k | k in McIds(init) ensures k in McIds(rows) {
          var i :| 0 <= i < |init| && init[i].Some? && init[i].value.id == k;
          assert rows[i] == init[i];
        }
      }
    }
  }

  /** An id the table held no track under gets the track of its first record: the first record wins. */
  lemma {:induction false} McTableFirstWins(m: McMap, rows: seq<Option<McRow>>, k: int, i: int)
    requires !HasTrack(m, k) && FirstWithId(rows, k, i)
    ensures HasTrack(McTable(m, rows), k) && McTable(m, rows)[k] == Some(FromRow(rows[i].value))
  {
    var init := rows[..|rows| - 1];
    McTableKeys(m, init);
    if i == |rows| - 1 {
    } else {
      assert FirstWithId(init, k, i) by {
        forall j | 0 <= j < i ensures !(init[j].Some? && init[j].value.id == k) {
          assert init[j] == rows[j];
        }
      }
      McTableFirstWins(m, init, k, i);
    }
  }

  /** A simulated track counts toward the forward multiplicity: 2.5 < eta < 4.0 and pt > 0.05. */
  predicate IsForward(t: McTrack)
  {
    2.5 < t.eta < 4.0 && t.pt > 0.05
  }

  /** The forward tracks among the keys `s` of the table. */
  function ForwardIn(m: McMap, s: set<int>): set<int>
  {
    set k | k in s && k in m && m[k].Some? && IsForward(m[k].value)
  }

  function StgcActions(cfg: FwdTrackerConfig, m: McMap, input: EventInput): seq<Action>
  {
    if Rnd(input).None? || FttFromGeant(cfg) then StgcGeantActions(m, FttFilter(cfg), Rows(input.stgcRows))
    else StgcEventActions(m, Rnd(input).value)
  }

  function FstActions(cfg: FwdTrackerConfig, dir: real -> (real, real), m: McMap, input: EventInput): seq<Action>
    requires RasterOk(cfg)
  {
    if RasterActive(cfg) || Rnd(input).None? then FsiGeantActions(cfg, dir, m, Rows(input.fsiRows))
    else FstEventActions(m, Rnd(input).value)
  }

  class HitLoader {
    /** The simulated tracks by id; an entry may be null. */
    var mcTracks: McMap
    /** The sTGC hits by sector. */
    var hits: HitMap
    /** The silicon hits by sector. */
    var fsiHits: HitMap

    constructor ()
      ensures mcTracks == map[] && hits == map[] && fsiHits == map[]
    {
      mcTracks := map[];
      hits := map[];
      fsiHits := map[];
    }

    /** The loader forgets the event. */
    method Clear()
      modifies this
      ensures mcTracks == map[] && hits == map[] && fsiHits == map[]
    {
      mcTracks := map[];
      hits := map[];
      fsiHits := map[];
    }

    /** `loadMcTracks`: stores the track of every record whose id holds no track yet. */
    method LoadMcTracks(table: Option<seq<Option<McRow>>>)
      modifies this
      ensures mcTracks == McTable(old(mcTracks), Rows(table))
      ensures hits == old(hits) && fsiHits == old(fsiHits)
    {
      if table.None? {
        return;
      }
      var rows := table.value;
      ghost var m0 := mcTracks;
      var i := 0;
      while i < |rows|
        invariant 0 <= i <= |rows|
        invariant mcTracks == McTable(m0, rows[..i])
        invariant hits == old(hits) && fsiHits == old(fsiHits)
      {
        assert rows[..i + 1][..i] == rows[..i];
        var row := rows[i];
        if row.Some? {
          var t := row.value;
          if t.id !in mcTracks {
            mcTracks := mcTracks[t.id := None];
          }
          if mcTracks[t.id].None? {
            mcTracks := mcTracks[t.id := Some(McTrack(t.pt, t.eta, t.phi, t.charge, t.startVertex, []))];
          }
        }
        i := i + 1;
      }
      assert rows[..|rows|] == rows;
    }

    /** The number of forward simulated tracks in the table. */
    method CountForwardTracks() returns (n: nat)
      ensures n == |ForwardIn(mcTracks, mcTracks.Keys)|
    {
      n := 0;
      var rest := mcTracks.Keys;
      ghost var done: set<int> := {};
      while rest != {}
        invariant rest !! done && rest + done == mcTracks.Keys
        invariant n == |ForwardIn(mcTracks, done)|
        decreases |rest|
      {
        ghost var some := AnyKey(rest);
        var k :| k in rest;
        if mcTracks[k].Some? && IsForward(mcTracks[k].value) {
          assert ForwardIn(mcTracks, done + {k}) == ForwardIn(mcTracks, done) + {k};
          n := n + 1;
        } else {
          assert ForwardIn(mcTracks, done + {k}) == ForwardIn(mcTracks, done);
        }
        rest := rest - {k};
        done := done + {k};
      }
    }

    /** The body of the `loadStgcHitsFromGEANT` loop: one record; returns the next hit id. */
    method StgcGeantRecord(filter: bool, row: Option<GeantHit>, count: int) returns (next: int)
      modifies this
      ensures Ingest(hits, mcTracks, next) == Apply(Ingest(old(hits), old(mcTracks), count), StgcGeantAction(old(mcTracks), filter, row))
      ensures fsiHits == old(fsiHits)
    {
      ghost var a := StgcGeantAction(mcTracks, filter, row);
      ghost var m0 := mcTracks;
      next := count;
      if row.Some? {
        var g := row.value;
        var plane := TruncDiv(g.volumeId - 1, 4);
        if plane < 4 && plane >= 0 {
          var dropped := filter && HasTrack(mcTracks, g.trackId) && FAbs(mcTracks[g.trackId].value.eta) > 5.0;
          assert dropped == FilteredOut(m0, filter, g.trackId);
          mcTracks := Touch(mcTracks, g.trackId);
          assert TrackRef(mcTracks, g.trackId) == TrackRef(m0, g.trackId);
          if !dropped {
            var hit := FwdHit(next, g.x + g.blurX, g.y + g.blurY, g.z, -plane, g.trackId, StgcCov, TrackRef(mcTracks, g.trackId));
            assert a.hit == Some(HitProto(g.x + g.blurX, g.y + g.blurY, g.z, -plane, g.trackId, StgcCov, TrackRef(m0, g.trackId)));
            assert hit == Emit(a.hit.value, count);
            next := next + 1;
            hits := Push(hits, hit);
            if HasTrack(mcTracks, g.trackId) {
              mcTracks := AddHit(mcTracks, g.trackId, hit.id);
            }
          } else {
            assert a == Action(Some(g.trackId), None, false);
          }
        } else {
          assert a == Skip;
        }
      }
    }

    /** The body of the `loadStgcHitsFromStEvent` loop: one hit; returns the next hit id. */
    method StgcEventRecord(h: RndHit, count: int) returns (next: int)
      modifies this
      ensures Ingest(hits, mcTracks, next) == Apply(Ingest(old(hits), old(mcTracks), count), StgcEventAction(old(mcTracks), h))
      ensures fsiHits == old(fsiHits)
    {
      next := count;
      if h.layer > 6 {
        var layer := h.layer - 9;
        var mct := None;
        if h.idTruth > 0 && h.idTruth in mcTracks {
          mct := TrackRef(mcTracks, h.idTruth);
        }
        var hit := FwdHit(next, h.x, h.y, h.z, -layer, h.idTruth, h.cov, mct);
        next := next + 1;
        hits := Push(hits, hit);
        if h.idTruth > 0 {
          mcTracks := Touch(mcTracks, h.idTruth);
          if HasTrack(mcTracks, h.idTruth) {
            mcTracks := AddHit(mcTracks, h.idTruth, hit.id);
          }
        }
      }
    }

    /** The body of the `loadFstHitsFromStEvent` loop: one hit; returns the next hit id. */
    method FstEventRecord(h: RndHit, count: int) returns (next: int)
      modifies this
      ensures Ingest(fsiHits, mcTracks, next) == Apply(Ingest(old(fsiHits), old(mcTracks), count), FstEventAction(old(mcTracks), h))
      ensures hits == old(hits)
    {
      next := count;
      if h.layer <= 6 {
        mcTracks := Touch(mcTracks, h.idTruth);
        var hit := FwdHit(next, h.x, h.y, h.z, h.layer, h.idTruth, h.cov, TrackRef(mcTracks, h.idTruth));
        next := next + 1;
        fsiHits := Push(fsiHits, hit);
      }
    }

    /** The body of the `loadFstHitsFromGEANT` loop: one record; returns the next hit id. */
    method FsiGeantRecord(cfg: FwdTrackerConfig, dir: real -> (real, real), row: Option<FsiHit>, count: int) returns (next: int)
      requires RasterOk(cfg) && UnitDir(dir)
      modifies this
      ensures Ingest(fsiHits, mcTracks, next) == Apply(Ingest(old(fsiHits), old(mcTracks), count), FsiGeantAction(cfg, dir, old(mcTracks), row))
      ensures hits == old(hits)
    {
      next := count;
      if row.Some? {
        var g := row.value;
        var d := TruncDiv(g.volumeId, 1000);
        var q := g.pos;
        if RasterActive(cfg) {
          q := Raster(q, RasterR(cfg), RasterPhi(cfg));
        }
        var planeId := d - 4;
        if planeId < 3 && planeId >= 0 {
          var (c, s) := dir(q.phi);
          var cov := SiCovMat(c, s, q.r, CovRSize(cfg), CovPhiSize(cfg));
          ghost var p := HitProto(q.r * c, q.r * s, q.z, d, g.trackId, cov, TrackRef(mcTracks, g.trackId));
          assert q == SiPosition(cfg, g.pos);
          assert d == FsiDisk(g.volumeId);
          assert (c, s) == dir(SiPosition(cfg, g.pos).phi);
          assert FsiGeantAction(cfg, dir, mcTracks, row).hit.value.cov == cov;
          assert FsiGeantAction(cfg, dir, mcTracks, row).hit.value.x == q.r * c;
          assert FsiGeantAction(cfg, dir, mcTracks, row).hit.value.y == q.r * s;
          assert FsiGeantAction(cfg, dir, mcTracks, row).hit.value == p;
          assert FsiGeantAction(cfg, dir, mcTracks, row) == Action(Some(g.trackId), Some(p), false);
          mcTracks := Touch(mcTracks, g.trackId);
          var hit := FwdHit(next, q.r * c, q.r * s, q.z, d, g.trackId, cov, TrackRef(mcTracks, g.trackId));
          assert hit == Emit(p, count);
          next := next + 1;
          fsiHits := Push(fsiHits, hit);
        } else {
          FsiDiskRange(g.volumeId);
          assert FsiGeantAction(cfg, dir, mcTracks, row) == Skip;
        }
      }
    }

    /** `loadStgcHitsFromGEANT`, numbering the new hits from `count`. */
    method LoadStgcHitsFromGeant(cfg: FwdTrackerConfig, table: Option<seq<Option<GeantHit>>>, count: int)
      modifies this
      ensures var r := Run(Ingest(old(hits), old(mcTracks), count),
                           StgcGeantActions(old(mcTracks), FttFilter(cfg), Rows(table)));
        hits == r.hits && mcTracks == r.tracks
      ensures fsiHits == old(fsiHits)
    {
      var rows := Rows(table);
      var filter := FttFilter(cfg);
      ghost var s0 := Ingest(hits, mcTracks, count);
      ghost var acts := StgcGeantActions(mcTracks, filter, rows);
      var next := count;
      var i := 0;
      while i < |rows|
        invariant 0 <= i <= |rows|
        invariant Ingest(hits, mcTracks, next) == Run(s0, acts[..i])
        invariant fsiHits == old(fsiHits)
      {
        RunSameTracks(s0, acts[..i]);
        ActionsStable(map[], x => (1.0, 0.0), s0.tracks, mcTracks, filter, rows[i], RndHit(0, 0.0, 0.0, 0.0, 0, StgcCov), None);
        assert acts[i] == StgcGeantAction(mcTracks, filter, rows[i]);
        next := StgcGeantRecord(filter, rows[i], next);
        RunPrefixStep(s0, acts, i, Ingest(hits, mcTracks, next));
        i := i + 1;
      }
      assert acts[..|rows|] == acts;
    }

    /** `loadStgcHitsFromStEvent`: the sTGC hits of the R&D collection, numbered from `count`. */
    method LoadStgcHitsFromStEvent(event: Option<StEventData>, count: int)
      requires event.Some? ==> event.value.rnd.Some?
      modifies this
      ensures var r := Run(Ingest(old(hits), old(mcTracks), count), StgcEventActions(old(mcTracks), EventHits(event)));
        hits == r.hits && mcTracks == r.tracks
      ensures fsiHits == old(fsiHits)
    {
      if event.None? {
        return;
      }
      var rhits := event.value.rnd.value;
      ghost var s0 := Ingest(hits, mcTracks, count);
      ghost var acts := StgcEventActions(mcTracks, rhits);
      var next := count;
      var i := 0;
      while i < |rhits|
        invariant 0 <= i <= |rhits|
        invariant Ingest(hits, mcTracks, next) == Run(s0, acts[..i])
        invariant fsiHits == old(fsiHits)
      {
        RunSameTracks(s0, acts[..i]);
        ActionsStable(map[], x => (1.0, 0.0), s0.tracks, mcTracks, false, None, rhits[i], None);
        assert acts[i] == StgcEventAction(mcTracks, rhits[i]);
        next := StgcEventRecord(rhits[i], next);
        RunPrefixStep(s0, acts, i, Ingest(hits, mcTracks, next));
        i := i + 1;
      }
      assert acts[..|rhits|] == acts;
    }

    /** `loadFstHitsFromStEvent`: the silicon hits of the R&D collection, numbered from `count`. */
    method LoadFstHitsFromStEvent(event: Option<StEventData>, count: int)
      requires event.Some? ==> event.value.rnd.Some?
      modifies this
      ensures var r := Run(Ingest(old(fsiHits), old(mcTracks), count), FstEventActions(old(mcTracks), EventHits(event)));
        fsiHits == r.hits && mcTracks == r.tracks
      ensures hits == old(hits)
    {
      if event.None? {
        return;
      }
      var rhits := event.value.rnd.value;
      ghost var s0 := Ingest(fsiHits, mcTracks, count);
      ghost var acts := FstEventActions(mcTracks, rhits);
      var next := count;
      var i := 0;
      while i < |rhits|
        invariant 0 <= i <= |rhits|
        invariant Ingest(fsiHits, mcTracks, next) == Run(s0, acts[..i])
        invariant hits == old(hits)
      {
        RunSameTracks(s0, acts[..i]);
        ActionsStable(map[], x => (1.0, 0.0), s0.tracks, mcTracks, false, None, rhits[i], None);
        assert acts[i] == FstEventAction(mcTracks, rhits[i]);
        next := FstEventRecord(rhits[i], next);
        RunPrefixStep(s0, acts, i, Ingest(fsiHits, mcTracks, next));
        i := i + 1;
      }
      assert acts[..|rhits|] == acts;
    }

    /**
     * `loadFstHitsFromGEANT`: the simulated silicon hits, rasterized when the
     * rasterizer is active, numbered from `count`.
     */
    method LoadFstHitsFromGeant(cfg: FwdTrackerConfig, dir: real -> (real, real), table: Option<seq<Option<FsiHit>>>, count: int)
      requires RasterOk(cfg) && UnitDir(dir)
      modifies this
      ensures var r := Run(Ingest(old(fsiHits), old(mcTracks), count), FsiGeantActions(cfg, dir, old(mcTracks), Rows(table)));
        fsiHits == r.hits && mcTracks == r.tracks
      ensures hits == old(hits)
    {
      var rows := Rows(table);
      ghost var s0 := Ingest(fsiHits, mcTracks, count);
      ghost var acts := FsiGeantActions(cfg, dir, mcTracks, rows);
      var next := count;
      var i := 0;
      while i < |rows|
        invariant 0 <= i <= |rows|
        invariant Ingest(fsiHits, mcTracks, next) == Run(s0, acts[..i])
        invariant hits == old(hits)
      {
        RunSameTracks(s0, acts[..i]);
        ActionsStable(cfg, dir, s0.tracks, mcTracks, false, None, RndHit(0, 0.0, 0.0, 0.0, 0, StgcCov), rows[i]);
        assert acts[i] == FsiGeantAction(cfg, dir, mcTracks, rows[i]);
        next := FsiGeantRecord(cfg, dir, rows[i], next);
        RunPrefixStep(s0, acts, i, Ingest(fsiHits, mcTracks, next));
        i := i + 1;
      }
      assert acts[..|rows|] == acts;
    }

    /** `loadStgcHits`: from the simulated records when the event has no R&D collection or the configuration asks for them. */
    method LoadStgcHits(cfg: FwdTrackerConfig, input: EventInput, count: int)
      modifies this
      ensures var r := Run(Ingest(old(hits), old(mcTracks), count), StgcActions(cfg, old(mcTracks), input));
        hits == r.hits && mcTracks == r.tracks
      ensures fsiHits == old(fsiHits)
    {
      var rnd := if input.event.Some? then input.event.value.rnd else None;
      if rnd.None? || FttFromGeant(cfg) {
        LoadStgcHitsFromGeant(cfg, input.stgcRows, count);
      } else {
        LoadStgcHitsFromStEvent(input.event, count);
      }
    }

    /** `loadFstHits`: from the simulated records when the rasterizer is active or the event has no R&D collection. */
    method LoadFstHits(cfg: FwdTrackerConfig, dir: real -> (real, real), input: EventInput, count: int)
      requires RasterOk(cfg) && UnitDir(dir)
      modifies this
      ensures var r := Run(Ingest(old(fsiHits), old(mcTracks), count), FstActions(cfg, dir, old(mcTracks), input));
        fsiHits == r.hits && mcTracks == r.tracks
      ensures hits == old(hits)
    {
      var rnd := if input.event.Some? then input.event.value.rnd else None;
      if RasterActive(cfg) || rnd.None? {
        LoadFstHitsFromGeant(cfg, dir, input.fsiRows, count);
      } else {
        LoadFstHitsFromStEvent(input.event, count);
      }
    }

    /**
     * The input stage of `Make`: load the simulated tracks, skip the event
     * when it has more forward tracks than the configured maximum, and
     * otherwise load the sTGC and silicon hits the maker is set to use. Both
     * loaders number their hits from the same `count`.
     */
    method MakeInput(cfg: FwdTrackerConfig, dir: real -> (real, real), input: EventInput, useFtt: bool, useFst: bool, count: int)
      returns (skipped: bool)
      requires RasterOk(cfg) && UnitDir(dir)
      modifies this
      ensures var m1 := McTable(old(mcTracks), Rows(input.mcRows));
        skipped <==> |ForwardIn(m1, m1.Keys)| > MaxForwardTracks(cfg)
      ensures var m1 := McTable(old(mcTracks), Rows(input.mcRows));
        skipped ==> mcTracks == m1 && hits == old(hits) && fsiHits == old(fsiHits)
      ensures var m1 := McTable(old(mcTracks), Rows(input.mcRows));
        var s1 := if useFtt then Run(Ingest(old(hits), m1, count), StgcActions(cfg, m1, input)) else Ingest(old(hits), m1, count);
        var s2 := if useFst then Run(Ingest(old(fsiHits), s1.tracks, count), FstActions(cfg, dir, s1.tracks, input))
                  else Ingest(old(fsiHits), s1.tracks, count);
        !skipped ==> hits == s1.hits && fsiHits == s2.hits && mcTracks == s2.tracks
    {
      LoadMcTracks(input.mcRows);
      var n := CountForwardTracks();
      if n > MaxForwardTracks(cfg) {
        return true;
      }
      if useFtt {
        LoadStgcHits(cfg, input, count);
      }
      if useFst {
        LoadFstHits(cfg, dir, input, count);
      }
      skipped := false;
    }
  }
}
