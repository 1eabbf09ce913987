/**
 * The per-event hit bookkeeping shared by every hit source: forward hits
 * kept in per-sector buckets, and the table of simulated tracks, in which an
 * entry may be null (the table is read with an operation that inserts a null
 * entry for an unknown id) and a track collects the ids of the hits it left.
 *
 * Every record a loader reads becomes one `Action`: which table key it
 * reads, which hit (if any) it creates and whether that hit is appended to
 * its simulated track. `Run` applies a sequence of actions to a state,
 * handing out consecutive hit ids; the lemmas here say what a run builds.
 */
module Hits {
  import opened Wrappers
  import opened SiCov

  /** A simulated track and the ids of the hits attached to it. */
  datatype McTrack = McTrack(pt: real, eta: real, phi: real, charge: int, startVertex: int, hits: seq<int>)

  /**
   * A forward hit: its id, position, layer (also its sector: negative for
   * the sTGC planes, positive for the silicon disks), the truth id, the
   * covariance and the simulated track it refers to (by table key), if any.
   */
  datatype FwdHit = FwdHit(id: int, x: real, y: real, z: real, layer: int, tid: int, cov: Mat3, track: Option<int>)

  type HitMap = map<int, seq<FwdHit>>
  type McMap = map<int, Option<McTrack>>

  /** The hits of one sector; a sector never written holds none. */
  function Bucket(m: HitMap, k: int): seq<FwdHit>
  {
    if k in m then m[k] else []
  }

  /** The table holds a (non-null) simulated track under `k`. */
  predicate HasTrack(m: McMap, k: int)
  {
    k in m && m[k].Some?
  }

  /** Reading the table at `k`: an unknown key gets a null entry. */
  function Touch(m: McMap, k: int): (r: McMap)
    ensures r.Keys == m.Keys + {k}
    ensures forall j :: j in m ==> r[j] == m[j]
    ensures k !in m ==> r[k] == None
  {
    if k in m then m else m[k := None]
  }

  /** Appending a hit to the bucket of its sector. */
  function Push(m: HitMap, h: FwdHit): (r: HitMap)
    ensures r.Keys == m.Keys + {h.layer}
    ensures forall k :: Bucket(r, k) == Bucket(m, k) + (if k == h.layer then [h] else [])
  {
    m[h.layer := Bucket(m, h.layer) + [h]]
  }

  /** Appending a hit id to the simulated track under `k`. */
  function AddHit(m: McMap, k: int, id: int): (r: McMap)
    requires HasTrack(m, k)
    ensures r.Keys == m.Keys && HasTrack(r, k)
    ensures r[k] == Some(m[k].value.(hits := m[k].value.hits + [id]))
    ensures forall j :: j in m && j != k ==> r[j] == m[j]
  {
    m[k := Some(m[k].value.(hits := m[k].value.hits + [id]))]
  }

  /** A hit before it is given its id. */
  datatype HitProto = HitProto(x: real, y: real, z: real, layer: int, tid: int, cov: Mat3, track: Option<int>)

  function Emit(p: HitProto, id: int): (h: FwdHit)
    ensures h.id == id && h.layer == p.layer && h.tid == p.tid
  {
    FwdHit(id, p.x, p.y, p.z, p.layer, p.tid, p.cov, p.track)
  }

  /**
   * What one input record does: the table key it reads (inserting a null
   * entry if unknown), the hit it creates, and whether that hit is appended
   * to the simulated track under its truth id when that track exists.
   */
  datatype Action = Action(touch: Option<int>, hit: Option<HitProto>, link: bool)

  const Skip: Action := Action(None, None, false)

  /** The hit buckets, the simulated-track table and the next hit id. */
  datatype Ingest = Ingest(hits: HitMap, tracks: McMap, next: int)

  function Apply(s: Ingest, a: Action): Ingest
  {
    var t := if a.touch.Some? then Touch(s.tracks, a.touch.value) else s.tracks;
    match a.hit
    case None => Ingest(s.hits, t, s.next)
    case Some(p) =>
      var t' := if a.link && HasTrack(t, p.tid) then AddHit(t, p.tid, s.next) else t;
      Ingest(Push(s.hits, Emit(p, s.next)), t', s.next + 1)
  }

  /** The state after the actions of all records, in order. */
  function Run(s: Ingest, acts: seq<Action>): Ingest
  {
    if acts == [] then s
    else Apply(Run(s, acts[..|acts| - 1]), acts[|acts| - 1])
  }

  /** The hits the actions create, numbered from `start`. */
  function Emitted(acts: seq<Action>, start: int): seq<FwdHit>
  {
    if acts == [] then []
    else
      var prev := Emitted(acts[..|acts| - 1], start);
      match acts[|acts| - 1].hit
      case None => prev
      case Some(p) => prev + [Emit(p, start + |prev|)]
  }

  /** The ids of the created hits that are appended to the simulated track under `k`. */
  function LinkedIds(acts: seq<Action>, start: int, k: int): seq<int>
  {
    if acts == [] then []
    else
      var prev := LinkedIds(acts[..|acts| - 1], start, k);
      var a := acts[|acts| - 1];
      if a.hit.Some? && a.link && a.hit.value.tid == k
      then prev + [start + |Emitted(acts[..|acts| - 1], start)|]
      else prev
  }

  /** The table keys the actions read. */
  function Touched(acts: seq<Action>): set<int>
  {
    if acts == [] then {}
    else
      var a := acts[|acts| - 1];
      Touched(acts[..|acts| - 1]) + (if a.touch.Some? then {a.touch.value} else {})
  }

  /** The created hits of a given sector, in order. */
  function InSector(hs: seq<FwdHit>, k: int): seq<FwdHit>
  {
    if hs == [] then []
    else InSector(hs[..|hs| - 1], k) + (if hs[|hs| - 1].layer == k then [hs[|hs| - 1]] else [])
  }

  /** Created hits are numbered consecutively from `start`. */
  lemma {:induction false} EmittedIds(acts: seq<Action>, start: int)
    ensures forall i :: 0 <= i < |Emitted(acts, start)| ==> Emitted(acts, start)[i].id == start + i
  {
    if acts != [] {
      EmittedIds(acts[..|acts| - 1], start);
    }
  }

  /** One action: the bucket it fills, the tracks it keeps and the keys it reads. */
  lemma ApplyShape(s: Ingest, a: Action)
    ensures Apply(s, a).next == s.next + (if a.hit.Some? then 1 else 0)
    ensures forall k :: (Bucket(Apply(s, a).hits, k) ==
      Bucket(s.hits, k) + (if a.hit.Some? && a.hit.value.layer == k then [Emit(a.hit.value, s.next)] else []))
    ensures forall k :: HasTrack(Apply(s, a).tracks, k) <==> HasTrack(s.tracks, k)
    ensures Apply(s, a).tracks.Keys == s.tracks.Keys + (if a.touch.Some? then {a.touch.value} else {})
  {
  }

  /** One action on the table entry under `k`. */
  lemma ApplyTrack(s: Ingest, a: Action, k: int)
    ensures HasTrack(s.tracks, k) ==> (HasTrack(Apply(s, a).tracks, k) &&
      Apply(s, a).tracks[k] == Some(s.tracks[k].value.(hits := s.tracks[k].value.hits +
        (if a.hit.Some? && a.link && a.hit.value.tid == k then [s.next] else []))))
    ensures !HasTrack(s.tracks, k) && k in Apply(s, a).tracks ==> Apply(s, a).tracks[k] == None
  {
    var t := if a.touch.Some? then Touch(s.tracks, a.touch.value) else s.tracks;
    assert HasTrack(t, k) <==> HasTrack(s.tracks, k);
    assert HasTrack(s.tracks, k) ==> t[k] == s.tracks[k];
    assert !HasTrack(s.tracks, k) && k in t ==> t[k] == None;
    if a.hit.Some? {
      var p := a.hit.value;
      if a.link && HasTrack(t, p.tid) {
        var t' := AddHit(t, p.tid, s.next);
        assert Apply(s, a).tracks == t';
        if HasTrack(s.tracks, k) && p.tid != k {
          assert t'[k] == t[k];
          assert s.tracks[k].value.(hits := s.tracks[k].value.hits + []) == s.tracks[k].value;
        }
      } else {
        assert Apply(s, a).tracks == t;
        if HasTrack(s.tracks, k) {
          assert s.tracks[k].value.(hits := s.tracks[k].value.hits + []) == s.tracks[k].value;
        }
      }
    } else {
      assert Apply(s, a).tracks == t;
      if HasTrack(s.tracks, k) {
        assert s.tracks[k].value.(hits := s.tracks[k].value.hits + []) == s.tracks[k].value;
      }
    }
  }

  /** One action on the bucket of sector `k`. */
  lemma ApplyBucket(s: Ingest, a: Action, k: int)
    ensures Bucket(Apply(s, a).hits, k) ==
      Bucket(s.hits, k) + (if a.hit.Some? && a.hit.value.layer == k then [Emit(a.hit.value, s.next)] else [])
  {
  }

  /** Appending one created hit extends its own sector only. */
  lemma InSectorSnoc(hs: seq<FwdHit>, h: FwdHit, k: int)
    ensures InSector(hs + [h], k) == InSector(hs, k) + (if h.layer == k then [h] else [])
  {
    assert (hs + [h])[..|hs + [h]| - 1] == hs;
  }

  /** A run hands out one id per created hit. */
  lemma {:induction false} RunNext(s: Ingest, acts: seq<Action>)
    ensures Run(s, acts).next == s.next + |Emitted(acts, s.next)|
  {
    if acts != [] {
      RunNext(s, acts[..|acts| - 1]);
      ApplyShape(Run(s, acts[..|acts| - 1]), acts[|acts| - 1]);
    }
  }

  /** A run fills each sector's bucket with the created hits of that sector, after the ones it held. */
  lemma {:induction false} RunBuckets(s: Ingest, acts: seq<Action>, k: int)
    ensures Bucket(Run(s, acts).hits, k) == Bucket(s.hits, k) + InSector(Emitted(acts, s.next), k)
  {
    if acts != [] {
      RunBuckets(s, acts[..|acts| - 1], k);
      RunBucketsStep(s, acts, k);
    }
  }

  /** The inductive step of RunBuckets: one more action keeps the buckets in step with the created hits. */
  lemma RunBucketsStep(s: Ingest, acts: seq<Action>, k: int)
    requires acts != []
    requires Bucket(Run(s, acts[..|acts| - 1]).hits, k) ==
      Bucket(s.hits, k) + InSector(Emitted(acts[..|acts| - 1], s.next), k)
    ensures Bucket(Run(s, acts).hits, k) == Bucket(s.hits, k) + InSector(Emitted(acts, s.next), k)
  {
    var init := acts[..|acts| - 1];
    var a := acts[|acts| - 1];
    var r := Run(s, init);
    var c := Created(a, r.next);
    RunSnoc(s, acts);
    EmittedRun(s, acts);
    BucketStep(r, a, k, r.next);
    BucketsInduct(Bucket(Run(s, acts).hits, k), Bucket(s.hits, k), Bucket(r.hits, k), Emitted(init, s.next), c, k);
  }

  /** Bucketing the hits of a prefix, then those of one more action, buckets the hits of the whole. */
  lemma BucketsInduct(bNew: seq<FwdHit>, b0: seq<FwdHit>, bOld: seq<FwdHit>, em: seq<FwdHit>, c: seq<FwdHit>, k: int)
    requires bOld == b0 + InSector(em, k)
    requires bNew == bOld + InSector(c, k)
    ensures bNew == b0 + InSector(em + c, k)
  {
    InSectorAppend(em, c, k);
  }

  /** The hit one action creates, given the next id. */
  function Created(a: Action, id: int): (hs: seq<FwdHit>)
    ensures |hs| <= 1
  {
    if a.hit.Some? then [Emit(a.hit.value, id)] else []
  }

  /** A non-empty run is its prefix followed by its last action. */
  lemma RunSnoc(s: Ingest, acts: seq<Action>)
    requires acts != []
    ensures Run(s, acts) == Apply(Run(s, acts[..|acts| - 1]), acts[|acts| - 1])
  {
  }

  /** One more loop iteration: applying action i to the run of the first i actions gives the run of the first i + 1. */
  lemma RunPrefixStep(s: Ingest, acts: seq<Action>, i: int, after: Ingest)
    requires 0 <= i < |acts| && after == Apply(Run(s, acts[..i]), acts[i])
    ensures after == Run(s, acts[..i + 1])
  {
    assert acts[..i + 1][..i] == acts[..i];
  }

  /** The created hits of a run are those of its prefix followed by the hit of its last action, numbered from the prefix's next id. */
  lemma EmittedRun(s: Ingest, acts: seq<Action>)
    requires acts != []
    ensures Emitted(acts, s.next) ==
      Emitted(acts[..|acts| - 1], s.next) + Created(acts[|acts| - 1], Run(s, acts[..|acts| - 1]).next)
  {
    RunNext(s, acts[..|acts| - 1]);
    EmittedSnoc(acts, s.next, Run(s, acts[..|acts| - 1]).next);
  }

  /** The created hits of a run are those of its prefix followed by those of its last action, given the id that follows the prefix's. */
  lemma EmittedSnoc(acts: seq<Action>, start: int, id: int)
    requires acts != [] && id == start + |Emitted(acts[..|acts| - 1], start)|
    ensures Emitted(acts, start) == Emitted(acts[..|acts| - 1], start) + Created(acts[|acts| - 1], id)
  {
    var a := acts[|acts| - 1];
    var prev := Emitted(acts[..|acts| - 1], start);
    if a.hit.Some? {
      var h := Emit(a.hit.value, id);
      assert h == Emit(a.hit.value, start + |prev|);
      assert Emitted(acts, start) == prev + [h];
    }
  }

  /** The bucket of sector `k` after one action. */
  lemma BucketStep(r: Ingest, a: Action, k: int, id: int)
    requires r.next == id
    ensures Bucket(Apply(r, a).hits, k) == Bucket(r.hits, k) + InSector(Created(a, id), k)
  {
    ApplyBucket(r, a, k);
    if a.hit.Some? {
      InSectorSnoc([], Emit(a.hit.value, r.next), k);
    }
  }

  /** Selecting a sector distributes over concatenation. */
  lemma {:induction false} InSectorAppend(xs: seq<FwdHit>, ys: seq<FwdHit>, k: int)
    ensures InSector(xs + ys, k) == InSector(xs, k) + InSector(ys, k)
    decreases |ys|
  {
    if ys != [] {
      var ys' := ys[..|ys| - 1];
      var y := ys[|ys| - 1];
      assert ys == ys' + [y];
      assert xs + ys == (xs + ys') + [y];
      InSectorAppend(xs, ys', k);
      InSectorSnoc(xs + ys', y, k);
      InSectorSnoc(ys', y, k);
    } else {
      assert xs + ys == xs;
    }
  }

  /** A run keeps exactly the simulated tracks it started with, and adds the keys it reads. */
  lemma {:induction false} RunKeys(s: Ingest, acts: seq<Action>)
    ensures forall k :: HasTrack(Run(s, acts).tracks, k) <==> HasTrack(s.tracks, k)
    ensures Run(s, acts).tracks.Keys == s.tracks.Keys + Touched(acts)
  {
    if acts != [] {
      RunKeys(s, acts[..|acts| - 1]);
      ApplyShape(Run(s, acts[..|acts| - 1]), acts[|acts| - 1]);
    }
  }

  /**
   * A simulated track keeps its kinematics and gains, in order, the ids of
   * the created hits linked to it; null and unknown entries stay null.
   */
  lemma {:induction false} RunTracks(s: Ingest, acts: seq<Action>, k: int)
    ensures HasTrack(s.tracks, k) ==> (HasTrack(Run(s, acts).tracks, k) &&
      Run(s, acts).tracks[k] == Some(s.tracks[k].value.(hits := s.tracks[k].value.hits + LinkedIds(acts, s.next, k))))
    ensures !HasTrack(s.tracks, k) && k in Run(s, acts).tracks ==> Run(s, acts).tracks[k] == None
  {
    if acts != [] {
      RunTracks(s, acts[..|acts| - 1], k);
      RunTracksStep(s, acts, k);
    } else if HasTrack(s.tracks, k) {
      assert s.tracks[k].value.hits + [] == s.tracks[k].value.hits;
    }
  }

  /** The inductive step of `RunTracks`: one more action, given the claim for the shorter run. */
  lemma RunTracksStep(s: Ingest, acts: seq<Action>, k: int)
    requires acts != []
    requires HasTrack(s.tracks, k) ==> (HasTrack(Run(s, acts[..|acts| - 1]).tracks, k) &&
      Run(s, acts[..|acts| - 1]).tracks[k] ==
        Some(s.tracks[k].value.(hits := s.tracks[k].value.hits + LinkedIds(acts[..|acts| - 1], s.next, k))))
    requires !HasTrack(s.tracks, k) && k in Run(s, acts[..|acts| - 1]).tracks ==> Run(s, acts[..|acts| - 1]).tracks[k] == None
    ensures HasTrack(s.tracks, k) ==> (HasTrack(Run(s, acts).tracks, k) &&
      Run(s, acts).tracks[k] == Some(s.tracks[k].value.(hits := s.tracks[k].value.hits + LinkedIds(acts, s.next, k))))
    ensures !HasTrack(s.tracks, k) && k in Run(s, acts).tracks ==> Run(s, acts).tracks[k] == None
  {
    var init := acts[..|acts| - 1];
    var a := acts[|acts| - 1];
    var r := Run(s, init);
    RunSnoc(s, acts);
    RunNext(s, init);
    RunKeys(s, init);
    ApplyTrack(r, a, k);
    LinkedIdsSnoc(acts, s.next, k, r.next);
    if HasTrack(s.tracks, k) {
      var x := if a.hit.Some? && a.link && a.hit.value.tid == k then [r.next] else [];
      HitsAppend(s.tracks[k].value, LinkedIds(init, s.next, k), x);
    }
  }

  /** Appending to a track's hit list in two steps is appending the concatenation. */
  lemma HitsAppend(tr: McTrack, l: seq<int>, x: seq<int>)
    ensures tr.(hits := tr.hits + l).(hits := tr.(hits := tr.hits + l).hits + x) == tr.(hits := tr.hits + (l + x))
  {
    assert tr.hits + l + x == tr.hits + (l + x);
  }

  /** The linked ids of a non-empty run: those of its prefix, then the last action's id if it links to `k`. */
  lemma LinkedIdsSnoc(acts: seq<Action>, start: int, k: int, id: int)
    requires acts != [] && id == start + |Emitted(acts[..|acts| - 1], start)|
    ensures LinkedIds(acts, start, k) == LinkedIds(acts[..|acts| - 1], start, k) +
      (if acts[|acts| - 1].hit.Some? && acts[|acts| - 1].link && acts[|acts| - 1].hit.value.tid == k then [id] else [])
  {
  }

  /** Every created hit is in the bucket of its own sector and in no other. */
  lemma {:induction false} InSectorExact(hs: seq<FwdHit>, k: int)
    ensures forall h :: h in InSector(hs, k) <==> h in hs && h.layer == k
  {
    if hs != [] {
      InSectorExact(hs[..|hs| - 1], k);
      assert hs == hs[..|hs| - 1] + [hs[|hs| - 1]];
    }
  }

  /** Two tables hold simulated tracks under the same keys, with the same pseudorapidities. */
  ghost predicate SameTracks(m: McMap, m': McMap)
  {
    forall k :: (HasTrack(m, k) <==> HasTrack(m', k)) && (HasTrack(m, k) ==> m[k].value.eta == m'[k].value.eta)
  }

  /** A run changes neither which keys hold tracks nor their kinematics. */
  lemma RunSameTracks(s: Ingest, acts: seq<Action>)
    ensures SameTracks(s.tracks, Run(s, acts).tracks)
  {
    RunKeys(s, acts);
    forall k | HasTrack(s.tracks, k)
      ensures Run(s, acts).tracks[k].value.eta == s.tracks[k].value.eta
    {
      RunTracks(s, acts, k);
    }
  }
}
