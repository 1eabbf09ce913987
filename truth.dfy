/**
 * The dominant-contributor model: the truth id of a track is the simulated
 * track that contributed most hits to its seed, and its quality is the
 * percentage of seed hits that voted for it.
 */
module Truth {
  import opened CppArith
  import opened OrderedKeys

  /** A seed hit: a forward hit carrying a truth id, or a hit of another kind. */
  datatype SeedHit = FwdHit(tid: int) | OtherHit

  type Seed = seq<SeedHit>

  /** Number of forward hits of `seed` that vote for truth id `t`. */
  function Votes(seed: Seed, t: int): (n: nat)
    ensures n <= |seed|
  {
    if seed == [] then 0
    else Votes(seed[..|seed| - 1], t) + (if seed[|seed| - 1] == FwdHit(t) then 1 else 0)
  }

  predicate HasFwdHit(seed: Seed)
  {
    exists i :: 0 <= i < |seed| && seed[i].FwdHit?
  }

  /**
   * What TheTruth returns for a non-empty seed. With at least one forward
   * hit: an id with the largest tally, the smallest such id on ties, and the
   * tally as a truncated percentage of ALL seed hits. Without one: id -1 and
   * the truncated percentage of a tally of -1.
   */
  ghost predicate IsTruthVote(seed: Seed, id: int, qa: int)
    requires |seed| > 0
  {
    if HasFwdHit(seed) then
      && Votes(seed, id) > 0
      && (forall t :: Votes(seed, t) <= Votes(seed, id))
      && (forall t :: t < id ==> Votes(seed, t) < Votes(seed, id))
      && qa == TruncReal(100.0 * Votes(seed, id) as real / |seed| as real)
    else
      id == -1 && qa == TruncReal(-100.0 / |seed| as real)
  }

  /** The tally map TheTruth builds: truth id to number of forward hits carrying it. */
  function TallyOf(seed: Seed): map<int, int>
  {
    if seed == [] then map[]
    else
      var m := TallyOf(seed[..|seed| - 1]);
      match seed[|seed| - 1]
      case OtherHit => m
      case FwdHit(t) => m[t := (if t in m then m[t] else 0) + 1]
  }

  /** The tally holds exactly the ids with a positive vote count, each with its count. */
  lemma {:induction false} TallyCounts(seed: Seed)
    ensures forall t :: t in TallyOf(seed) <==> Votes(seed, t) > 0
    ensures forall t :: t in TallyOf(seed) ==> TallyOf(seed)[t] == Votes(seed, t)
    ensures TallyOf(seed) != map[] <==> HasFwdHit(seed)
  {
    if seed != [] {
      var n := |seed|;
      var init := seed[..n - 1];
      TallyCounts(init);
      assert forall j :: 0 <= j < n - 1 ==> init[j] == seed[j];
      if HasFwdHit(init) {
        var j :| 0 <= j < n - 1 && init[j].FwdHit?;
        assert seed[j].FwdHit?;
      }
      match seed[n - 1]
      case OtherHit =>
        if HasFwdHit(seed) {
          var j :| 0 <= j < n && seed[j].FwdHit?;
          assert init[j].FwdHit?;
        }
      case FwdHit(t) =>
        assert TallyOf(seed)[t] > 0;
    }
  }

  /** Truncating a quotient of non-negative integers is integer division. */
  lemma FloorOfQuotient(a: int, n: int)
    requires a >= 0 && n > 0
    ensures TruncReal(a as real / n as real) == a / n
  {
    var q, r := a / n, a % n;
    assert a == q * n + r;
    var x := a as real / n as real;
    assert x * n as real == a as real;
    assert (q as real + r as real / n as real) * n as real == a as real;
    assert x == q as real + r as real / n as real;
    assert 0.0 <= r as real / n as real < 1.0;
  }

  /** The first loop of TheTruth: count every seed hit, tally the forward hits' truth ids. */
  method TallySeed(seed: Seed) returns (count: nat, truth: map<int, int>)
    ensures count == |seed|
    ensures truth == TallyOf(seed)
    ensures forall t :: t in truth ==> truth[t] > 0
  {
    count := 0;
    truth := map[];
    for i := 0 to |seed|
      invariant count == i
      invariant truth == TallyOf(seed[..i])
      invariant forall t :: t in truth ==> truth[t] > 0
    {
      assert seed[..i + 1][..i] == seed[..i];
      count := count + 1;
      match seed[i] {
        case OtherHit =>
        case FwdHit(tid) =>
          truth := truth[tid := (if tid in truth then truth[tid] else 0) + 1];
      }
    }
    assert seed[..|seed|] == seed;
  }

  /**
   * TheTruth: tally the truth ids of the forward hits in a map, then visit
   * the map in ascending key order keeping the first strictly larger tally.
   */
  method TheTruth(seed: Seed) returns (id: int, qa: int)
    requires |seed| > 0
    ensures IsTruthVote(seed, id, qa)
  {
    var count, truth := TallySeed(seed);
    id := -1;
    var nmax := -1;
    var rest := truth.Keys;
    ghost var done: set<int> := {};
    ghost var last := 0;
    while rest != {}
      invariant ScanInv(truth, done, rest, last, id, nmax)
      decreases |rest|
    {
      ghost var least := LeastKey(rest);
      var k :| k in rest && forall j :: j in rest ==> k <= j;
      ScanStep(truth, done, rest, last, id, nmax, k);
      if truth[k] > nmax {
        nmax := truth[k];
        id := k;
      }
      rest := rest - {k};
      done, last := done + {k}, k;
    }
    assert done == truth.Keys;
    qa := TruncReal(100.0 * nmax as real / count as real);
    ArgMaxIsVote(seed, truth, id, nmax);
  }

  /**
   * The state of the ascending scan: `done` are the keys visited so far, all
   * below `last`, `rest` those still to visit, all above `last`; (id, nmax) is
   * the first key of `done` with the largest tally, or (-1, -1) before any.
   */
  ghost predicate ScanInv(truth: map<int, int>, done: set<int>, rest: set<int>, last: int, id: int, nmax: int)
  {
    && (forall t :: t in truth ==> truth[t] > 0)
    && done !! rest && done + rest == truth.Keys
    && (done != {} ==> forall d :: d in done ==> d <= last)
    && (done != {} ==> forall j :: j in rest ==> last < j)
    && (nmax == -1 <==> done == {})
    && (nmax == -1 ==> id == -1)
    && (nmax != -1 ==> id in done && nmax == truth[id])
    && (forall d :: d in done ==> truth[d] <= nmax)
    && (forall d :: d in done && d < id ==> truth[d] < nmax)
  }

  /** Visiting the least remaining key `k` keeps the scan state. */
  lemma ScanStep(truth: map<int, int>, done: set<int>, rest: set<int>, last: int, id: int, nmax: int, k: int)
    requires ScanInv(truth, done, rest, last, id, nmax)
    requires k in rest && forall j :: j in rest ==> k <= j
    ensures truth[k] > nmax ==> ScanInv(truth, done + {k}, rest - {k}, k, k, truth[k])
    ensures truth[k] <= nmax ==> ScanInv(truth, done + {k}, rest - {k}, k, id, nmax)
  {
    if done != {} {
      assert last < k;
    }
  }

  /** What the ascending scan of the tally leaves in (id, nmax) is the truth vote. */
  lemma ArgMaxIsVote(seed: Seed, truth: map<int, int>, id: int, nmax: int)
    requires |seed| > 0 && truth == TallyOf(seed)
    requires nmax == -1 <==> truth.Keys == {}
    requires nmax == -1 ==> id == -1
    requires nmax != -1 ==> id in truth && nmax == truth[id]
    requires forall k :: k in truth ==> truth[k] <= nmax
    requires forall k :: k in truth && k < id ==> truth[k] < nmax
    ensures IsTruthVote(seed, id, TruncReal(100.0 * nmax as real / |seed| as real))
  {
    TallyCounts(seed);
    if HasFwdHit(seed) {
      forall t ensures Votes(seed, t) <= Votes(seed, id) {
        if t in truth { assert truth[t] <= nmax; }
      }
      forall t | t < id ensures Votes(seed, t) < Votes(seed, id) {
        if t in truth { assert truth[t] < nmax; }
      }
    } else {
      assert 100.0 * nmax as real / |seed| as real == -100.0 / |seed| as real;
    }
  }

  /** The vote is determined by the seed: any two results TheTruth may return agree. */
  lemma TruthVoteUnique(seed: Seed, id1: int, qa1: int, id2: int, qa2: int)
    requires |seed| > 0
    requires IsTruthVote(seed, id1, qa1) && IsTruthVote(seed, id2, qa2)
    ensures id1 == id2 && qa1 == qa2
  {
    if HasFwdHit(seed) {
      assert Votes(seed, id1) <= Votes(seed, id2) && Votes(seed, id2) <= Votes(seed, id1);
    }
  }

  /** A positive tally means the id occurs on a forward hit of the seed. */
  lemma {:induction false} VotedIdPresent(seed: Seed, t: int)
    requires Votes(seed, t) > 0
    ensures exists i :: 0 <= i < |seed| && seed[i] == FwdHit(t)
  {
    var n := |seed|;
    if seed[n - 1] != FwdHit(t) {
      VotedIdPresent(seed[..n - 1], t);
      var i :| 0 <= i < n - 1 && seed[..n - 1][i] == FwdHit(t);
      assert seed[i] == FwdHit(t);
    }
  }

  /**
   * With a forward hit present, the quality is the integer percentage
   * floor(100 * nmax / count) and lies in [0, 100]; the id is one of the
   * seed's truth ids.
   */
  lemma QualityIsPercentage(seed: Seed, id: int, qa: int)
    requires |seed| > 0 && HasFwdHit(seed)
    requires IsTruthVote(seed, id, qa)
    ensures qa == (100 * Votes(seed, id)) / |seed|
    ensures 0 <= qa <= 100
    ensures exists i :: 0 <= i < |seed| && seed[i] == FwdHit(id)
  {
    QualityOf(Votes(seed, id), |seed|, qa);
    VotedIdPresent(seed, id);
  }

  /** A quality computed from v votes out of n hits is their integer percentage. */
  lemma QualityOf(v: nat, n: nat, qa: int)
    requires 0 < n && v <= n && qa == TruncReal(100.0 * v as real / n as real)
    ensures qa == (100 * v) / n && 0 <= qa <= 100
  {
    Percentage(v, n);
  }

  lemma Percentage(v: nat, n: nat)
    requires 0 < n && v <= n
    ensures TruncReal(100.0 * v as real / n as real) == (100 * v) / n
    ensures 0 <= (100 * v) / n <= 100
  {
    assert 100.0 * v as real == (100 * v) as real;
    FloorOfQuotient(100 * v, n);
    assert 100 * v <= 100 * n;
  }

  /**
   * A seed without forward hits gets id -1 and quality -(100 / count): a
   * NEGATIVE quality for seeds of at most 100 hits, not 0.
   */
  lemma NoForwardHitQuality(seed: Seed, id: int, qa: int)
    requires |seed| > 0 && !HasFwdHit(seed)
    requires IsTruthVote(seed, id, qa)
    ensures id == -1 && qa == -(100 / |seed|)
    ensures |seed| <= 100 ==> qa < 0
  {
    FloorOfQuotient(100, |seed|);
    assert -100.0 / |seed| as real == -(100 as real / |seed| as real);
  }

  /** Truth ids [1, 1, 1, 2, 2] give truth id 1 with quality 60. */
  lemma ThreeOfFive(id: int, qa: int)
    requires IsTruthVote([FwdHit(1), FwdHit(1), FwdHit(1), FwdHit(2), FwdHit(2)], id, qa)
    ensures id == 1 && qa == 60
  {
    var seed := [FwdHit(1), FwdHit(1), FwdHit(1), FwdHit(2), FwdHit(2)];
    assert seed[0].FwdHit?;
    assert seed[..4] == [FwdHit(1), FwdHit(1), FwdHit(1), FwdHit(2)];
    assert seed[..4][..3] == [FwdHit(1), FwdHit(1), FwdHit(1)];
    assert seed[..4][..3][..2] == [FwdHit(1), FwdHit(1)];
    assert seed[..4][..3][..2][..1] == [FwdHit(1)];
    assert [FwdHit(1)][..0] == [];
    assert seed[..4][..3] == seed[..3] && seed[..3][..2] == seed[..2] && seed[..2][..1] == seed[..1];
    assert Votes(seed[..1], 1) == 1 && Votes(seed[..1], 2) == 0;
    assert Votes(seed[..2], 1) == 2 && Votes(seed[..2], 2) == 0;
    assert Votes(seed[..3], 1) == 3 && Votes(seed[..3], 2) == 0;
    assert Votes(seed[..4], 1) == 3 && Votes(seed[..4], 2) == 1;
    assert Votes(seed, 1) == 3 && Votes(seed, 2) == 2;
    VotedIdPresent(seed, id);
    assert id == 1;
    FloorOfQuotient(300, 5);
    assert 100.0 * 3 as real == 300 as real;
  }
}
