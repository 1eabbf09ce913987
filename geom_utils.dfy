/**
 * The geometry lookup helper: a cursor over the detector geometry that
 * moves to a volume by path and reports the z of its global placement.
 * The geometry navigator is a map from path to the placement found there
 * (its global transformation, if any, given by the z of its translation,
 * and its node); a path not in the map is one the navigator cannot reach.
 */
module GeomUtils {
  import opened Wrappers

  /** A node of the geometry tree and the volume it places. */
  datatype GeoNode = GeoNode(name: string, volume: string)

  /** What the navigator finds at a path: the global transformation (its z translation) and the node. */
  datatype Placement = Placement(matrix: Option<real>, node: GeoNode)

  type Navigator = map<string, Placement>

  /** The z offset from the sTGC mother volume to the hit plane. */
  const FttZDelta: real := 0.435028

  const FttPrefix: string := "/HALL_1/CAVE_1/STGM_1/TGCP_"
  const FstPrefix: string := "/HALL_1/CAVE_1/FTSM_1/FTSD_"

  function DigitChar(d: int): (c: char)
    requires 0 <= d < 10
    ensures '0' <= c <= '9' && c as int - '0' as int == d
  {
    (d + '0' as int) as char
  }

  predicate IsDigit(c: char)
  {
    '0' <= c <= '9'
  }

  /** The decimal digits of a natural number, as a stream writes them. */
  function NatToString(n: nat): (s: string)
    ensures |s| > 0 && forall i :: 0 <= i < |s| ==> IsDigit(s[i])
    decreases n
  {
    if n < 10 then [DigitChar(n)] else NatToString(n / 10) + [DigitChar(n % 10)]
  }

  /** An `int` as a stream writes it: a minus sign for negative values, then the digits. */
  function IntToString(n: int): (s: string)
    ensures |s| > 0
    ensures n >= 0 ==> s == NatToString(n)
    ensures n < 0 ==> s == "-" + NatToString(-n)
  {
    if n < 0 then "-" + NatToString(-n) else NatToString(n)
  }

  /** Reading decimal digits back. */
  function ParseNat(s: string): nat
    requires forall i :: 0 <= i < |s| ==> IsDigit(s[i])
  {
    if s == [] then 0
    else
      assert IsDigit(s[|s| - 1]);
      ParseNat(s[..|s| - 1]) * 10 + (s[|s| - 1] as int - '0' as int)
  }

  /** Writing a natural number and reading it back gives the number. */
  lemma {:induction false} ParseNatToString(n: nat)
    ensures ParseNat(NatToString(n)) == n
    decreases n
  {
    if n >= 10 {
      var s := NatToString(n);
      assert s[..|s| - 1] == NatToString(n / 10);
      ParseNatToString(n / 10);
    }
  }

  /** Distinct natural numbers are written differently. */
  lemma NatToStringInjective(a: nat, b: nat)
    requires NatToString(a) == NatToString(b)
    ensures a == b
  {
    ParseNatToString(a);
    ParseNatToString(b);
  }

  /** The path of the mother volume of sTGC plane `index` (0 -> TGCP_8, ..., 3 -> TGCP_32). */
  function FttPath(index: int): string
  {
    FttPrefix + IntToString((index + 1) * 8) + "/"
  }

  /** The path of silicon disk `index` (0 -> FTSD_1, ...). */
  function FstPath(index: int): string
  {
    FstPrefix + IntToString(index + 1) + "/"
  }

  /** The four sTGC plane paths. */
  lemma FttPaths()
    ensures FttPath(0) == "/HALL_1/CAVE_1/STGM_1/TGCP_8/"
    ensures FttPath(1) == "/HALL_1/CAVE_1/STGM_1/TGCP_16/"
    ensures FttPath(2) == "/HALL_1/CAVE_1/STGM_1/TGCP_24/"
    ensures FttPath(3) == "/HALL_1/CAVE_1/STGM_1/TGCP_32/"
  {
    assert NatToString(8) == "8";
    assert NatToString(1) == "1" && NatToString(16) == NatToString(1) + "6";
    assert NatToString(2) == "2" && NatToString(24) == NatToString(2) + "4";
    assert NatToString(3) == "3" && NatToString(32) == NatToString(3) + "2";
  }

  /** The three silicon disk paths. */
  lemma FstPaths()
    ensures FstPath(0) == "/HALL_1/CAVE_1/FTSM_1/FTSD_1/"
    ensures FstPath(1) == "/HALL_1/CAVE_1/FTSM_1/FTSD_2/"
    ensures FstPath(2) == "/HALL_1/CAVE_1/FTSM_1/FTSD_3/"
  {
    assert NatToString(1) == "1" && NatToString(2) == "2" && NatToString(3) == "3";
  }

  /** A prefix and a suffix around a middle part: equal wholes have equal middles. */
  lemma MiddleEqual(p: string, a: string, b: string, q: string)
    requires p + a + q == p + b + q
    ensures a == b
  {
    var w := p + a + q;
    assert |a| == |b|;
    assert a == w[|p|..|p| + |a|];
    assert b == (p + b + q)[|p|..|p| + |b|];
  }

  /** Distinct planes (index 0 and up) have distinct paths. */
  lemma FttPathInjective(i: nat, j: nat)
    requires FttPath(i) == FttPath(j)
    ensures i == j
  {
    MiddleEqual(FttPrefix, IntToString((i + 1) * 8), IntToString((j + 1) * 8), "/");
    NatToStringInjective((i + 1) * 8, (j + 1) * 8);
  }

  /** Distinct disks (index 0 and up) have distinct paths. */
  lemma FstPathInjective(i: nat, j: nat)
    requires FstPath(i) == FstPath(j)
    ensures i == j
  {
    MiddleEqual(FstPrefix, IntToString(i + 1), IntToString(j + 1), "/");
    NatToStringInjective(i + 1, j + 1);
  }

  /** The cursor the helper holds after moving to `path`: all three set from the placement, or all three null. */
  function CursorAt(nav: Navigator, path: string): (c: (Option<real>, Option<GeoNode>, Option<string>))
    ensures c.1.Some? <==> path in nav
    ensures c.1.None? ==> c.0.None? && c.2.None?
    ensures c.1.Some? ==> c.2 == Some(c.1.value.volume)
  {
    if path in nav then (nav[path].matrix, Some(nav[path].node), Some(nav[path].node.volume))
    else (None, None, None)
  }

  /** The z a per-index lookup reports for `path`, with `delta` added: 0.0 when the path or its transformation is missing. */
  function ZAt(nav: Navigator, path: string, delta: real): real
  {
    if path in nav && nav[path].matrix.Some? then nav[path].matrix.value + delta else 0.0
  }

  /** A lookup that fails reports 0.0; one that succeeds reports the placement's z plus the offset. */
  lemma ZAtFallback(nav: Navigator, path: string, delta: real)
    ensures CursorAt(nav, path).0.None? ==> ZAt(nav, path, delta) == 0.0
    ensures CursorAt(nav, path).0.Some? ==> ZAt(nav, path, delta) == CursorAt(nav, path).0.value + delta
  {
  }

  class FwdGeomUtils {
    var navigator: Option<Navigator>
    var matrix: Option<real>
    var node: Option<GeoNode>
    var volume: Option<string>

    /** A helper over the geometry manager's navigator; without a manager there is no navigator. */
    constructor (gMan: Option<Navigator>)
      ensures navigator == gMan && matrix.None? && node.None? && volume.None?
    {
      navigator := gMan;
      matrix := None;
      node := None;
      volume := None;
    }

    /** The cursor fields together. */
    function Cursor(): (Option<real>, Option<GeoNode>, Option<string>)
      reads this
    {
      (matrix, node, volume)
    }

    /** `cd`: move to `path`; on success the cursor holds the placement found there, on failure it is null. */
    method Cd(path: string) returns (ret: bool)
      requires navigator.Some?
      modifies this
      ensures navigator == old(navigator)
      ensures ret <==> path in navigator.value
      ensures Cursor() == CursorAt(navigator.value, path)
    {
      ret := path in navigator.value;
      if ret {
        var p := navigator.value[path];
        matrix := p.matrix;
        node := Some(p.node);
        volume := Some(p.node.volume);
      } else {
        matrix := None;
        node := None;
        volume := None;
      }
    }

    /** `fttZ(index)`: the z of sTGC plane `index`, plus the hit-plane offset, or 0.0 when it cannot be found. */
    method FttZ(index: int) returns (z: real)
      requires navigator.Some?
      modifies this
      ensures navigator == old(navigator)
      ensures z == ZAt(navigator.value, FttPath(index), FttZDelta)
      ensures Cursor() == CursorAt(navigator.value, FttPath(index))
    {
      var can := Cd(FttPath(index));
      if can && matrix.Some? {
        return matrix.value + FttZDelta;
      }
      return 0.0;
    }

    /** `fstZ(index)`: the z of silicon disk `index`, or 0.0 when it cannot be found. */
    method FstZ(index: int) returns (z: real)
      requires navigator.Some?
      modifies this
      ensures navigator == old(navigator)
      ensures z == ZAt(navigator.value, FstPath(index), 0.0)
      ensures Cursor() == CursorAt(navigator.value, FstPath(index))
    {
      var can := Cd(FstPath(index));
      if can && matrix.Some? {
        return matrix.value;
      }
      return 0.0;
    }

    /**
     * `fttZ(defaultZ)`: looks up plane 0 and, when its z exceeds 1.0, the
     * other three planes too, but returns the caller's defaults whatever it
     * found. The cursor is left at the last plane looked up.
     */
    method FttZDefaults(defaultZ: seq<real>) returns (r: seq<real>)
      requires navigator.Some?
      modifies this
      ensures navigator == old(navigator)
      ensures r == defaultZ
      ensures var last := if ZAt(navigator.value, FttPath(0), FttZDelta) > 1.0 then 3 else 0;
        Cursor() == CursorAt(navigator.value, FttPath(last))
    {
      var z0 := FttZ(0);
      if z0 > 1.0 {
        var z1 := FttZ(1);
        var z2 := FttZ(2);
        var z3 := FttZ(3);
        var z := [z0, z1, z2, z3];
      }
      return defaultZ;
    }

    /**
     * `fstZ(defaultZ)`: looks up disk 0 and, when its z exceeds 1.0, the
     * other two disks too, but returns the caller's defaults whatever it found.
     */
    method FstZDefaults(defaultZ: seq<real>) returns (r: seq<real>)
      requires navigator.Some?
      modifies this
      ensures navigator == old(navigator)
      ensures r == defaultZ
      ensures var last := if ZAt(navigator.value, FstPath(0), 0.0) > 1.0 then 2 else 0;
        Cursor() == CursorAt(navigator.value, FstPath(last))
    {
      var z0 := FstZ(0);
      if z0 > 1.0 {
        var z1 := FstZ(1);
        var z2 := FstZ(2);
        var z := [z0, z1, z2];
      }
      return defaultZ;
    }
  }
}
