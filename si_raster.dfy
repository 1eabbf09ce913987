/**
 * The silicon rasterizer: snaps the transverse radius and the azimuth of a
 * simulated silicon hit to the midpoints of a grid whose radial bins start
 * at the inner silicon radius 5.0. Points are handled in polar form
 * (r, phi, z), with phi as a three-vector reads it: in (-pi, pi], and 0 for
 * a point on the beam line.
 */
module SiRaster {

  const Pi: real := 3.141592653589793
  const TwoPi: real := 2.0 * Pi

  /** Inner radius of the silicon: the radial grid starts here. */
  const MinR: real := 5.0

  datatype Polar = Polar(r: real, phi: real, z: real)

  /** A point as a three-vector reports it in polar form. */
  predicate ValidPolar(p: Polar)
  {
    p.r >= 0.0 && -Pi < p.phi <= Pi && (p.r == 0.0 ==> p.phi == 0.0)
  }

  /** The index of the bin of width `b`, counted from `lo`, holding `x`. */
  function BinIndex(x: real, lo: real, b: real): int
    requires b > 0.0
  {
    ((x - lo) / b).Floor
  }

  /** The midpoint of the bin of width `b`, counted from `lo`, holding `x`. */
  function BinMid(x: real, lo: real, b: real): real
    requires b > 0.0
  {
    lo + (BinIndex(x, lo, b) as real + 0.5) * b
  }

  lemma NonNegFactor(d: real, b: real)
    requires b > 0.0 && d * b >= 0.0
    ensures d >= 0.0
  {
  }

  lemma PosFactor(d: real, b: real)
    requires b > 0.0 && d * b > 0.0
    ensures d > 0.0
  {
  }

  /** Dividing by a positive width keeps a lower bound given as a multiple of it. */
  lemma DivAtLeast(c: real, b: real, lo: real)
    requires b > 0.0 && lo * b <= c
    ensures lo <= c / b
  {
    var q := c / b;
    assert q * b == c;
    assert (q - lo) * b == c - lo * b;
    NonNegFactor(q - lo, b);
  }

  /** Dividing by a positive width keeps an upper bound given as a multiple of it. */
  lemma DivBelow(c: real, b: real, hi: real)
    requires b > 0.0 && c < hi * b
    ensures c / b < hi
  {
    var q := c / b;
    assert q * b == c;
    assert (hi - q) * b == hi * b - c;
    PosFactor(hi - q, b);
  }

  /** A multiple of a positive width by at most one half in size is at most half the width. */
  lemma HalfBin(d: real, b: real)
    requires b > 0.0 && -0.5 <= d <= 0.5
    ensures -b / 2.0 <= d * b <= b / 2.0
  {
    assert d * b - b / 2.0 == (d - 0.5) * b;
    assert d * b + b / 2.0 == (d + 0.5) * b;
    if d * b - b / 2.0 > 0.0 {
      PosFactor(d - 0.5, b);
      assert false;
    }
    if d * b + b / 2.0 < 0.0 {
      PosFactor(-0.5 - d, b);
      assert false;
    }
  }

  /** The bin midpoint is within half a bin of the value. */
  lemma BinMidNear(x: real, lo: real, b: real)
    requires b > 0.0
    ensures -b / 2.0 <= BinMid(x, lo, b) - x <= b / 2.0
  {
    var u := (x - lo) / b;
    var k := BinIndex(x, lo, b) as real;
    assert k <= u < k + 1.0;
    var d := k + 0.5 - u;
    HalfBin(d, b);
    assert u * b == x - lo;
    assert d * b == (k + 0.5) * b - u * b;
    assert BinMid(x, lo, b) - x == (k + 0.5) * b - (x - lo);
  }

  /** The bin index is the integer k with k*b <= x - lo < (k+1)*b. */
  lemma BinIndexOf(x: real, lo: real, b: real, k: int)
    requires b > 0.0
    requires k as real * b <= x - lo < (k as real + 1.0) * b
    ensures BinIndex(x, lo, b) == k
  {
    DivAtLeast(x - lo, b, k as real);
    DivBelow(x - lo, b, k as real + 1.0);
    FloorUnique((x - lo) / b, k);
  }

  /** The azimuth a three-vector reports after its azimuth is set to `a`. */
  function NormalizePhi(a: real): (r: real)
    ensures -Pi < r <= Pi
    ensures -Pi < a <= Pi ==> r == a
    ensures Pi < a <= Pi + TwoPi ==> r == a - TwoPi
  {
    var k := ((Pi - a) / TwoPi).Floor;
    if -Pi < a <= Pi then
      assert k == 0 by { FloorUnique((Pi - a) / TwoPi, 0); }
      a
    else if Pi < a <= Pi + TwoPi then
      assert k == -1 by { FloorUnique((Pi - a) / TwoPi, -1); }
      a - TwoPi
    else
      a + k as real * TwoPi
  }

  /** The floor of `q` is the integer `k` with k <= q < k + 1. */
  lemma FloorUnique(q: real, k: int)
    requires k as real <= q < k as real + 1.0
    ensures q.Floor == k
  {
  }

  lemma ProductPos(d: real, b: real)
    requires d > 0.0 && b > 0.0
    ensures d * b > 0.0
  {
  }

  /** A bin midpoint lies strictly inside its bin. */
  lemma MidInside(k: real, b: real)
    requires b > 0.0
    ensures k * b <= (k + 0.5) * b < (k + 1.0) * b
  {
    assert (k + 0.5) * b - k * b == 0.5 * b;
    assert (k + 1.0) * b - (k + 0.5) * b == 0.5 * b;
  }

  /**
   * `raster`: set the radius to the midpoint of its radial bin, then the
   * azimuth to the midpoint of its azimuthal bin, with the three-vector's
   * rules: setting the radius of a point on the beam line does nothing,
   * a negative radius reflects the point through the beam line, and a point
   * on the beam line reads back with azimuth 0.
   */
  function Raster(p: Polar, binR: real, binPhi: real): (q: Polar)
    requires binR > 0.0 && binPhi > 0.0
    ensures q.z == p.z
  {
    var rNew := BinMid(p.r, MinR, binR);
    var phiNew := BinMid(p.phi, -Pi, binPhi);
    if p.r == 0.0 || rNew == 0.0 then Polar(0.0, 0.0, p.z)
    else Polar(if rNew < 0.0 then -rNew else rNew, NormalizePhi(phiNew), p.z)
  }

  /** Rastering a point gives a point, and moves the radius by at most half a bin. */
  lemma RasterRadius(p: Polar, binR: real, binPhi: real)
    requires ValidPolar(p) && binR > 0.0 && binPhi > 0.0
    ensures ValidPolar(Raster(p, binR, binPhi))
    ensures -binR / 2.0 <= Raster(p, binR, binPhi).r - p.r <= binR / 2.0
  {
    BinMidNear(p.r, MinR, binR);
  }

  /**
   * The azimuth moves by at most half a bin, up to one turn when the bin
   * midpoint lies above pi (possible only when the grid does not divide the
   * full turn).
   */
  lemma RasterAzimuth(p: Polar, binR: real, binPhi: real)
    requires ValidPolar(p) && binR > 0.0 && 0.0 < binPhi <= TwoPi
    requires Raster(p, binR, binPhi).r > 0.0
    ensures var a := BinMid(p.phi, -Pi, binPhi);
      && -binPhi / 2.0 <= a - p.phi <= binPhi / 2.0
      && (a <= Pi ==> Raster(p, binR, binPhi).phi == a)
      && (a > Pi ==> Raster(p, binR, binPhi).phi == a - TwoPi)
  {
    BinMidNear(p.phi, -Pi, binPhi);
    MidAboveMinusPi(p.phi, binPhi);
  }

  /** The azimuthal bin midpoint of an azimuth above -pi is above -pi. */
  lemma MidAboveMinusPi(phi: real, b: real)
    requires -Pi < phi && b > 0.0
    ensures BinMid(phi, -Pi, b) > -Pi
  {
    var k := BinIndex(phi, -Pi, b);
    DivBelowZero(phi + Pi, b);
    assert k >= 0;
    ProductPos(k as real + 0.5, b);
  }

  lemma DivBelowZero(c: real, b: real)
    requires c > 0.0 && b > 0.0
    ensures c / b > 0.0
  {
    PosFactor(c / b, b);
  }

  /** A radius on a bin edge goes to the midpoint of the bin above the edge. */
  lemma RasterBinEdge(p: Polar, binR: real, binPhi: real, k: int)
    requires ValidPolar(p) && binR > 0.0 && binPhi > 0.0
    requires p.r == MinR + k as real * binR && p.r > 0.0
    ensures Raster(p, binR, binPhi).r == p.r + binR / 2.0
  {
    MidInside(k as real, binR);
    BinIndexOf(p.r, MinR, binR, k);
    assert (k as real + 0.5) * binR == k as real * binR + binR / 2.0;
  }

  /** An azimuth on a bin edge goes to the midpoint of the bin above the edge. */
  lemma RasterPhiBinEdge(p: Polar, binPhi: real, k: int)
    requires ValidPolar(p) && binPhi > 0.0
    requires p.phi == -Pi + k as real * binPhi
    ensures BinMid(p.phi, -Pi, binPhi) == p.phi + binPhi / 2.0
  {
    MidInside(k as real, binPhi);
    BinIndexOf(p.phi, -Pi, binPhi, k);
    assert (k as real + 0.5) * binPhi == k as real * binPhi + binPhi / 2.0;
  }

  /** A value already at a bin midpoint stays there. */
  lemma BinMidFixed(x: real, lo: real, b: real)
    requires b > 0.0
    ensures BinMid(BinMid(x, lo, b), lo, b) == BinMid(x, lo, b)
  {
    var k := BinIndex(x, lo, b);
    var m := BinMid(x, lo, b);
    assert m - lo == (k as real + 0.5) * b;
    MidInside(k as real, b);
    BinIndexOf(m, lo, b, k);
  }

  /**
   * Rastering twice is rastering once, provided the radial midpoint is not
   * negative and the azimuthal midpoint does not pass pi.
   */
  lemma RasterIdempotent(p: Polar, binR: real, binPhi: real)
    requires ValidPolar(p) && binR > 0.0 && binPhi > 0.0
    requires BinMid(p.r, MinR, binR) >= 0.0 && BinMid(p.phi, -Pi, binPhi) <= Pi
    ensures Raster(Raster(p, binR, binPhi), binR, binPhi) == Raster(p, binR, binPhi)
  {
    var rNew := BinMid(p.r, MinR, binR);
    var phiNew := BinMid(p.phi, -Pi, binPhi);
    if p.r != 0.0 && rNew != 0.0 {
      MidAboveMinusPi(p.phi, binPhi);
      assert Raster(p, binR, binPhi) == Polar(rNew, phiNew, p.z);
      BinMidFixed(p.r, MinR, binR);
      BinMidFixed(p.phi, -Pi, binPhi);
    }
  }

  /** With the default grid (3.0 in r, 0.1 in phi) rastering is idempotent on every point. */
  lemma RasterIdempotentDefault(p: Polar)
    requires ValidPolar(p)
    ensures Raster(Raster(p, 3.0, 0.1), 3.0, 0.1) == Raster(p, 3.0, 0.1)
  {
    assert BinIndex(p.r, MinR, 3.0) >= -2;
    assert BinIndex(p.phi, -Pi, 0.1) <= 62;
    RasterIdempotent(p, 3.0, 0.1);
  }

  /** A radial grid of 4.0 puts r = 0.1 at midpoint -1: rastering again moves it. */
  lemma RasterNotIdempotentNegativeMid()
    ensures var q := Raster(Polar(0.1, 0.0, 0.0), 4.0, 0.1);
      q.r == 1.0 && Raster(q, 4.0, 0.1).r == 3.0
  {
    FloorUnique((0.1 - MinR) / 4.0, -2);
    FloorUnique((1.0 - MinR) / 4.0, -1);
  }

  /** An azimuthal grid of 1.0 puts phi = 3.0 at a midpoint above pi: rastering again moves it. */
  lemma RasterNotIdempotentWrap()
    ensures var q := Raster(Polar(6.5, 3.0, 0.0), 3.0, 1.0);
      Raster(q, 3.0, 1.0).phi != q.phi
  {
    FloorUnique((6.5 - MinR) / 3.0, 0);
    FloorUnique((3.0 + Pi) / 1.0, 6);
    var q := Raster(Polar(6.5, 3.0, 0.0), 3.0, 1.0);
    assert q.phi == -Pi + 6.5 - TwoPi;
    FloorUnique((q.r - MinR) / 3.0, 0);
    FloorUnique((q.phi + Pi) / 1.0, 0);
  }
}
