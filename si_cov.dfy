/**
 * The covariance of a silicon hit on its measurement plane. The detector
 * resolves the hit in polar form (radius, azimuth) with uniform errors
 * over the raster bin; the covariance in x and y is the polar one carried
 * through the Jacobian of (r, phi) -> (x, y) at the hit, and the 3x3
 * matrix handed to the fit adds a fixed, tiny z variance.
 */
module SiCov {

  datatype Mat2 = Mat2(m00: real, m01: real, m10: real, m11: real)

  type Mat3 = m: seq<seq<real>> | |m| == 3 && forall i | 0 <= i < |m| :: |m[i]| == 3
    witness [[0.0, 0.0, 0.0], [0.0, 0.0, 0.0], [0.0, 0.0, 0.0]]

  function Mul(a: Mat2, b: Mat2): Mat2
  {
    Mat2(a.m00 * b.m00 + a.m01 * b.m10, a.m00 * b.m01 + a.m01 * b.m11,
         a.m10 * b.m00 + a.m11 * b.m10, a.m10 * b.m01 + a.m11 * b.m11)
  }

  function Transpose(a: Mat2): Mat2
  {
    Mat2(a.m00, a.m10, a.m01, a.m11)
  }

  /** The variance of a uniform distribution over a bin of the given size. */
  function UniformVariance(size: real): (v: real)
    ensures v >= 0.0
  {
    size * size / 12.0
  }

  /** The Jacobian of (r, phi) -> (x, y) at radius R, with (c, s) the unit direction. */
  function Jacobian(c: real, s: real, R: real): Mat2
  {
    Mat2(c, -R * s, s, R * c)
  }

  /** The right-hand factor as `makeSiCovMat` writes it out entry by entry. */
  function RightFactor(c: real, s: real, R: real): (j: Mat2)
    ensures j == Transpose(Jacobian(c, s, R))
  {
    Mat2(c, s, -R * s, R * c)
  }

  /** The variance of z on the plane. */
  const PlaneZVariance: real := 0.01 * 0.01

  /**
   * `makeSiCovMat`: the polar covariance diag(rSize^2/12, phiSize^2/12)
   * carried to x and y by T * D * J, in the upper-left 2x2 block of a 3x3
   * matrix whose third row and column are zero but for the z variance.
   */
  function SiCovMat(c: real, s: real, R: real, rSize: real, phiSize: real): (m: Mat3)
    ensures m[0][2] == 0.0 && m[1][2] == 0.0 && m[2][0] == 0.0 && m[2][1] == 0.0
    ensures m[2][2] == 0.0001
  {
    var d := Mat2(UniformVariance(rSize), 0.0, 0.0, UniformVariance(phiSize));
    var r := Mul(Mul(Jacobian(c, s, R), d), RightFactor(c, s, R));
    [[r.m00, r.m01, 0.0], [r.m10, r.m11, 0.0], [0.0, 0.0, PlaneZVariance]]
  }

  /** The entries of the transverse block in closed form. */
  lemma SiCovEntries(c: real, s: real, R: real, rSize: real, phiSize: real)
    ensures var a, b := UniformVariance(rSize), UniformVariance(phiSize);
      var m := SiCovMat(c, s, R, rSize, phiSize);
      && m[0][0] == c * c * a + R * R * s * s * b
      && m[1][1] == s * s * a + R * R * c * c * b
      && m[0][1] == c * s * (a - R * R * b)
      && m[1][0] == m[0][1]
  {
    var a, b := UniformVariance(rSize), UniformVariance(phiSize);
    TransverseXX(c, s, R, a, b);
    TransverseYY(c, s, R, a, b);
    TransverseXY(c, s, R, a, b);
    TransverseYX(c, s, R, a, b);
  }

  /** The xx entry of the product T * D * J for D = diag(a, b), multiplied out. */
  lemma TransverseXX(c: real, s: real, R: real, a: real, b: real)
    ensures Mul(Mul(Jacobian(c, s, R), Mat2(a, 0.0, 0.0, b)), RightFactor(c, s, R)).m00 == c * c * a + R * R * s * s * b
  {
    var p, q := -R * s, R * c;
    assert Mul(Jacobian(c, s, R), Mat2(a, 0.0, 0.0, b)) == Mat2(c * a, p * b, s * a, q * b);
    DiagonalProducts(c, s, R, p, q, a, b);
  }

  /** The yy entry of the product T * D * J for D = diag(a, b), multiplied out. */
  lemma TransverseYY(c: real, s: real, R: real, a: real, b: real)
    ensures Mul(Mul(Jacobian(c, s, R), Mat2(a, 0.0, 0.0, b)), RightFactor(c, s, R)).m11 == s * s * a + R * R * c * c * b
  {
    var p, q := -R * s, R * c;
    assert Mul(Jacobian(c, s, R), Mat2(a, 0.0, 0.0, b)) == Mat2(c * a, p * b, s * a, q * b);
    DiagonalProducts(c, s, R, p, q, a, b);
  }

  /** The xy entry of the product T * D * J for D = diag(a, b), multiplied out. */
  lemma TransverseXY(c: real, s: real, R: real, a: real, b: real)
    ensures Mul(Mul(Jacobian(c, s, R), Mat2(a, 0.0, 0.0, b)), RightFactor(c, s, R)).m01 == c * s * (a - R * R * b)
  {
    var p, q := -R * s, R * c;
    assert Mul(Jacobian(c, s, R), Mat2(a, 0.0, 0.0, b)) == Mat2(c * a, p * b, s * a, q * b);
    OffDiagonalProducts(c, s, R, p, q, a, b);
  }

  /** The yx entry of the product T * D * J for D = diag(a, b), multiplied out. */
  lemma TransverseYX(c: real, s: real, R: real, a: real, b: real)
    ensures Mul(Mul(Jacobian(c, s, R), Mat2(a, 0.0, 0.0, b)), RightFactor(c, s, R)).m10 == c * s * (a - R * R * b)
  {
    var p, q := -R * s, R * c;
    assert Mul(Jacobian(c, s, R), Mat2(a, 0.0, 0.0, b)) == Mat2(c * a, p * b, s * a, q * b);
    OffDiagonalProducts(c, s, R, p, q, a, b);
  }

  /** The diagonal products of the transverse block, with p = -R s and q = R c. */
  lemma DiagonalProducts(c: real, s: real, R: real, p: real, q: real, a: real, b: real)
    requires p == -R * s && q == R * c
    ensures (c * a) * c + (p * b) * p == c * c * a + R * R * s * s * b
    ensures (s * a) * s + (q * b) * q == s * s * a + R * R * c * c * b
  {
  }

  /** The off-diagonal products of the transverse block, with p = -R s and q = R c. */
  lemma OffDiagonalProducts(c: real, s: real, R: real, p: real, q: real, a: real, b: real)
    requires p == -R * s && q == R * c
    ensures (c * a) * s + (p * b) * q == c * s * (a - R * R * b)
    ensures (s * a) * c + (q * b) * p == c * s * (a - R * R * b)
  {
  }

  /** The covariance is symmetric, with non-negative variances in x and y. */
  lemma SiCovSymmetric(c: real, s: real, R: real, rSize: real, phiSize: real)
    ensures var m := SiCovMat(c, s, R, rSize, phiSize);
      m[0][1] == m[1][0] && m[0][0] >= 0.0 && m[1][1] >= 0.0
  {
    SiCovEntries(c, s, R, rSize, phiSize);
    var a, b := UniformVariance(rSize), UniformVariance(phiSize);
    NonNegProduct(c * c, a);
    NonNegProduct(R * R * s * s, b);
    NonNegProduct(s * s, a);
    NonNegProduct(R * R * c * c, b);
  }

  lemma NonNegProduct(x: real, y: real)
    requires x >= 0.0 && y >= 0.0
    ensures x * y >= 0.0
  {
  }

  /**
   * For a unit direction the variances in x and y add up to the radial
   * variance plus R^2 times the azimuthal one: the rotation keeps the trace.
   */
  lemma SiCovTrace(c: real, s: real, R: real, rSize: real, phiSize: real)
    requires c * c + s * s == 1.0
    ensures var m := SiCovMat(c, s, R, rSize, phiSize);
      m[0][0] + m[1][1] == UniformVariance(rSize) + R * R * UniformVariance(phiSize)
  {
    SiCovEntries(c, s, R, rSize, phiSize);
    var a, b := UniformVariance(rSize), UniformVariance(phiSize);
    assert c * c * a + s * s * a == (c * c + s * s) * a;
    assert R * R * s * s * b + R * R * c * c * b == (c * c + s * s) * (R * R * b);
  }

  /**
   * The covariance is positive semi-definite: every quadratic form in it is
   * a non-negative combination of the polar variances.
   */
  lemma SiCovPositive(c: real, s: real, R: real, rSize: real, phiSize: real, u: real, v: real)
    ensures var m := SiCovMat(c, s, R, rSize, phiSize);
      u * u * m[0][0] + u * v * (m[0][1] + m[1][0]) + v * v * m[1][1] >= 0.0
  {
    SiCovEntries(c, s, R, rSize, phiSize);
    var m := SiCovMat(c, s, R, rSize, phiSize);
    QuadraticForm(c, s, R, UniformVariance(rSize), UniformVariance(phiSize), u, v, m[0][0], m[0][1], m[1][0], m[1][1]);
  }

  /**
   * The quadratic form of the transverse block is a sum of the polar
   * variances weighted by squares, (c u + s v)^2 a + (R (c v - s u))^2 b.
   */
  lemma QuadraticForm(c: real, s: real, R: real, a: real, b: real, u: real, v: real,
                      m00: real, m01: real, m10: real, m11: real)
    requires a >= 0.0 && b >= 0.0
    requires m00 == c * c * a + R * R * s * s * b && m11 == s * s * a + R * R * c * c * b
    requires m01 == c * s * (a - R * R * b) && m10 == m01
    ensures u * u * m00 + u * v * (m01 + m10) + v * v * m11 >= 0.0
  {
    var p, q := c * u + s * v, R * (c * v - s * u);
    QuadraticExpansion(c, s, R, a, b, u, v, m00, m01, m10, m11, p, q);
    NonNegProduct(p * p, a);
    NonNegProduct(q * q, b);
  }

  lemma QuadraticExpansion(c: real, s: real, R: real, a: real, b: real, u: real, v: real,
                           m00: real, m01: real, m10: real, m11: real, p: real, q: real)
    requires m00 == c * c * a + R * R * s * s * b && m11 == s * s * a + R * R * c * c * b
    requires m01 == c * s * (a - R * R * b) && m10 == m01
    requires p == c * u + s * v && q == R * (c * v - s * u)
    ensures u * u * m00 + u * v * (m01 + m10) + v * v * m11 == p * p * a + q * q * b
  {
    var w := R * R * b;
    var x, y := u * c, v * s;
    var x', y' := v * c, u * s;
    assert u * u * m00 == a * (x * x) + w * (y' * y');
    assert u * v * (m01 + m10) == a * (2.0 * x * y) - w * (2.0 * x' * y');
    assert v * v * m11 == a * (y * y) + w * (x' * x');
    assert p * p == x * x + 2.0 * x * y + y * y;
    assert q * q * b == w * (x' * x' - 2.0 * x' * y' + y' * y');
  }

  /** The default sizes (3.0 and 0.004) give radial variance 0.75. */
  lemma SiCovDefaultVariances()
    ensures UniformVariance(3.0) == 0.75
    ensures UniformVariance(0.004) == 0.000016 / 12.0
  {
  }
}
