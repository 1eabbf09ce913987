/**
 * The C++ arithmetic the forward-tracking code relies on, written out over
 * Dafny's unbounded integers and reals: `/` and `%` on `int` truncate toward
 * zero (Dafny's own are Euclidean), a `double` converted to `int` truncates
 * toward zero, and a conversion to `unsigned char` keeps the value modulo 256.
 */
module CppArith {

  function Abs(a: int): (r: nat)
    ensures r == a || r == -a
  {
    if a < 0 then -a else a
  }

  /** `fabs` / `abs` on a `double`. */
  function FAbs(x: real): (r: real)
    ensures r >= 0.0 && (r == x || r == -x)
  {
    if x < 0.0 then -x else x
  }

  /** C++ `a / b` on `int`: the quotient rounded toward zero. */
  function TruncDiv(a: int, b: int): (q: int)
    requires b != 0
    ensures a == q * b + TruncRem(a, b)
  {
    var n, d := Abs(a), Abs(b);
    var q0 := n / d;
    TruncDivSigns(a, b, n, d, q0, n % d);
    if (a >= 0) == (b > 0) then q0 else -q0
  }

  /** Restoring the signs of the operands to the division of their magnitudes. */
  lemma TruncDivSigns(a: int, b: int, n: int, d: int, q0: int, m: int)
    requires b != 0 && n == Abs(a) && d == Abs(b) && n == q0 * d + m
    ensures (a >= 0) == (b > 0) ==> a == q0 * b + (if a >= 0 then m else 0 - m)
    ensures (a >= 0) != (b > 0) ==> a == (-q0) * b + (if a >= 0 then m else 0 - m)
  {
    if a >= 0 && b > 0 {
    } else if a >= 0 {
      assert q0 * d == (-q0) * b;
    } else if b > 0 {
      assert -(q0 * d) == (-q0) * b;
    } else {
      assert -(q0 * d) == q0 * b;
    }
  }

  /** C++ `a % b` on `int`: smaller than |b| in magnitude, with the sign of `a`. */
  function TruncRem(a: int, b: int): (r: int)
    requires b != 0
    ensures 0 - Abs(b) < r < Abs(b)
    ensures a >= 0 ==> r >= 0
    ensures a <= 0 ==> r <= 0
  {
    var m: int := Abs(a) % Abs(b);
    assert m < Abs(b);
    if a >= 0 then m else 0 - m
  }

  /** C++ conversion of a `double` to `int`: truncation toward zero. */
  function TruncReal(x: real): (r: int)
    ensures x >= 0.0 ==> r as real <= x < r as real + 1.0
    ensures x < 0.0 ==> r as real - 1.0 < x <= r as real
  {
    if x >= 0.0 then x.Floor else -((-x).Floor)
  }

  /** C++ conversion of an `int` to `unsigned char`. */
  function ToUChar(n: int): (r: int)
    ensures 0 <= r < 256
    ensures (n - r) % 256 == 0
    ensures 0 <= n < 256 ==> r == n
  {
    n % 256
  }
}
