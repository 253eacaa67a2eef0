/**
 * Exact stand-ins for the JavaScript number helpers the calculator uses:
 * `Math.round`, `Math.min`, `Math.max`, `Math.abs` and `Math.pow` with a
 * whole-number exponent. Numbers are Dafny `real`s, so nothing here
 * overflows or loses precision.
 */
module Numerics {

  /** `Math.round`: the nearest integer, halves rounded toward +infinity. */
  function Round(x: real): (n: int)
    ensures n as real - 0.5 <= x < n as real + 0.5
  {
    (x + 0.5).Floor
  }

  /** The integer the rounding interval pins down is the rounded value. */
  lemma RoundUnique(x: real, n: int)
    requires n as real - 0.5 <= x < n as real + 0.5
    ensures Round(x) == n
  {
  }

  lemma RoundMonotone(a: real, b: real)
    requires a <= b
    ensures Round(a) <= Round(b)
  {
  }

  function Min(a: real, b: real): (m: real)
    ensures m <= a && m <= b
    ensures m == a || m == b
  {
    if a <= b then a else b
  }

  function Max(a: real, b: real): (m: real)
    ensures m >= a && m >= b
    ensures m == a || m == b
  {
    if a >= b then a else b
  }

  function Abs(x: real): (r: real)
    ensures r >= 0.0
    ensures r == x || r == -x
  {
    if x < 0.0 then -x else x
  }

  /** `Math.pow(b, n)` for a whole exponent `n`. */
  function Pow(b: real, n: nat): real
  {
    if n == 0 then 1.0 else b * Pow(b, n - 1)
  }

  lemma PowSucc(b: real, n: nat)
    ensures Pow(b, n + 1) == Pow(b, n) * b
  {
  }

  lemma {:induction false} PowOfOne(n: nat)
    ensures Pow(1.0, n) == 1.0
  {
    if n > 0 {
      PowOfOne(n - 1);
    }
  }

  lemma {:induction false} PowNonNegative(b: real, n: nat)
    requires b >= 0.0
    ensures Pow(b, n) >= 0.0
  {
    if n > 0 {
      PowNonNegative(b, n - 1);
      MulNonNegative(b, Pow(b, n - 1));
    }
  }

  lemma {:induction false} PowStrictlyIncreasing(a: real, b: real, n: nat)
    requires 0.0 <= a < b
    requires n >= 1
    ensures Pow(a, n) < Pow(b, n)
  {
    if n > 1 {
      PowStrictlyIncreasing(a, b, n - 1);
      PowNonNegative(a, n - 1);
      MulStrictlyIncreasing(a, Pow(a, n - 1), b, Pow(b, n - 1));
    }
  }

  /** Two non-negative bases with the same positive power are equal. */
  lemma PowInjective(a: real, b: real, n: nat)
    requires a >= 0.0 && b >= 0.0
    requires n >= 1
    requires Pow(a, n) == Pow(b, n)
    ensures a == b
  {
    if a < b {
      PowStrictlyIncreasing(a, b, n);
    } else if b < a {
      PowStrictlyIncreasing(b, a, n);
    }
  }

  lemma MulNonNegative(a: real, b: real)
    requires a >= 0.0 && b >= 0.0
    ensures a * b >= 0.0
  {
  }

  /** Products of non-negative factors grow with each factor. */
  lemma MulMonotone(a: real, c: real, b: real, d: real)
    requires 0.0 <= a <= b
    requires 0.0 <= c <= d
    ensures a * c <= b * d
  {
    assert a * c <= b * c;
    assert b * c <= b * d;
  }

  lemma MulStrictlyIncreasing(a: real, c: real, b: real, d: real)
    requires 0.0 <= a < b
    requires 0.0 <= c < d
    ensures a * c < b * d
  {
    assert a * c <= a * d;
    assert a * d < b * d;
  }
}
