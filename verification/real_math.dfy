/**
 Exact-real stand-ins for the three pieces of Python's `math` module the
 estimator uses (`pow`, `exp`, `factorial`), and finite sums over sequences
 of reals. Floating-point rounding is not modelled: every value is an exact
 `real`.
 */
module RealMath {

  /** The exponential function is not definable here, so it is a parameter of
      the model. These are the only two facts about it the model relies on. */
  ghost predicate ExpLike(exp: real -> real) {
    && exp(0.0) == 1.0
    && forall x :: exp(x) > 0.0
  }

  /** `math.pow(x, k)` for a non-negative integer exponent, with 0^0 = 1. */
  function Pow(x: real, k: nat): real {
    if k == 0 then 1.0 else x * Pow(x, k - 1)
  }

  /** A non-negative base has non-negative powers. */
  lemma {:induction false} PowNonNegative(x: real, k: nat)
    requires x >= 0.0
    ensures Pow(x, k) >= 0.0
  {
    if k > 0 {
      PowNonNegative(x, k - 1);
      MulNonNegative(x, Pow(x, k - 1));
    }
  }

  /** A positive base has positive powers. */
  lemma {:induction false} PowPositive(x: real, k: nat)
    requires x > 0.0
    ensures Pow(x, k) > 0.0
  {
    if k > 0 {
      PowPositive(x, k - 1);
      MulPositive(x, Pow(x, k - 1));
    }
  }

  /** Base 0: 0^0 = 1, as in Python, and 0^k = 0 for every k > 0. */
  lemma PowZeroBase(k: nat)
    ensures Pow(0.0, k) == (if k == 0 then 1.0 else 0.0)
  {
  }

  /** `math.factorial(k)`: a positive integer. */
  function Fact(k: nat): (r: nat)
    ensures r >= 1
  {
    if k == 0 then 1 else MulAtLeast(k, Fact(k - 1)); k * Fact(k - 1)
  }

  // Small arithmetic facts, each proved in a context free of the recursive
  // definitions above.

  lemma MulNonNegative(a: real, b: real)
    ensures a >= 0.0 && b >= 0.0 ==> a * b >= 0.0
  {
  }

  lemma MulPositive(a: real, b: real)
    requires a > 0.0 && b > 0.0
    ensures a * b > 0.0
  {
  }

  lemma MulBothCongruence(x: real, x': real, y: real, y': real)
    requires x == x' && y == y'
    ensures x * y == x' * y'
  {
  }

  lemma MulAddDistrib(a: real, t: real, b: real, c: real)
    requires t == b + c
    ensures a * t == a * b + a * c
    ensures t * a == b * a + c * a
  {
  }

  lemma MulAtLeast(a: nat, b: nat)
    requires a >= 1 && b >= 1
    ensures a * b >= b && a * b >= 1
  {
  }

  /** Sum of the first `n` entries of `s`. */
  function PrefixSum(s: seq<real>, n: nat): (r: real)
    requires n <= |s|
    ensures (forall i :: 0 <= i < n ==> s[i] >= 0.0) ==> r >= 0.0
  {
    if n == 0 then 0.0 else PrefixSum(s, n - 1) + s[n - 1]
  }

  /** Sum of every entry of `s`. */
  function Sum(s: seq<real>): real {
    PrefixSum(s, |s|)
  }

  /** A prefix sum reads only the entries it covers. */
  lemma {:induction false} PrefixSumAgree(s: seq<real>, t: seq<real>, n: nat)
    requires n <= |s| && n <= |t|
    requires s[..n] == t[..n]
    ensures PrefixSum(s, n) == PrefixSum(t, n)
  {
    if n > 0 {
      assert s[..n - 1] == s[..n][..n - 1] == t[..n][..n - 1] == t[..n - 1];
      assert s[n - 1] == s[..n][n - 1] == t[..n][n - 1] == t[n - 1];
      PrefixSumAgree(s, t, n - 1);
    }
  }

  /** Over non-negative entries, a longer prefix has a sum at least as large. */
  lemma {:induction false} PrefixSumMonotone(s: seq<real>, m: nat, n: nat)
    requires m <= n <= |s|
    requires forall i :: 0 <= i < |s| ==> s[i] >= 0.0
    ensures PrefixSum(s, m) <= PrefixSum(s, n)
  {
    if m < n {
      PrefixSumMonotone(s, m, n - 1);
    }
  }

  /** A sequence that is 1 at index 0 and 0 elsewhere sums to 1. */
  lemma {:induction false} PointMassSum(s: seq<real>, n: nat)
    requires 1 <= n <= |s|
    requires s[0] == 1.0
    requires forall i :: 1 <= i < |s| ==> s[i] == 0.0
    ensures PrefixSum(s, n) == 1.0
  {
    if n > 1 {
      PointMassSum(s, n - 1);
    }
  }
}
