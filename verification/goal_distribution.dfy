/**
 The per-side goal distribution: the Poisson probability mass function and the
 table of its values for goal counts 0..maxGoals (`poisson` and the two list
 comprehensions inside `calculate_full_match_stats`).
 */
module GoalDistribution {
  import opened RealMath

  /** The estimator's default cutoff on goal counts. */
  const DefaultMaxGoals: int := 10

  /** Number of goal counts in Python's `range(maxGoals + 1)`: none when
      `maxGoals` is negative. */
  function GoalCount(maxGoals: int): nat {
    if maxGoals < 0 then 0 else maxGoals + 1
  }

  /** P(k; lamb) = lamb^k * e^(-lamb) / k!, with `exp` standing for `math.exp`. */
  function Poisson(k: nat, lamb: real, exp: real -> real): real {
    Pow(lamb, k) * exp(-lamb) / (Fact(k) as real)
  }

  /** The mass is non-negative for a non-negative rate, and positive for a
      positive one. */
  lemma PoissonSign(k: nat, lamb: real, exp: real -> real)
    requires ExpLike(exp)
    ensures lamb >= 0.0 ==> Poisson(k, lamb, exp) >= 0.0
    ensures lamb > 0.0 ==> Poisson(k, lamb, exp) > 0.0
  {
    var e := exp(-lamb);
    var f := Fact(k) as real;
    assert e > 0.0 && f > 0.0;
    if lamb > 0.0 {
      PowPositive(lamb, k);
    } else if lamb >= 0.0 {
      PowNonNegative(lamb, k);
    }
    QuotientSign(Pow(lamb, k), e, f);
  }

  /** p * e / f keeps the sign of p for positive e and f. */
  lemma QuotientSign(p: real, e: real, f: real)
    requires e > 0.0 && f > 0.0
    ensures p >= 0.0 ==> p * e / f >= 0.0
    ensures p > 0.0 ==> p * e / f > 0.0
  {
  }

  /** A zero rate puts all mass on zero goals. */
  lemma PoissonZeroRate(k: nat, exp: real -> real)
    requires ExpLike(exp)
    ensures Poisson(k, 0.0, exp) == (if k == 0 then 1.0 else 0.0)
  {
    PowZeroBase(k);
  }

  /** The chance of no goals is e^(-lamb). */
  lemma PoissonNoGoals(lamb: real, exp: real -> real)
    ensures Poisson(0, lamb, exp) == exp(-lamb)
  {
  }

  /** The table of Poisson masses for goal counts 0..maxGoals. */
  function Table(xg: real, maxGoals: int, exp: real -> real): (t: seq<real>)
    ensures |t| == GoalCount(maxGoals)
    ensures maxGoals >= 0 ==> |t| == maxGoals + 1
    ensures maxGoals < 0 ==> t == []
    ensures forall i :: 0 <= i < |t| ==> t[i] == Poisson(i, xg, exp)
  {
    seq(GoalCount(maxGoals), i requires 0 <= i => Poisson(i, xg, exp))
  }

  /** With a non-negative rate every table entry is non-negative. */
  lemma TableNonNegative(xg: real, maxGoals: int, exp: real -> real)
    requires ExpLike(exp)
    requires xg >= 0.0
    ensures forall i :: 0 <= i < |Table(xg, maxGoals, exp)| ==> Table(xg, maxGoals, exp)[i] >= 0.0
  {
    forall i | 0 <= i < |Table(xg, maxGoals, exp)|
      ensures Table(xg, maxGoals, exp)[i] >= 0.0
    {
      PoissonSign(i, xg, exp);
    }
  }

  /** A zero rate gives the table [1, 0, 0, ...]. */
  lemma TableZeroRate(maxGoals: int, exp: real -> real)
    requires ExpLike(exp)
    requires maxGoals >= 0
    ensures Table(0.0, maxGoals, exp) == [1.0] + seq(maxGoals, _ => 0.0)
  {
    var t := Table(0.0, maxGoals, exp);
    var z := [1.0] + seq(maxGoals, _ => 0.0);
    forall i | 0 <= i < |t|
      ensures t[i] == z[i]
    {
      PoissonZeroRate(i, exp);
    }
  }

  /** Raising the cutoff only appends entries: the shorter table is a prefix. */
  lemma TablePrefix(xg: real, m: int, n: int, exp: real -> real)
    requires m <= n
    ensures Table(xg, m, exp) <= Table(xg, n, exp)
  {
  }

  /** The total mass of the table never decreases as the cutoff grows. */
  lemma TableSumMonotone(xg: real, m: int, n: int, exp: real -> real)
    requires ExpLike(exp)
    requires xg >= 0.0
    requires m <= n
    ensures Sum(Table(xg, m, exp)) <= Sum(Table(xg, n, exp))
  {
    var s := Table(xg, m, exp);
    var t := Table(xg, n, exp);
    TablePrefix(xg, m, n, exp);
    assert t[..|s|] == s[..|s|];
    PrefixSumAgree(s, t, |s|);
    TableNonNegative(xg, n, exp);
    PrefixSumMonotone(t, |s|, |t|);
  }

  /** With a non-negative rate and a non-negative cutoff the table carries
      positive mass: it holds at least the chance of no goals, e^(-xg). */
  lemma TableSumPositive(xg: real, maxGoals: int, exp: real -> real)
    requires ExpLike(exp)
    requires xg >= 0.0
    requires maxGoals >= 0
    ensures Sum(Table(xg, maxGoals, exp)) > 0.0
  {
    var t := Table(xg, maxGoals, exp);
    PoissonNoGoals(xg, exp);
    assert PrefixSum(t, 1) == t[0] == exp(-xg) > 0.0;
    TableNonNegative(xg, maxGoals, exp);
    PrefixSumMonotone(t, 1, |t|);
  }
}
