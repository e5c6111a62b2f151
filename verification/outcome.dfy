/**
 Win/draw/loss aggregation: every (h, a) pair of goal counts adds the joint
 probability home[h] * away[a] to exactly one of three totals, chosen by
 comparing h with a. The totals are specified by recursive sums and computed
 by a nested loop that mirrors the source.
 */
module Outcome {
  import opened RealMath

  /** The three buckets of the aggregation. */
  datatype Result = HomeWin | Draw | AwayWin

  /** The bucket a final score of h home goals and a away goals falls into. */
  function Classify(h: nat, a: nat): Result {
    if h > a then HomeWin else if h == a then Draw else AwayWin
  }

  /** The same result seen from the other side. */
  function Mirror(o: Result): Result {
    match o
    case HomeWin => AwayWin
    case Draw => Draw
    case AwayWin => HomeWin
  }

  /** Every score falls into exactly one bucket, and a tie is always a draw. */
  lemma ClassifyPartition(h: nat, a: nat)
    ensures Classify(h, a) == HomeWin <==> h > a
    ensures Classify(h, a) == Draw <==> h == a
    ensures Classify(h, a) == AwayWin <==> h < a
  {
  }

  /** Swapping home and away mirrors the bucket. */
  lemma ClassifySwap(h: nat, a: nat)
    ensures Classify(a, h) == Mirror(Classify(h, a))
  {
  }

  /** What the score (h, a) contributes to bucket `o`. */
  function Share(home: seq<real>, away: seq<real>, o: Result, h: nat, a: nat): real
    requires h < |home| && a < |away|
  {
    if Classify(h, a) == o then home[h] * away[a] else 0.0
  }

  /** Sum of the shares of row h over the away counts 0..n-1. */
  function Row(home: seq<real>, away: seq<real>, o: Result, h: nat, n: nat): real
    requires h < |home| && n <= |away|
  {
    if n == 0 then 0.0 else Row(home, away, o, h, n - 1) + Share(home, away, o, h, n - 1)
  }

  /** Sum of the shares of column a over the home counts 0..m-1. */
  function Column(home: seq<real>, away: seq<real>, o: Result, a: nat, m: nat): real
    requires m <= |home| && a < |away|
  {
    if m == 0 then 0.0 else Column(home, away, o, a, m - 1) + Share(home, away, o, m - 1, a)
  }

  /** Sum of the shares over home counts 0..m-1 and away counts 0..n-1. */
  function Grid(home: seq<real>, away: seq<real>, o: Result, m: nat, n: nat): real
    requires m <= |home| && n <= |away|
  {
    if m == 0 then 0.0 else Grid(home, away, o, m - 1, n) + Row(home, away, o, m - 1, n)
  }

  /** The total of bucket `o` over every score in the table. */
  function Total(home: seq<real>, away: seq<real>, o: Result): real {
    Grid(home, away, o, |home|, |away|)
  }

  /** The three totals the estimator reports. */
  datatype Probabilities = Probabilities(homeWin: real, draw: real, awayWin: real)

  /** The three totals; AggregateTotal shows they make up the whole joint mass. */
  function Aggregate(home: seq<real>, away: seq<real>): Probabilities {
    Probabilities(Total(home, away, HomeWin), Total(home, away, Draw), Total(home, away, AwayWin))
  }

  /** The nested loop of the source, accumulating each joint probability
      into the bucket its score selects. */
  method AggregateLoop(home: seq<real>, away: seq<real>) returns (r: Probabilities)
    ensures r.homeWin == Total(home, away, HomeWin)
    ensures r.draw == Total(home, away, Draw)
    ensures r.awayWin == Total(home, away, AwayWin)
  {
    var homeMore, same, homeLess := 0.0, 0.0, 0.0;
    var h := 0;
    while h < |home|
      invariant 0 <= h <= |home|
      invariant homeMore == Grid(home, away, HomeWin, h, |away|)
      invariant same == Grid(home, away, Draw, h, |away|)
      invariant homeLess == Grid(home, away, AwayWin, h, |away|)
    {
      var a := 0;
      while a < |away|
        invariant 0 <= a <= |away|
        invariant homeMore == Grid(home, away, HomeWin, h, |away|) + Row(home, away, HomeWin, h, a)
        invariant same == Grid(home, away, Draw, h, |away|) + Row(home, away, Draw, h, a)
        invariant homeLess == Grid(home, away, AwayWin, h, |away|) + Row(home, away, AwayWin, h, a)
      {
        var joint := home[h] * away[a];
        if h > a {
          homeMore := homeMore + joint;
        } else if h == a {
          same := same + joint;
        } else {
          homeLess := homeLess + joint;
        }
        a := a + 1;
      }
      h := h + 1;
    }
    r := Probabilities(homeMore, same, homeLess);
  }

  // ---------------------------------------------------------------------------
  // Partition: the three buckets together hold the full joint mass.

  /** Sum of home[h] * away[a] over the away counts 0..n-1, all buckets together. */
  function JointRow(home: seq<real>, away: seq<real>, h: nat, n: nat): real
    requires h < |home| && n <= |away|
  {
    if n == 0 then 0.0 else JointRow(home, away, h, n - 1) + home[h] * away[n - 1]
  }

  /** Sum of home[h] * away[a] over the Cartesian product 0..m-1 x 0..n-1. */
  function Joint(home: seq<real>, away: seq<real>, m: nat, n: nat): real
    requires m <= |home| && n <= |away|
  {
    if m == 0 then 0.0 else Joint(home, away, m - 1, n) + JointRow(home, away, m - 1, n)
  }

  /** The three buckets of one row add up to the row's joint mass. */
  lemma {:induction false} RowPartition(home: seq<real>, away: seq<real>, h: nat, n: nat)
    requires h < |home| && n <= |away|
    ensures Row(home, away, HomeWin, h, n) + Row(home, away, Draw, h, n) + Row(home, away, AwayWin, h, n)
            == JointRow(home, away, h, n)
  {
    if n > 0 {
      RowPartition(home, away, h, n - 1);
      ClassifyPartition(h, n - 1);
    }
  }

  /** The three buckets over a block of rows add up to the block's joint mass. */
  lemma {:induction false} GridPartition(home: seq<real>, away: seq<real>, m: nat, n: nat)
    requires m <= |home| && n <= |away|
    ensures Grid(home, away, HomeWin, m, n) + Grid(home, away, Draw, m, n) + Grid(home, away, AwayWin, m, n)
            == Joint(home, away, m, n)
  {
    if m > 0 {
      GridPartition(home, away, m - 1, n);
      RowPartition(home, away, m - 1, n);
    }
  }

  /** A row of the joint mass is home[h] times the away prefix sum. */
  lemma {:induction false} JointRowFactors(home: seq<real>, away: seq<real>, h: nat, n: nat)
    requires h < |home| && n <= |away|
    ensures JointRow(home, away, h, n) == home[h] * PrefixSum(away, n)
  {
    if n > 0 {
      JointRowFactors(home, away, h, n - 1);
      MulAddDistrib(home[h], PrefixSum(away, n), PrefixSum(away, n - 1), away[n - 1]);
    }
  }

  /** The joint mass over a block is the product of the two prefix sums. */
  lemma {:induction false} JointFactors(home: seq<real>, away: seq<real>, m: nat, n: nat)
    requires m <= |home| && n <= |away|
    ensures Joint(home, away, m, n) == PrefixSum(home, m) * PrefixSum(away, n)
  {
    if m > 0 {
      JointFactors(home, away, m - 1, n);
      JointRowFactors(home, away, m - 1, n);
      MulAddDistrib(PrefixSum(away, n), PrefixSum(home, m), PrefixSum(home, m - 1), home[m - 1]);
    }
  }

  /** Home win + draw + away win is the full joint sum (sum home) * (sum away). */
  lemma TotalPartition(home: seq<real>, away: seq<real>)
    ensures Total(home, away, HomeWin) + Total(home, away, Draw) + Total(home, away, AwayWin)
            == Sum(home) * Sum(away)
  {
    GridPartition(home, away, |home|, |away|);
    JointFactors(home, away, |home|, |away|);
    MulBothCongruence(PrefixSum(home, |home|), Sum(home), PrefixSum(away, |away|), Sum(away));
  }

  /** Home win, draw and away win together carry the product of the two
      tables' masses: every pair of goal counts is counted exactly once. */
  lemma AggregateTotal(home: seq<real>, away: seq<real>)
    ensures var r := Aggregate(home, away);
            r.homeWin + r.draw + r.awayWin == Sum(home) * Sum(away)
  {
    TotalPartition(home, away);
  }

  // ---------------------------------------------------------------------------
  // Bounds.

  /** True when every entry of `s` is non-negative. */
  ghost predicate NonNegative(s: seq<real>) {
    forall i :: 0 <= i < |s| ==> s[i] >= 0.0
  }

  lemma {:induction false} RowNonNegative(home: seq<real>, away: seq<real>, o: Result, h: nat, n: nat)
    requires NonNegative(home) && NonNegative(away)
    requires h < |home| && n <= |away|
    ensures Row(home, away, o, h, n) >= 0.0
  {
    if n > 0 {
      RowNonNegative(home, away, o, h, n - 1);
      assert home[h] * away[n - 1] >= 0.0;
    }
  }

  lemma {:induction false} GridNonNegative(home: seq<real>, away: seq<real>, o: Result, m: nat, n: nat)
    requires NonNegative(home) && NonNegative(away)
    requires m <= |home| && n <= |away|
    ensures Grid(home, away, o, m, n) >= 0.0
  {
    if m > 0 {
      GridNonNegative(home, away, o, m - 1, n);
      RowNonNegative(home, away, o, m - 1, n);
    }
  }

  /** Over non-negative tables each total lies between 0 and the full joint sum. */
  lemma TotalBounds(home: seq<real>, away: seq<real>)
    requires NonNegative(home) && NonNegative(away)
    ensures 0.0 <= Total(home, away, HomeWin) <= Sum(home) * Sum(away)
    ensures 0.0 <= Total(home, away, Draw) <= Sum(home) * Sum(away)
    ensures 0.0 <= Total(home, away, AwayWin) <= Sum(home) * Sum(away)
  {
    TotalPartition(home, away);
    GridNonNegative(home, away, HomeWin, |home|, |away|);
    GridNonNegative(home, away, Draw, |home|, |away|);
    GridNonNegative(home, away, AwayWin, |home|, |away|);
  }

  // ---------------------------------------------------------------------------
  // Symmetry: swapping the two tables swaps home win with away win.

  lemma ShareSwap(home: seq<real>, away: seq<real>, o: Result, h: nat, a: nat)
    requires h < |home| && a < |away|
    ensures Share(home, away, o, h, a) == Share(away, home, Mirror(o), a, h)
  {
    ClassifySwap(h, a);
  }

  /** A column of (home, away) is the matching row of (away, home). */
  lemma {:induction false} ColumnIsMirroredRow(home: seq<real>, away: seq<real>, o: Result, a: nat, m: nat)
    requires m <= |home| && a < |away|
    ensures Column(home, away, o, a, m) == Row(away, home, Mirror(o), a, m)
  {
    if m > 0 {
      ColumnIsMirroredRow(home, away, o, a, m - 1);
      ShareSwap(home, away, o, m - 1, a);
    }
  }

  /** Adding one away count to a block adds one column. */
  lemma {:induction false} GridAddColumn(home: seq<real>, away: seq<real>, o: Result, m: nat, n: nat)
    requires m <= |home| && n < |away|
    ensures Grid(home, away, o, m, n + 1) == Grid(home, away, o, m, n) + Column(home, away, o, n, m)
  {
    if m > 0 {
      GridAddColumn(home, away, o, m - 1, n);
    }
  }

  /** Summing a block by rows or by columns gives the same total. */
  lemma {:induction false} GridTranspose(home: seq<real>, away: seq<real>, o: Result, m: nat, n: nat)
    requires m <= |home| && n <= |away|
    ensures Grid(home, away, o, m, n) == Grid(away, home, Mirror(o), n, m)
  {
    if n == 0 {
      GridEmptyRows(home, away, o, m);
    } else {
      GridTranspose(home, away, o, m, n - 1);
      GridAddColumn(home, away, o, m, n - 1);
      ColumnIsMirroredRow(home, away, o, n - 1, m);
    }
  }

  lemma {:induction false} GridEmptyRows(home: seq<real>, away: seq<real>, o: Result, m: nat)
    requires m <= |home|
    ensures Grid(home, away, o, m, 0) == 0.0
  {
    if m > 0 {
      GridEmptyRows(home, away, o, m - 1);
    }
  }

  /** Swapping the tables swaps home win and away win and keeps the draw. */
  lemma AggregateSwap(home: seq<real>, away: seq<real>)
    ensures Aggregate(away, home).homeWin == Aggregate(home, away).awayWin
    ensures Aggregate(away, home).draw == Aggregate(home, away).draw
    ensures Aggregate(away, home).awayWin == Aggregate(home, away).homeWin
  {
    GridTranspose(home, away, HomeWin, |home|, |away|);
    GridTranspose(home, away, Draw, |home|, |away|);
    GridTranspose(home, away, AwayWin, |home|, |away|);
  }

  // ---------------------------------------------------------------------------
  // Certain scores: two tables concentrated on zero goals give a certain draw.

  /** True when `s` is [1, 0, 0, ...]. */
  ghost predicate PointMassAtZero(s: seq<real>) {
    && |s| >= 1
    && s[0] == 1.0
    && forall i :: 1 <= i < |s| ==> s[i] == 0.0
  }

  lemma {:induction false} GridZero(home: seq<real>, away: seq<real>, o: Result, m: nat, n: nat)
    requires m <= |home| && n <= |away|
    requires forall h, a :: 0 <= h < m && 0 <= a < n ==> Share(home, away, o, h, a) == 0.0
    ensures Grid(home, away, o, m, n) == 0.0
  {
    if m > 0 {
      GridZero(home, away, o, m - 1, n);
      RowZero(home, away, o, m - 1, n);
    }
  }

  lemma {:induction false} RowZero(home: seq<real>, away: seq<real>, o: Result, h: nat, n: nat)
    requires h < |home| && n <= |away|
    requires forall a :: 0 <= a < n ==> Share(home, away, o, h, a) == 0.0
    ensures Row(home, away, o, h, n) == 0.0
  {
    if n > 0 {
      RowZero(home, away, o, h, n - 1);
    }
  }

  /** When both sides surely score zero, the draw is certain. */
  lemma AggregatePointMass(home: seq<real>, away: seq<real>)
    requires PointMassAtZero(home) && PointMassAtZero(away)
    ensures Aggregate(home, away) == Probabilities(0.0, 1.0, 0.0)
  {
    forall h, a | 0 <= h < |home| && 0 <= a < |away|
      ensures Share(home, away, HomeWin, h, a) == 0.0
      ensures Share(home, away, AwayWin, h, a) == 0.0
    {
    }
    GridZero(home, away, HomeWin, |home|, |away|);
    GridZero(home, away, AwayWin, |home|, |away|);
    PointMassSum(home, |home|);
    PointMassSum(away, |away|);
    TotalPartition(home, away);
  }
}
