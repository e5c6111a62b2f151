/**
 The outcome estimator `calculate_full_match_stats`: it builds both goal
 tables, selects the goal rows worth displaying and aggregates win, draw and
 loss probabilities. The printed report is replaced by the returned values.
 */
module Estimator {
  import opened RealMath
  import opened GoalDistribution
  import opened Outcome
  import Display

  /** Everything the estimator computes for one match. */
  datatype MatchStats = MatchStats(
    homeProbs: seq<real>,
    awayProbs: seq<real>,
    shownRows: seq<nat>,
    outcome: Probabilities)

  /** Outcome probabilities for the two expected-goals values. */
  function Estimate(homeXg: real, awayXg: real, maxGoals: int, exp: real -> real): Probabilities {
    Aggregate(Table(homeXg, maxGoals, exp), Table(awayXg, maxGoals, exp))
  }

  /** The three outcomes add up to the product of the two tables' masses. */
  lemma EstimateTotal(homeXg: real, awayXg: real, maxGoals: int, exp: real -> real)
    ensures var r := Estimate(homeXg, awayXg, maxGoals, exp);
            r.homeWin + r.draw + r.awayWin
            == Sum(Table(homeXg, maxGoals, exp)) * Sum(Table(awayXg, maxGoals, exp))
  {
    AggregateTotal(Table(homeXg, maxGoals, exp), Table(awayXg, maxGoals, exp));
  }

  /** Swapping the two expected-goals values swaps home win and away win and
      leaves the draw unchanged. */
  lemma EstimateSymmetric(x: real, y: real, maxGoals: int, exp: real -> real)
    ensures Estimate(y, x, maxGoals, exp).homeWin == Estimate(x, y, maxGoals, exp).awayWin
    ensures Estimate(y, x, maxGoals, exp).draw == Estimate(x, y, maxGoals, exp).draw
    ensures Estimate(y, x, maxGoals, exp).awayWin == Estimate(x, y, maxGoals, exp).homeWin
  {
    AggregateSwap(Table(x, maxGoals, exp), Table(y, maxGoals, exp));
  }

  /** With both expected-goals values zero the draw is certain. */
  lemma EstimateZeroXg(maxGoals: int, exp: real -> real)
    requires ExpLike(exp)
    requires maxGoals >= 0
    ensures Estimate(0.0, 0.0, maxGoals, exp) == Probabilities(0.0, 1.0, 0.0)
  {
    TableZeroRate(maxGoals, exp);
    AggregatePointMass(Table(0.0, maxGoals, exp), Table(0.0, maxGoals, exp));
  }

  /** With both expected-goals values zero only the row of 0 goals is displayed. */
  lemma ShownRowsZeroXg(maxGoals: int, exp: real -> real)
    requires ExpLike(exp)
    requires maxGoals >= 0
    ensures Display.ShownRows(Table(0.0, maxGoals, exp), Table(0.0, maxGoals, exp), GoalCount(maxGoals)) == [0]
  {
    TableZeroRate(maxGoals, exp);
    var t := Table(0.0, maxGoals, exp);
    assert t[0] == 1.0;
    assert forall i :: 1 <= i < |t| ==> t[i] == 0.0;
    Display.ShownRowsPointMass(t, t, GoalCount(maxGoals));
  }

  /** With non-negative expected goals each outcome lies between 0 and the
      total joint mass of the two tables, and once the cutoff admits at least
      the score 0-0 that total is positive. */
  lemma EstimateBounds(homeXg: real, awayXg: real, maxGoals: int, exp: real -> real)
    requires ExpLike(exp)
    requires homeXg >= 0.0 && awayXg >= 0.0
    ensures var r := Estimate(homeXg, awayXg, maxGoals, exp);
            var total := Sum(Table(homeXg, maxGoals, exp)) * Sum(Table(awayXg, maxGoals, exp));
            && 0.0 <= r.homeWin <= total
            && 0.0 <= r.draw <= total
            && 0.0 <= r.awayWin <= total
    ensures var r := Estimate(homeXg, awayXg, maxGoals, exp);
            maxGoals >= 0 ==> r.homeWin + r.draw + r.awayWin > 0.0
  {
    TableNonNegative(homeXg, maxGoals, exp);
    TableNonNegative(awayXg, maxGoals, exp);
    TotalBounds(Table(homeXg, maxGoals, exp), Table(awayXg, maxGoals, exp));
    if maxGoals >= 0 {
      EstimateTotal(homeXg, awayXg, maxGoals, exp);
      TableSumPositive(homeXg, maxGoals, exp);
      TableSumPositive(awayXg, maxGoals, exp);
      MulPositive(Sum(Table(homeXg, maxGoals, exp)), Sum(Table(awayXg, maxGoals, exp)));
    }
  }

  /** The estimator: both tables, the displayed rows and the aggregated
      outcome, computed as the source does with the nested loop. */
  method CalculateFullMatchStats(homeXg: real, awayXg: real, maxGoals: int, exp: real -> real)
    returns (stats: MatchStats)
    requires ExpLike(exp)
    ensures stats.homeProbs == Table(homeXg, maxGoals, exp)
    ensures stats.awayProbs == Table(awayXg, maxGoals, exp)
    ensures |stats.homeProbs| == |stats.awayProbs| == GoalCount(maxGoals)
    ensures forall i, j :: 0 <= i < j < |stats.shownRows| ==> stats.shownRows[i] < stats.shownRows[j]
    ensures forall k: nat :: k in stats.shownRows <==>
              k < GoalCount(maxGoals) && Display.Shown(stats.homeProbs[k], stats.awayProbs[k])
    ensures stats.outcome == Estimate(homeXg, awayXg, maxGoals, exp)
    ensures stats.outcome.homeWin + stats.outcome.draw + stats.outcome.awayWin
            == Sum(Table(homeXg, maxGoals, exp)) * Sum(Table(awayXg, maxGoals, exp))
    ensures homeXg >= 0.0 && awayXg >= 0.0 ==>
              && 0.0 <= stats.outcome.homeWin
              && 0.0 <= stats.outcome.draw
              && 0.0 <= stats.outcome.awayWin
    ensures homeXg >= 0.0 && awayXg >= 0.0 && maxGoals >= 0 ==>
              stats.outcome.homeWin + stats.outcome.draw + stats.outcome.awayWin > 0.0
    ensures homeXg == 0.0 && awayXg == 0.0 && maxGoals >= 0 ==>
              stats.outcome == Probabilities(0.0, 1.0, 0.0) && stats.shownRows == [0]
  {
    var homeProbs := Table(homeXg, maxGoals, exp);
    var awayProbs := Table(awayXg, maxGoals, exp);
    var rows := Display.ShownRows(homeProbs, awayProbs, GoalCount(maxGoals));
    var outcome := AggregateLoop(homeProbs, awayProbs);
    stats := MatchStats(homeProbs, awayProbs, rows, outcome);
    EstimateTotal(homeXg, awayXg, maxGoals, exp);
    if homeXg >= 0.0 && awayXg >= 0.0 {
      EstimateBounds(homeXg, awayXg, maxGoals, exp);
    }
    if homeXg == 0.0 && awayXg == 0.0 && maxGoals >= 0 {
      EstimateZeroXg(maxGoals, exp);
      ShownRowsZeroXg(maxGoals, exp);
    }
  }

  /** The script's entry point: both expected-goals values come from the input
      prompt, which accepts only non-negative numbers, and the estimator runs
      with its default cutoff of 10 goals. */
  method EstimateFromInput(homeXg: real, awayXg: real, exp: real -> real)
    returns (stats: MatchStats)
    requires ExpLike(exp)
    requires homeXg >= 0.0 && awayXg >= 0.0
    ensures |stats.homeProbs| == |stats.awayProbs| == 11
    ensures forall i :: 0 <= i < 11 ==>
              stats.homeProbs[i] == Poisson(i, homeXg, exp) && stats.awayProbs[i] == Poisson(i, awayXg, exp)
    ensures forall i, j :: 0 <= i < j < |stats.shownRows| ==> stats.shownRows[i] < stats.shownRows[j]
    ensures forall k: nat :: k in stats.shownRows <==>
              k < 11 && Display.Shown(stats.homeProbs[k], stats.awayProbs[k])
    ensures stats.outcome == Estimate(homeXg, awayXg, DefaultMaxGoals, exp)
    ensures 0.0 <= stats.outcome.homeWin && 0.0 <= stats.outcome.draw && 0.0 <= stats.outcome.awayWin
    ensures stats.outcome.homeWin + stats.outcome.draw + stats.outcome.awayWin > 0.0
  {
    stats := CalculateFullMatchStats(homeXg, awayXg, DefaultMaxGoals, exp);
  }
}
