# Football outcome estimator — Dafny model

This project models the match outcome estimator of `prediction.py`, found in
`calculate_full_match_stats`. The estimator takes two expected-goals (xG)
values. Each one is the mean of an independent Poisson distribution of goals.
From them it builds:

- a goal table for each side, holding the Poisson probabilities of 0..max_goals
  goals;
- the list of goal rows it displays, which are the rows where either side's
  probability is above 0.01 percent;
- the three outcome totals: home win (h > a), draw (h == a) and away win
  (h < a). Each total is a sum of `home[h] * away[a]` over every pair of goal
  counts.

All values are exact `real`s. The report the source prints is returned here as
a `MatchStats` value instead.

Modules:

- `RealMath` (`real_math.dfy`) holds `Pow`, `Fact`, finite sums, and the
  predicate `ExpLike`. `math.pow` becomes `Pow`, where 0^0 = 1 as in Python.
  `math.factorial` becomes `Fact`. `math.exp` cannot be defined here, so it is
  a parameter `exp: real -> real`. `ExpLike` states the two facts the model
  uses about it: `exp(0) == 1`, and `exp(x) > 0` for every x.
- `GoalDistribution` (`goal_distribution.dfy`) holds the Poisson mass
  function and the goal tables. `max_goals` is an `int` with the semantics of
  Python's `range(max_goals + 1)`: a negative cutoff gives empty tables.
- `Outcome` (`outcome.dfy`) specifies the three totals as recursive sums over
  rows and columns. `AggregateLoop` is the source's nested loop, with loop
  invariants that prove it computes those sums.
- `Display` (`display.dfy`) holds the goal-row filter.
- `Estimator` (`estimator.dfy`) holds `calculate_full_match_stats` as a whole.

`calculate_full_match_stats` itself does not check its arguments: it computes
with any xG it is given. Only the input loop `get_valid_xg`
(`prediction.py:70-72`) turns away negative values before the script calls the
estimator. The model follows that split. The estimator has no error path and
no precondition on xG, and the properties that need non-negative xG take it
as a hypothesis. `EstimateFromInput` models the script's own call
(`prediction.py:76-79`), where `max_goals` takes its default of 10. Over the
reals, a value `get_valid_xg` accepts is a non-negative number. The float
values nan and +inf also pass its test, and the model does not cover them
(see "## Left out").

The comment at `prediction.py:26` says rows are shown above "0.1%". The code
tests `pct > 0.01`, where `pct` is the probability times 100. The model
follows the code.

## Model

| member | source | states |
|---|---|---|
| RealMath.Pow | prediction.py:10 | defines `math.pow(λ, k)` for a natural exponent k as the k-fold product of λ, with 0^0 = 1 as in Python; its properties are the three rows below |
| RealMath.PowNonNegative | prediction.py:10 | `math.pow(λ, k)` is non-negative for a non-negative base λ |
| RealMath.PowPositive | prediction.py:10 | `math.pow(λ, k)` is positive for a positive base λ |
| RealMath.PowZeroBase | prediction.py:10 | with base 0, `math.pow` gives 1 at exponent 0 (Python's 0^0 = 1) and 0 at every other exponent |
| RealMath.Fact | prediction.py:10 | `math.factorial(k)` is an integer that is at least 1, so the Poisson division is never by zero |
| GoalDistribution.Poisson | prediction.py:9-10 | defines `poisson(k, lamb)` as λ^k · exp(-λ) / k!, with `math.exp` the parameter `exp`; its properties are the rows that follow |
| GoalDistribution.PoissonSign | prediction.py:9-10 | λ^k·e^(-λ)/k! is non-negative when λ ≥ 0 and positive when λ > 0, given a positive exponential |
| GoalDistribution.PoissonZeroRate | prediction.py:10 | with λ = 0 the mass is 1 at k = 0 and 0 at every k > 0 |
| GoalDistribution.PoissonNoGoals | prediction.py:10 | the mass of zero goals is e^(-λ) |
| GoalDistribution.GoalCount | prediction.py:13-14 | defines the number of goal counts in `range(max_goals + 1)`: max_goals + 1, or 0 for a negative cutoff |
| GoalDistribution.Table | prediction.py:13-14 | a goal table has exactly max_goals + 1 entries (none for a negative cutoff), and entry i is the Poisson mass of i goals |
| GoalDistribution.TableNonNegative | prediction.py:13-14 | every table entry is non-negative when xG ≥ 0 |
| GoalDistribution.TableZeroRate | prediction.py:13-14 | with xG = 0 the table is [1, 0, 0, …] |
| GoalDistribution.TablePrefix | prediction.py:13-14 | the table for a smaller cutoff is a prefix of the table for a larger one |
| GoalDistribution.TableSumMonotone | prediction.py:13-14 | the total mass of a table never decreases as the cutoff grows, when xG ≥ 0 |
| GoalDistribution.TableSumPositive | prediction.py:10-14 | with xG ≥ 0 and max_goals ≥ 0 a table's total mass is positive, since it contains P(0) = e^(-xG) > 0 |
| Outcome.Classify | prediction.py:39-44 | defines the bucket of the score (h, a) by the same if/elif/else: home win when h > a, draw when h == a, away win otherwise; ClassifyPartition and ClassifySwap state its properties |
| Outcome.ClassifyPartition | prediction.py:39-44 | each score lands in exactly one bucket: home win iff h > a, draw iff h == a, away win iff h < a, so ties never reach a win bucket |
| Outcome.ClassifySwap | prediction.py:39-44 | exchanging h and a exchanges home win with away win and keeps a draw a draw |
| Outcome.AggregateLoop | prediction.py:31-44 | the nested loop accumulates into each bucket exactly the sum of that bucket's joint probabilities over every (h, a) pair |
| Outcome.Aggregate | prediction.py:31-44 | defines the three outcome totals as the recursive bucket sums over every (h, a) pair; AggregateLoop proves the nested loop computes them |
| Outcome.AggregateTotal | prediction.py:31-44 | home win + draw + away win equals (Σ home) · (Σ away) |
| Outcome.RowPartition | prediction.py:36-44 | one inner-loop pass adds to the three buckets together exactly the joint mass of its row, home[h]·away[a] over every a |
| Outcome.GridPartition | prediction.py:35-44 | the three bucket totals over any block of rows add up to the block's full joint mass: each pair counts once, in one bucket |
| Outcome.JointFactors | prediction.py:35-44 | the joint mass over the Cartesian product of two index ranges is the product of the two tables' sums over those ranges |
| Outcome.TotalPartition | prediction.py:31-44 | the three totals add up to the full joint sum over the Cartesian product |
| Outcome.TotalBounds | prediction.py:31-44 | over non-negative tables each total lies between 0 and the full joint sum |
| Outcome.GridTranspose | prediction.py:35-44 | summing the buckets by rows equals summing the mirrored buckets of the swapped tables by columns |
| Outcome.AggregateSwap | prediction.py:35-44 | swapping the two tables swaps home win with away win and leaves draw unchanged |
| Outcome.AggregatePointMass | prediction.py:35-44 | two tables of the form [1, 0, …] give draw = 1 and home win = away win = 0 |
| Display.Shown | prediction.py:24-27 | defines the row test: the row shows when home[k]·100 > 0.01 or away[k]·100 > 0.01 |
| Display.ShownRows | prediction.py:23-27 | the displayed rows are exactly the k, in increasing order, where home[k]·100 > 0.01 or away[k]·100 > 0.01 |
| Display.ShownRowsPointMass | prediction.py:23-27 | tables of the form [1, 0, …] display the single row 0 |
| Estimator.Estimate | prediction.py:13-44 | defines the estimator's outcome: Aggregate applied to the two goal tables |
| Estimator.EstimateTotal | prediction.py:13-44 | the three outcomes add up to the product of the two tables' total masses |
| Estimator.EstimateSymmetric | prediction.py:13-44 | estimate(y, x) has the home win and away win of estimate(x, y) swapped, and the same draw |
| Estimator.EstimateZeroXg | prediction.py:10-44 | with both xG equal to 0, draw = 1 and home win = away win = 0 |
| Estimator.ShownRowsZeroXg | prediction.py:10-27 | with both xG equal to 0 and max_goals ≥ 0, only the row of 0 goals is displayed |
| Estimator.EstimateBounds | prediction.py:13-44 | with xG ≥ 0, each outcome lies between 0 and the total joint mass, and with max_goals ≥ 0 as well the three outcomes add up to a positive amount |
| Estimator.CalculateFullMatchStats | prediction.py:3-44 | both tables have max_goals + 1 Poisson entries; the displayed rows are exactly the filtered indices in increasing order; the outcomes come from the nested loop and add up to the joint mass; they are non-negative for non-negative xG, with a positive sum when max_goals ≥ 0 too; and zero xG gives a certain draw with only row 0 displayed |
| Estimator.EstimateFromInput | prediction.py:70-79 | for the script's call (non-negative xG from the prompt, default max_goals = 10): 11 Poisson entries per side, the displayed rows are exactly the k < 11 whose row passes the test at line 27, in increasing order, and the outcomes are non-negative with a positive sum |

## Left out

- Printing and formatting (`prediction.py:17-21`, `28`, `47-54`) are left out. The model returns the values the source prints.
- The input loop `get_valid_xg` (`prediction.py:58-73`) is terminal I/O, with parsing done by Python's `float`, so its prompting, parsing and reprompting are left out. It returns any float `float(s)` that is not below 0, and that includes nan and +inf. Only its finite non-negative results are kept, as the precondition of `EstimateFromInput`.
- IEEE-754 double rounding is not modelled: every quantity is an exact real.
- nan and +inf xG values are not modelled, because a real has neither. `get_valid_xg` accepts both, for example from the input "nan", "inf" or "1e999". With nan every table entry is nan, no row is displayed and the three outcomes print as nan. With +inf entry 0 is 0.0 and every later entry is nan. So `EstimateFromInput` covers only finite non-negative input.
- Underflow is not modelled. For xG above about 745, `math.exp(-xg)` is 0.0 in double precision, so the source's tables and outcomes are all 0.0. For those inputs `GoalDistribution.TableSumPositive`, `Estimator.EstimateBounds` and `Estimator.EstimateFromInput` prove a positive sum, which holds over the reals but not for the source's floats.
- The exceptions Python raises on out-of-range floats are not modelled. The model returns a value in each of these cases:
  - `float / math.factorial(k)` at `prediction.py:10` raises OverflowError for k ≥ 171, so for every max_goals ≥ 171;
  - `math.pow(λ, k)` raises OverflowError once λ^k exceeds the largest double, about 1.8e308, for instance λ = 1e200 at k = 2;
  - `math.exp(-λ)` raises OverflowError for λ below about -709.8.
- `math.exp` is a parameter, and only `exp(0) = 1` and `exp(x) > 0` are assumed of it. So no property needs more of the exponential than those two facts.
- GoalDistribution.PoissonSign: the upper bound P(k; λ) ≤ 1 is not stated, because it needs the series of the exponential, beyond the two assumed facts.
- Truncation claims are not stated: a table's mass is at most 1, it tends to 1 as max_goals grows, and it is within 1e-6 of 1 for realistic xG. These need analysis of the exponential series, which the source neither computes nor checks. Only the monotone growth of a table's mass and its positivity are proved.
- Properties that depend on numeric values of `exp` are left out, for example that the side with the larger xG wins more often.
