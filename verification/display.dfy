/**
 The goal-table row filter: a row k is displayed exactly when either side's
 probability, as a percentage, exceeds 0.01.
 */
module Display {

  /** Threshold, in percentage points, a side must exceed for its row to show. */
  const ThresholdPercent: real := 0.01

  /** Whether the row with these two probabilities is displayed. */
  predicate Shown(homeP: real, awayP: real) {
    homeP * 100.0 > ThresholdPercent || awayP * 100.0 > ThresholdPercent
  }

  /** The displayed goal counts among 0..n-1, in the order they are printed. */
  function ShownRows(home: seq<real>, away: seq<real>, n: nat): (rows: seq<nat>)
    requires n <= |home| && n <= |away|
    ensures forall i, j :: 0 <= i < j < |rows| ==> rows[i] < rows[j]
    ensures forall k: nat :: k in rows <==> k < n && Shown(home[k], away[k])
  {
    if n == 0 then []
    else
      var earlier := ShownRows(home, away, n - 1);
      assert forall i :: 0 <= i < |earlier| ==> earlier[i] in earlier && earlier[i] < n - 1;
      if Shown(home[n - 1], away[n - 1]) then earlier + [n - 1] else earlier
  }

  /** Tables concentrated on zero goals display the single row 0. */
  lemma {:induction false} ShownRowsPointMass(home: seq<real>, away: seq<real>, n: nat)
    requires 1 <= n <= |home| && n <= |away|
    requires home[0] == 1.0
    requires forall i :: 1 <= i < |home| ==> home[i] == 0.0
    requires forall i :: 1 <= i < |away| ==> away[i] == 0.0
    ensures ShownRows(home, away, n) == [0]
  {
    if n > 1 {
      ShownRowsPointMass(home, away, n - 1);
      assert !Shown(home[n - 1], away[n - 1]);
    }
  }
}
