/** Evaluation metrics of one run of the walk-forward loop (fibert.py, `calculate_direction_accuracy`
    and `evaluate`). Mean absolute error and mean absolute percentage error are computed by a
    library outside this model; their values arrive here as plain reals. */
module Metrics {

  import opened Series

  /** `None` stands for the NaN that numpy's mean of an empty array produces. */
  datatype Option<+T> = None | Some(value: T)

  /** Up/down movements of a series: entry t is 1 when the series rises strictly from
      position t to t+1, and 0 otherwise (a flat step counts as "down"). A series with
      fewer than two values has no movements. */
  function Directions(v: seq<real>): (d: seq<int>)
    ensures |d| == if |v| == 0 then 0 else |v| - 1
    ensures forall t :: 0 <= t < |d| ==> (d[t] == 1 <==> v[t + 1] > v[t])
    ensures forall t :: 0 <= t < |d| ==> (d[t] == 0 <==> v[t + 1] <= v[t])
  {
    if |v| <= 1 then []
    else seq(|v| - 1, t requires 0 <= t < |v| - 1 => if v[t + 1] > v[t] then 1 else 0)
  }

  /** Number of positions at which two equally long sequences agree. */
  function CountAgree(a: seq<int>, b: seq<int>): nat
    requires |a| == |b|
  {
    if a == [] then 0
    else CountAgree(a[..|a| - 1], b[..|b| - 1]) + (if a[|a| - 1] == b[|b| - 1] then 1 else 0)
  }

  lemma {:induction false} CountAgreeBounded(a: seq<int>, b: seq<int>)
    requires |a| == |b|
    ensures CountAgree(a, b) <= |a|
    ensures CountAgree(a, b) == |a| <==> a == b
  {
    if a != [] {
      var a', b' := a[..|a| - 1], b[..|b| - 1];
      CountAgreeBounded(a', b');
      assert a == a' + [a[|a| - 1]] && b == b' + [b[|b| - 1]];
    }
  }

  /** Fraction of movements on which the two series agree; `None` (NaN) when the series have
      fewer than two values, since there is no movement to average over. */
  function DirectionAccuracy(actual: seq<real>, predicted: seq<real>): (r: Option<real>)
    requires |actual| == |predicted|
    ensures r.None? <==> |actual| < 2
    ensures r.Some? ==> 0.0 <= r.value <= 1.0
    ensures r.Some? ==> (r.value == 1.0 <==> Directions(actual) == Directions(predicted))
  {
    if |actual| < 2 then None
    else
      var da, dp := Directions(actual), Directions(predicted);
      CountAgreeBounded(da, dp);
      FractionBounds(CountAgree(da, dp), |actual| - 1);
      Some(CountAgree(da, dp) as real / (|actual| - 1) as real)
  }

  lemma FractionBounds(k: nat, n: nat)
    requires 0 < n && k <= n
    ensures 0.0 <= k as real / n as real <= 1.0
    ensures k as real / n as real == 1.0 <==> k == n
  {
  }

  /** A prediction identical to the actual series scores a direction accuracy of exactly 1. */
  lemma PerfectPrediction(actual: seq<real>)
    requires |actual| >= 2
    ensures DirectionAccuracy(actual, actual) == Some(1.0)
  {
  }

  /** Two series make the same moves when they have the same length and rise at the same steps. */
  ghost predicate SameMoves(v: seq<real>, w: seq<real>)
  {
    |v| == |w| && forall t :: 0 <= t < |v| - 1 ==> (v[t + 1] > v[t] <==> w[t + 1] > w[t])
  }

  /** Direction accuracy depends only on the relative order of consecutive values. */
  lemma {:induction false} OnlyOrderMatters(actual: seq<real>, predicted: seq<real>, actual': seq<real>, predicted': seq<real>)
    requires |actual| == |predicted|
    requires SameMoves(actual, actual') && SameMoves(predicted, predicted')
    ensures DirectionAccuracy(actual, predicted) == DirectionAccuracy(actual', predicted')
  {
    assert Directions(actual) == Directions(actual');
    assert Directions(predicted) == Directions(predicted');
  }

  /** A strictly increasing map (such as a min-max scaling of a non-constant range, or its
      inverse) leaves the moves of a series unchanged, hence the direction accuracy too. */
  lemma {:induction false} IncreasingMapKeepsAccuracy(f: real -> real, g: real -> real, actual: seq<real>, predicted: seq<real>)
    requires |actual| == |predicted|
    requires forall x: real, y: real :: x < y ==> f(x) < f(y)
    requires forall x: real, y: real :: x < y ==> g(x) < g(y)
    ensures DirectionAccuracy(Apply(f, actual), Apply(g, predicted)) == DirectionAccuracy(actual, predicted)
  {
    var fa, gp := Apply(f, actual), Apply(g, predicted);
    forall t | 0 <= t < |actual| - 1 ensures fa[t + 1] > fa[t] <==> actual[t + 1] > actual[t] {
      assert fa[t + 1] == f(actual[t + 1]) && fa[t] == f(actual[t]);
    }
    forall t | 0 <= t < |predicted| - 1 ensures gp[t + 1] > gp[t] <==> predicted[t + 1] > predicted[t] {
      assert gp[t + 1] == g(predicted[t + 1]) && gp[t] == g(predicted[t]);
    }
    OnlyOrderMatters(fa, gp, actual, predicted);
  }

  /** The four numbers `evaluate` reports for one run. */
  datatype Scores = Scores(mae: real, mape: real, priceAccuracy: real, directionAccuracy: Option<real>)

  /** `evaluate`: the library's MAE and MAPE, price accuracy as one minus MAPE, and the
      direction accuracy of the predictions against the actual test values. */
  function Evaluate(actual: seq<real>, predicted: seq<real>, mae: real, mape: real): (s: Scores)
    requires |actual| == |predicted|
    ensures s.mae == mae && s.mape == mape && s.priceAccuracy == 1.0 - s.mape
    ensures s.priceAccuracy <= 1.0 <==> mape >= 0.0
    ensures s.priceAccuracy == 1.0 <==> mape == 0.0
    ensures s.directionAccuracy.None? <==> |actual| < 2
    ensures s.directionAccuracy.Some? ==> 0.0 <= s.directionAccuracy.value <= 1.0
    ensures s.directionAccuracy == DirectionAccuracy(actual, predicted)
  {
    Scores(mae, mape, 1.0 - mape, DirectionAccuracy(actual, predicted))
  }
}
