/** Data preparation of fibert.py: the chronological train/test split of the closing prices,
    min-max scaling fitted on the training part only, and the step-1 sliding windows that
    pair each window of `seqLen` scaled prices with the price that follows it. */
module Dataset {

  import opened Series

  /** A fitted scaler: its forward transform and its inverse. How it is fitted (sklearn's
      MinMaxScaler) is outside the model; only which data it is fitted on is modelled. */
  datatype Scaler = Scaler(transform: real -> real, inverse: real -> real)

  /** The chronological split at index `k` with Python's slice semantics: the first `k` prices
      train, the rest test; a `k` past the end leaves the test part empty. */
  function TrainTestSplit(series: seq<real>, k: nat): (parts: (seq<real>, seq<real>))
    ensures parts.0 + parts.1 == series
    ensures |parts.0| == if k <= |series| then k else |series|
  {
    if k <= |series| then (series[..k], series[k..]) else (series, [])
  }

  /** `range(len - seqLen)`: the number of windows, zero when the series is not longer
      than one window. */
  function WindowCount(len: nat, seqLen: nat): nat
  {
    if len > seqLen then len - seqLen else 0
  }

  /** `xs`/`ys` are the windows and labels of `s`: window i is `s[i .. i + seqLen)` and
      label i is the value right after it. */
  ghost predicate IsWindowing(s: seq<real>, seqLen: nat, xs: seq<seq<real>>, ys: seq<real>)
  {
    && |xs| == WindowCount(|s|, seqLen)
    && |ys| == |xs|
    && forall i :: 0 <= i < |xs| ==> xs[i] == s[i..i + seqLen] && ys[i] == s[i + seqLen]
  }

  /** The window-building loop (run once on the training part and once on the test part). */
  method MakeWindows(s: seq<real>, seqLen: nat) returns (xs: seq<seq<real>>, ys: seq<real>)
    ensures IsWindowing(s, seqLen, xs, ys)
  {
    xs, ys := [], [];
    var i := 0;
    while i < |s| - seqLen
      invariant i == |xs| == |ys| <= WindowCount(|s|, seqLen)
      invariant forall t :: 0 <= t < i ==> xs[t] == s[t..t + seqLen] && ys[t] == s[t + seqLen]
    {
      xs := xs + [s[i..i + seqLen]];
      ys := ys + [s[i + seqLen]];
      i := i + 1;
    }
  }

  /** A series no longer than one window yields no windows, not an error. */
  lemma ShortSeriesHasNoWindows(s: seq<real>, seqLen: nat, xs: seq<seq<real>>, ys: seq<real>)
    requires IsWindowing(s, seqLen, xs, ys)
    requires |s| <= seqLen
    ensures xs == [] && ys == []
  {
  }

  /** The windows and labels of a series are determined by the series. */
  lemma WindowingIsUnique(s: seq<real>, seqLen: nat, xs: seq<seq<real>>, ys: seq<real>, xs': seq<seq<real>>, ys': seq<real>)
    requires IsWindowing(s, seqLen, xs, ys) && IsWindowing(s, seqLen, xs', ys')
    ensures xs == xs' && ys == ys'
  {
  }

  /** Window i+1 is window i shifted left by one, with label i appended. */
  lemma NextWindowShifts(s: seq<real>, seqLen: nat, xs: seq<seq<real>>, ys: seq<real>, i: nat)
    requires IsWindowing(s, seqLen, xs, ys)
    requires seqLen > 0 && i + 1 < |xs|
    ensures xs[i + 1] == xs[i][1..] + [ys[i]]
  {
  }

  /** The first window followed by all labels gives back the whole series. */
  lemma WindowsCoverSeries(s: seq<real>, seqLen: nat, xs: seq<seq<real>>, ys: seq<real>)
    requires IsWindowing(s, seqLen, xs, ys)
    requires |xs| > 0
    ensures xs[0] + ys == s
  {
  }

  /** Fifteen prices split after nine, with windows of three: six training windows and three
      test windows. */
  lemma FifteenPricesExample(series: seq<real>, trainX: seq<seq<real>>, trainY: seq<real>,
                                                testX: seq<seq<real>>, testY: seq<real>)
    requires |series| == 15
    requires IsWindowing(TrainTestSplit(series, 9).0, 3, trainX, trainY)
    requires IsWindowing(TrainTestSplit(series, 9).1, 3, testX, testY)
    ensures |TrainTestSplit(series, 9).0| == 9 && |TrainTestSplit(series, 9).1| == 6
    ensures |trainX| == |trainY| == 6 && |testX| == |testY| == 3
    ensures testY == series[12..]
  {
  }

  /** Everything the walk-forward evaluation needs from the price series. */
  datatype Prepared = Prepared(
    scaler: Scaler,
    seqLen: nat,
    trainX: seq<seq<real>>, trainY: seq<real>,
    testLength: nat,
    testX: seq<seq<real>>, testY: seq<real>,
    testActual: seq<real>)

  /** Why the preparation stops: sklearn refuses an array with no samples, when fitting the
      scaler on an empty training part, when transforming an empty test part, and when
      scaling back the labels of a test part that has no windows. */
  datatype PrepError = EmptyTrainingPart | EmptyTestPart | NoTestWindows

  datatype Preparation = Refused(error: PrepError) | Ready(data: Prepared)

  /** Split at `k`, fit the scaler on the training part only, scale both parts with it,
      window both parts, and keep the test labels back in price units for evaluation. */
  method PrepareData(series: seq<real>, k: nat, seqLen: nat, fit: seq<real> -> Scaler) returns (out: Preparation)
    ensures out.Refused? <==> k == 0 || k >= |series| || |series| - k <= seqLen
    ensures out.Refused? ==> out.error == (if k == 0 || |series| == 0 then EmptyTrainingPart else if k >= |series| then EmptyTestPart else NoTestWindows)
    ensures out.Ready? ==> out.data.scaler == fit(TrainTestSplit(series, k).0)
    ensures out.Ready? ==> out.data.seqLen == seqLen && out.data.testLength == |TrainTestSplit(series, k).1|
    ensures out.Ready? ==> IsWindowing(Apply(out.data.scaler.transform, TrainTestSplit(series, k).0), seqLen, out.data.trainX, out.data.trainY)
    ensures out.Ready? ==> IsWindowing(Apply(out.data.scaler.transform, TrainTestSplit(series, k).1), seqLen, out.data.testX, out.data.testY)
    ensures out.Ready? ==> out.data.testActual == Apply(out.data.scaler.inverse, out.data.testY)
    ensures out.Ready? ==> |out.data.testX| > 0
  {
    var (train, test) := TrainTestSplit(series, k);
    if |train| == 0 {
      return Refused(EmptyTrainingPart);
    }
    var scaler := fit(train);
    var trainScaled := Apply(scaler.transform, train);
    if |test| == 0 {
      return Refused(EmptyTestPart);
    }
    var testScaled := Apply(scaler.transform, test);
    var trainX, trainY := MakeWindows(trainScaled, seqLen);
    var testX, testY := MakeWindows(testScaled, seqLen);
    if |testY| == 0 {
      return Refused(NoTestWindows);
    }
    out := Ready(Prepared(scaler, seqLen, trainX, trainY, |test|, testX, testY, Apply(scaler.inverse, testY)));
  }
}
