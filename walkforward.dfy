/** `run_model` of fibert.py: the walk-forward evaluation. In each run a freshly created
    network predicts test window j, the prediction is scaled back to a price and stored in
    slot j, and then (except after the last window) the network is fitted for ten epochs on
    window j and its own label before window j+1 is predicted. The runs' scores are summed
    and divided by the number of runs. */
module WalkForward {

  import Series
  import opened Metrics
  import opened Dataset
  import opened Model

  /** Epochs of each online update (`model.fit(..., epochs=10)`). */
  const OnlineEpochs: nat := 10

  /** Weights after the online updates on windows 0 .. j-1, starting from `w0`. */
  function WeightsAfter(update: (Weights, seq<real>, real, nat) -> Weights, w0: Weights,
                        xs: seq<seq<real>>, ys: seq<real>, j: nat): Weights
    requires |xs| == |ys| && j <= |xs|
  {
    if j == 0 then w0
    else update(WeightsAfter(update, w0, xs, ys, j - 1), xs[j - 1], ys[j - 1], OnlineEpochs)
  }

  /** Slot j of the results: window j predicted by the weights left by the updates on the
      windows before it, scaled back to a price. */
  function Prediction(forward: (Weights, seq<real>) -> real, update: (Weights, seq<real>, real, nat) -> Weights,
                      inverse: real -> real, w0: Weights, xs: seq<seq<real>>, ys: seq<real>, j: nat): real
    requires |xs| == |ys| && j < |xs|
  {
    inverse(forward(WeightsAfter(update, w0, xs, ys, j), xs[j]))
  }

  /** All result slots of a run. */
  function Predictions(forward: (Weights, seq<real>) -> real, update: (Weights, seq<real>, real, nat) -> Weights,
                       inverse: real -> real, w0: Weights, xs: seq<seq<real>>, ys: seq<real>): seq<real>
    requires |xs| == |ys|
  {
    seq(|xs|, j requires 0 <= j < |xs| => Prediction(forward, update, inverse, w0, xs, ys, j))
  }

  /** Number of online updates a run performs once it has handled windows 0 .. j-1 of `m`:
      one per window except the last. */
  function UpdatesDone(m: nat, j: nat): nat
  {
    if j == m && m > 0 then m - 1 else j
  }

  /** The calls a run makes for window j: predict it, then fit on its label unless it is last. */
  function StepCalls(xs: seq<seq<real>>, ys: seq<real>, j: nat): seq<Call>
    requires |xs| == |ys| && j < |xs|
  {
    [PredictCall(xs[j])] + (if j < |xs| - 1 then [FitCall(xs[j], ys[j], OnlineEpochs)] else [])
  }

  /** The calls a run makes for windows 0 .. j-1, in order. */
  function CallsUpTo(xs: seq<seq<real>>, ys: seq<real>, j: nat): (c: seq<Call>)
    requires |xs| == |ys| && j <= |xs|
    ensures |c| == j + UpdatesDone(|xs|, j)
  {
    if j == 0 then [] else CallsUpTo(xs, ys, j - 1) + StepCalls(xs, ys, j - 1)
  }

  /** The `results` array of `run_model` (allocated with `np.zeros`), with a ghost log of the
      slots stored into it, in order. */
  class Results {
    const slots: array<real>
    ghost var writes: seq<nat>

    constructor (length: nat)
      ensures fresh(slots) && slots.Length == length
      ensures forall t :: 0 <= t < length ==> slots[t] == 0.0
      ensures writes == []
    {
      slots := new real[length](_ => 0.0);
      writes := [];
    }

    /** `results[j] = v`. */
    method Store(j: nat, v: real)
      requires j < slots.Length
      modifies this`writes, slots
      ensures slots[j] == v
      ensures forall t :: 0 <= t < slots.Length && t != j ==> slots[t] == old(slots[t])
      ensures writes == old(writes) + [j]
    {
      slots[j] := v;
      writes := writes + [j];
    }
  }

  /** A log of stores that writes every slot below m exactly once and no other slot. */
  ghost predicate EachSlotOnce(log: seq<nat>, m: nat)
  {
    forall s: nat :: multiset(log)[s] == if s < m then 1 else 0
  }

  /** The slots 0, 1, ..., m-1 in increasing order. */
  function SlotOrder(m: nat): (o: seq<nat>)
    ensures |o| == m && forall t :: 0 <= t < m ==> o[t] == t
  {
    seq(m, t requires 0 <= t < m => t)
  }

  /** The inner loop of one run over the test windows: it stores slots 0, 1, ..., m-1 in
      that order. */
  method RunOnline(net: Network, xs: seq<seq<real>>, ys: seq<real>, inverse: real -> real, results: Results)
    requires |xs| == |ys| == results.slots.Length
    modifies net, results, results.slots
    ensures forall t :: 0 <= t < |xs| ==> results.slots[t] == Prediction(net.forward, net.update, inverse, old(net.weights), xs, ys, t)
    ensures net.weights == WeightsAfter(net.update, old(net.weights), xs, ys, UpdatesDone(|xs|, |xs|))
    ensures net.calls == old(net.calls) + CallsUpTo(xs, ys, |xs|)
    ensures results.writes == old(results.writes) + SlotOrder(|xs|)
  {
    ghost var w0, forward, update, c0 := net.weights, net.forward, net.update, net.calls;
    ghost var before := results.writes;
    var j: nat := 0;
    while j < |xs|
      invariant 0 <= j <= |xs|
      invariant net.weights == WeightsAfter(update, w0, xs, ys, UpdatesDone(|xs|, j))
      invariant net.calls == c0 + CallsUpTo(xs, ys, j)
      invariant forall t :: 0 <= t < j ==> results.slots[t] == Prediction(forward, update, inverse, w0, xs, ys, t)
      invariant results.writes == before + SlotOrder(j)
    {
      ghost var w, c := net.weights, net.calls;
      WalkStep(net, xs, ys, inverse, results, j);
      StepAdvances(forward, update, inverse, w0, xs, ys, j, c0, w, net.weights, c, net.calls, results.slots[j]);
      j := j + 1;
    }
  }

  /** What one inner-loop step does, in terms of the whole walk: the value it stores is the
      prediction for window j, and the state and the call log move on to those after window j. */
  lemma StepAdvances(forward: (Weights, seq<real>) -> real, update: (Weights, seq<real>, real, nat) -> Weights,
                     inverse: real -> real, w0: Weights, xs: seq<seq<real>>, ys: seq<real>, j: nat,
                     c0: seq<Call>, w: Weights, w': Weights, c: seq<Call>, c': seq<Call>, v: real)
    requires |xs| == |ys| && j < |xs|
    requires w == WeightsAfter(update, w0, xs, ys, UpdatesDone(|xs|, j)) && c == c0 + CallsUpTo(xs, ys, j)
    requires v == inverse(forward(w, xs[j]))
    requires w' == if j < |xs| - 1 then update(w, xs[j], ys[j], OnlineEpochs) else w
    requires c' == c + StepCalls(xs, ys, j)
    ensures v == Prediction(forward, update, inverse, w0, xs, ys, j)
    ensures w' == WeightsAfter(update, w0, xs, ys, UpdatesDone(|xs|, j + 1))
    ensures c' == c0 + CallsUpTo(xs, ys, j + 1)
    ensures SlotOrder(j + 1) == SlotOrder(j) + [j]
  {
    // Dafny proves this unaided, but the explicit steps keep the proof well inside the
    // resource limit on every solver seed.
    assert UpdatesDone(|xs|, j) == j;
    if j < |xs| - 1 {
      assert UpdatesDone(|xs|, j + 1) == j + 1;
    } else {
      assert UpdatesDone(|xs|, j + 1) == j;
    }
    assert CallsUpTo(xs, ys, j + 1) == CallsUpTo(xs, ys, j) + StepCalls(xs, ys, j);
    assert c' == c0 + (CallsUpTo(xs, ys, j) + StepCalls(xs, ys, j));
  }

  /** One pass of the inner loop: predict window j, store the prediction scaled back in slot
      j, and fit on window j and its label unless j is the last window. */
  method WalkStep(net: Network, xs: seq<seq<real>>, ys: seq<real>, inverse: real -> real, results: Results, j: nat)
    requires |xs| == |ys| == results.slots.Length && j < |xs|
    modifies net, results, results.slots
    ensures results.slots[j] == inverse(net.forward(old(net.weights), xs[j]))
    ensures forall t :: 0 <= t < results.slots.Length && t != j ==> results.slots[t] == old(results.slots[t])
    ensures results.writes == old(results.writes) + [j]
    ensures net.weights == if j < |xs| - 1 then net.update(old(net.weights), xs[j], ys[j], OnlineEpochs) else old(net.weights)
    ensures net.calls == old(net.calls) + StepCalls(xs, ys, j)
  {
    var p := net.Predict(xs[j]);
    results.Store(j, inverse(p));
    if j < |xs| - 1 {
      net.Fit(xs[j], ys[j], OnlineEpochs);
    }
  }

  lemma PredictionsAre(forward: (Weights, seq<real>) -> real, update: (Weights, seq<real>, real, nat) -> Weights,
                       inverse: real -> real, w0: Weights, xs: seq<seq<real>>, ys: seq<real>, p: seq<real>)
    requires |xs| == |ys| == |p|
    requires forall t :: 0 <= t < |p| ==> p[t] == Prediction(forward, update, inverse, w0, xs, ys, t)
    ensures p == Predictions(forward, update, inverse, w0, xs, ys)
  {
  }

  /** Slots written in the order 0, 1, ..., m-1: each of them once, and nothing else. */
  lemma {:induction false} SlotsInOrderOnce(written: seq<nat>)
    requires forall t :: 0 <= t < |written| ==> written[t] == t
    ensures EachSlotOnce(written, |written|)
  {
    if written != [] {
      var k := |written| - 1;
      SlotsInOrderOnce(written[..k]);
      assert written == written[..k] + [k];
    }
  }

  /** Number of fit calls in a call sequence. */
  function FitCount(calls: seq<Call>): nat
  {
    if calls == [] then 0
    else FitCount(calls[..|calls| - 1]) + (if calls[|calls| - 1].FitCall? then 1 else 0)
  }

  lemma {:induction false} FitCountAppend(a: seq<Call>, b: seq<Call>)
    ensures FitCount(a + b) == FitCount(a) + FitCount(b)
    decreases |b|
  {
    if b == [] {
      assert a + b == a;
    } else {
      var b' := b[..|b| - 1];
      var last := if b[|b| - 1].FitCall? then 1 else 0;
      assert (a + b)[..|a + b| - 1] == a + b';
      assert (a + b)[|a + b| - 1] == b[|b| - 1];
      calc {
        FitCount(a + b);
        FitCount(a + b') + last;
        { FitCountAppend(a, b'); }
        FitCount(a) + FitCount(b') + last;
        FitCount(a) + FitCount(b);
      }
    }
  }

  /** Position of every call in a run: the prediction for window i is call 2i, and the fit on
      window i's own window and label (for every window but the last) is call 2i+1. */
  lemma {:induction false} CallLayout(xs: seq<seq<real>>, ys: seq<real>, j: nat)
    requires |xs| == |ys| && j <= |xs|
    ensures forall i :: 0 <= i < j ==> CallsUpTo(xs, ys, j)[2 * i] == PredictCall(xs[i])
    ensures forall i :: 0 <= i < j && i < |xs| - 1 ==>
      CallsUpTo(xs, ys, j)[2 * i + 1] == FitCall(xs[i], ys[i], OnlineEpochs)
  {
    if j > 0 {
      CallLayout(xs, ys, j - 1);
    }
  }

  /** A run over `m` windows fits exactly `m - 1` times (none when there are no windows). */
  lemma {:induction false} OneUpdatePerWindowButLast(xs: seq<seq<real>>, ys: seq<real>, j: nat)
    requires |xs| == |ys| && j <= |xs|
    ensures FitCount(CallsUpTo(xs, ys, j)) == UpdatesDone(|xs|, j)
  {
    if j > 0 {
      OneUpdatePerWindowButLast(xs, ys, j - 1);
      FitCountAppend(CallsUpTo(xs, ys, j - 1), StepCalls(xs, ys, j - 1));
      assert FitCount([PredictCall(xs[j - 1])]) == 0;
      assert FitCount([PredictCall(xs[j - 1]), FitCall(xs[j - 1], ys[j - 1], OnlineEpochs)]) == 1;
    }
  }

  /** The weights used for window j depend only on the labels of the windows before it. */
  lemma {:induction false} WeightsSeeOnlyEarlierLabels(update: (Weights, seq<real>, real, nat) -> Weights, w0: Weights,
                                      xs: seq<seq<real>>, ys: seq<real>, ys': seq<real>, j: nat)
    requires |xs| == |ys| == |ys'| && j <= |xs|
    requires ys[..j] == ys'[..j]
    ensures WeightsAfter(update, w0, xs, ys, j) == WeightsAfter(update, w0, xs, ys', j)
  {
    if j > 0 {
      assert ys[..j - 1] == ys[..j][..j - 1] && ys'[..j - 1] == ys'[..j][..j - 1];
      assert ys[j - 1] == ys[..j][j - 1] && ys'[j - 1] == ys'[..j][j - 1];
      WeightsSeeOnlyEarlierLabels(update, w0, xs, ys, ys', j - 1);
    }
  }

  /** No label leakage: the prediction stored for window j, and every call the network has
      received up to and including that prediction, are the same whatever the labels of
      windows j, j+1, ... are. */
  lemma {:induction false} NoLabelLeakage(forward: (Weights, seq<real>) -> real, update: (Weights, seq<real>, real, nat) -> Weights,
                         inverse: real -> real, w0: Weights,
                         xs: seq<seq<real>>, ys: seq<real>, ys': seq<real>, j: nat)
    requires |xs| == |ys| == |ys'| && j < |xs|
    requires ys[..j] == ys'[..j]
    ensures Predictions(forward, update, inverse, w0, xs, ys)[j] == Predictions(forward, update, inverse, w0, xs, ys')[j]
    ensures CallsUpTo(xs, ys, |xs|)[..2 * j + 1] == CallsUpTo(xs, ys', |xs|)[..2 * j + 1]
  {
    WeightsSeeOnlyEarlierLabels(update, w0, xs, ys, ys', j);
    var c, c' := CallsUpTo(xs, ys, |xs|), CallsUpTo(xs, ys', |xs|);
    CallLayout(xs, ys, |xs|);
    CallLayout(xs, ys', |xs|);
    forall p | 0 <= p < 2 * j + 1 ensures c[p] == c'[p] {
      var i := p / 2;
      if p == 2 * i {
        assert c[2 * i] == PredictCall(xs[i]) == c'[2 * i];
      } else {
        assert p == 2 * i + 1 && i < j;
        assert ys[i] == ys[..j][i] == ys'[i];
        assert c[2 * i + 1] == FitCall(xs[i], ys[i], OnlineEpochs) == c'[2 * i + 1];
      }
    }
  }

  /** The collaborators the model does not see into. */
  datatype Library = Library(
    /** `model.predict` with the given weights */
    forward: (Weights, seq<real>) -> real,
    /** `model.fit` on one example for the given epochs */
    update: (Weights, seq<real>, real, nat) -> Weights,
    /** the training state `model_create` leaves after training on the training windows in
        run r (reached only when there is at least one training window) */
    create: (nat, seq<seq<real>>, seq<real>) -> Weights,
    /** sklearn's mean absolute error and mean absolute percentage error */
    mae: (seq<real>, seq<real>) -> real,
    mape: (seq<real>, seq<real>) -> real)

  /** The test windows, labels and actual prices line up one to one, one per step-1 window
      of the test part. */
  predicate Aligned(d: Prepared)
  {
    |d.testX| == |d.testY| == |d.testActual| == WindowCount(d.testLength, d.seqLen)
  }

  /** What the data preparation produces is aligned. */
  lemma PreparedIsAligned(series: seq<real>, k: nat, d: Prepared)
    requires d.testLength == |TrainTestSplit(series, k).1|
    requires IsWindowing(Series.Apply(d.scaler.transform, TrainTestSplit(series, k).1), d.seqLen, d.testX, d.testY)
    requires d.testActual == Series.Apply(d.scaler.inverse, d.testY)
    ensures Aligned(d)
  {
  }

  /** The predictions of run r. */
  function RunPredictions(lib: Library, d: Prepared, r: nat): (p: seq<real>)
    requires Aligned(d)
  {
    Predictions(lib.forward, lib.update, d.scaler.inverse, lib.create(r, d.trainX, d.trainY), d.testX, d.testY)
  }

  /** The scores `evaluate` reports for run r. */
  function RunScores(lib: Library, d: Prepared, r: nat): Scores
    requires Aligned(d)
  {
    var p := RunPredictions(lib, d, r);
    Evaluate(d.testActual, p, lib.mae(d.testActual, p), lib.mape(d.testActual, p))
  }

  /** The scores of runs 0 .. n-1. */
  function AllScores(lib: Library, d: Prepared, n: nat): (s: seq<Scores>)
    requires Aligned(d)
  {
    seq(n, r requires 0 <= r < n => RunScores(lib, d, r))
  }

  /** NaN propagates through a sum. */
  function AddMaybe(a: Option<real>, b: Option<real>): Option<real>
  {
    if a.Some? && b.Some? then Some(a.value + b.value) else None
  }

  function Add(a: Scores, b: Scores): Scores
  {
    Scores(a.mae + b.mae, a.mape + b.mape, a.priceAccuracy + b.priceAccuracy,
           AddMaybe(a.directionAccuracy, b.directionAccuracy))
  }

  const NoScores: Scores := Scores(0.0, 0.0, 0.0, Some(0.0))

  /** The running totals `total_mae`, `total_mape`, `total_acc`, `total_dir_acc`. */
  function Total(runs: seq<Scores>): Scores
  {
    if runs == [] then NoScores else Add(Total(runs[..|runs| - 1]), runs[|runs| - 1])
  }

  /** Each total divided by the number of runs. */
  function Mean(runs: seq<Scores>): Scores
    requires |runs| > 0
  {
    var t, n := Total(runs), |runs| as real;
    Scores(t.mae / n, t.mape / n, t.priceAccuracy / n,
           if t.directionAccuracy.Some? then Some(t.directionAccuracy.value / n) else None)
  }

  lemma {:induction false} TotalOfEqualRuns(runs: seq<Scores>, s: Scores)
    requires forall i :: 0 <= i < |runs| ==> runs[i] == s
    ensures Total(runs).mae == |runs| as real * s.mae
    ensures Total(runs).mape == |runs| as real * s.mape
    ensures Total(runs).priceAccuracy == |runs| as real * s.priceAccuracy
    ensures s.directionAccuracy.Some? ==>
      Total(runs).directionAccuracy.Some? && Total(runs).directionAccuracy.value == |runs| as real * s.directionAccuracy.value
    ensures s.directionAccuracy.None? && runs != [] ==> Total(runs).directionAccuracy.None?
  {
    if runs == [] {
      assert Total(runs) == Scores(0.0, 0.0, 0.0, Some(0.0));
    } else {
      var k := |runs| - 1;
      TotalOfEqualRuns(runs[..k], s);
      assert |runs[..k]| == k;
      Distribute(k as real, s.mae);
      Distribute(k as real, s.mape);
      Distribute(k as real, s.priceAccuracy);
      if s.directionAccuracy.Some? {
        var v := s.directionAccuracy.value;
        Distribute(k as real, v);
        assert |runs[..k]| as real * v == k as real * v;
      }
    }
  }

  lemma Distribute(k: real, x: real)
    ensures k * x + x == (k + 1.0) * x
  {
  }

  lemma Cancel(n: real, x: real)
    requires n > 0.0
    ensures (n * x) / n == x
  {
  }

  lemma DivideDifference(n: real, a: real)
    requires n > 0.0
    ensures (n - a) / n == 1.0 - a / n
  {
    assert (n - a) / n == n / n - a / n;
  }

  /** Averaging runs that all score the same gives that score. */
  lemma MeanOfEqualRuns(runs: seq<Scores>, s: Scores)
    requires |runs| > 0
    requires forall i :: 0 <= i < |runs| ==> runs[i] == s
    ensures Mean(runs) == s
  {
    var n := |runs| as real;
    TotalOfEqualRuns(runs, s);
    Cancel(n, s.mae);
    Cancel(n, s.mape);
    Cancel(n, s.priceAccuracy);
    if s.directionAccuracy.Some? {
      var v := s.directionAccuracy.value;
      Cancel(n, v);
      assert Total(runs).directionAccuracy.value == n * v;
      assert Mean(runs).directionAccuracy.value == v;

    }
  }

  /** The averaged price accuracy is one minus the averaged MAPE. */
  lemma {:induction false} MeanPriceAccuracy(runs: seq<Scores>)
    requires |runs| > 0
    requires forall i :: 0 <= i < |runs| ==> runs[i].priceAccuracy == 1.0 - runs[i].mape
    ensures Mean(runs).priceAccuracy == 1.0 - Mean(runs).mape
  {
    TotalPriceAccuracy(runs);
    var n := |runs| as real;
    DivideDifference(n, Total(runs).mape);
  }

  lemma {:induction false} TotalPriceAccuracy(runs: seq<Scores>)
    requires forall i :: 0 <= i < |runs| ==> runs[i].priceAccuracy == 1.0 - runs[i].mape
    ensures Total(runs).priceAccuracy == |runs| as real - Total(runs).mape
  {
    if runs != [] {
      TotalPriceAccuracy(runs[..|runs| - 1]);
    }
  }

  /** The averaged direction accuracy is NaN exactly when some run's is, and otherwise lies
      in [0, 1] when every run's does. */
  lemma {:induction false} MeanDirectionAccuracy(runs: seq<Scores>)
    requires |runs| > 0
    ensures Mean(runs).directionAccuracy.None? <==> exists i :: 0 <= i < |runs| && runs[i].directionAccuracy.None?
    ensures (forall i :: 0 <= i < |runs| ==> runs[i].directionAccuracy.Some? && 0.0 <= runs[i].directionAccuracy.value <= 1.0)
      ==> 0.0 <= Mean(runs).directionAccuracy.value <= 1.0
  {
    TotalDirectionAccuracy(runs);
  }

  lemma {:induction false} TotalDirectionAccuracy(runs: seq<Scores>)
    ensures Total(runs).directionAccuracy.None? <==> exists i :: 0 <= i < |runs| && runs[i].directionAccuracy.None?
    ensures (forall i :: 0 <= i < |runs| ==> runs[i].directionAccuracy.Some? && 0.0 <= runs[i].directionAccuracy.value <= 1.0)
      ==> 0.0 <= Total(runs).directionAccuracy.value <= |runs| as real
  {
    if runs != [] {
      var init := runs[..|runs| - 1];
      TotalDirectionAccuracy(init);
      assert forall i :: 0 <= i < |init| ==> init[i] == runs[i];
    }
  }

  /** How `run_model` can fail: numpy refuses to allocate the result array when the test
      part is shorter than one window; `model_create` raises IndexError on `X_train.shape[1]`
      in the first run when there are no training windows (the empty array has one
      dimension); and Python raises ZeroDivisionError when the totals are divided by zero
      runs. */
  datatype Error = NegativeDimensions | NoTrainingWindows | ZeroRuns
  datatype Outcome = Failure(error: Error) | Success(average: Scores, predictions: seq<real>)

  /** One iteration of the run loop: create and train a network for run r, walk it forward
      over the test windows into `results`, and score the predictions. */
  method OneRun(r: nat, lib: Library, d: Prepared, results: Results) returns (scores: Scores)
    requires Aligned(d) && results.slots.Length == |d.testX|
    modifies results, results.slots
    ensures results.slots[..] == RunPredictions(lib, d, r)
    ensures scores == RunScores(lib, d, r)
    ensures |old(results.writes)| <= |results.writes| && results.writes[..|old(results.writes)|] == old(results.writes)
    ensures EachSlotOnce(results.writes[|old(results.writes)|..], |d.testX|)
  {
    var net := new Network(lib.forward, lib.update, lib.create(r, d.trainX, d.trainY));
    RunOnline(net, d.testX, d.testY, d.scaler.inverse, results);
    PredictionsAre(lib.forward, lib.update, d.scaler.inverse, lib.create(r, d.trainX, d.trainY), d.testX, d.testY, results.slots[..]);
    assert results.writes[|old(results.writes)|..] == SlotOrder(|d.testX|);
    SlotsInOrderOnce(SlotOrder(|d.testX|));
    var predictions := results.slots[..];
    scores := Evaluate(d.testActual, predictions, lib.mae(d.testActual, predictions), lib.mape(d.testActual, predictions));
  }

  /** The totals after k runs are those after k-1 runs plus the scores of run k-1. */
  lemma AllScoresStep(lib: Library, d: Prepared, k: nat)
    requires Aligned(d) && 0 < k
    ensures Total(AllScores(lib, d, k)) == Add(Total(AllScores(lib, d, k - 1)), RunScores(lib, d, k - 1))
  {
    assert AllScores(lib, d, k)[..k - 1] == AllScores(lib, d, k - 1);
  }

  /** The loop `for iteration in range(n)`: run after run, until `model_create` fails in
      the first run for want of training windows. When every run completes, the totals are
      those of all n runs and the slots hold the last run's predictions. */
  method RunAll(n: nat, lib: Library, d: Prepared, results: Results) returns (totals: Scores, completed: bool)
    requires Aligned(d) && results.slots.Length == |d.testX|
    modifies results, results.slots
    ensures completed <==> n == 0 || |d.trainX| > 0
    ensures completed ==> totals == Total(AllScores(lib, d, n))
    ensures completed && n > 0 ==> results.slots[..] == RunPredictions(lib, d, n - 1)
  {
    totals := NoScores;
    var r := 0;
    while r < n
      invariant r <= n
      invariant totals == Total(AllScores(lib, d, r))
      invariant r > 0 ==> results.slots[..] == RunPredictions(lib, d, r - 1)
      invariant r > 0 ==> |d.trainX| > 0
    {
      if |d.trainX| == 0 {
        return totals, false;
      }
      r := r + 1;
      totals := NextRun(r, lib, d, results, totals);
    }
    completed := true;
  }

  /** The body of the run loop, bringing the number of completed runs to k: run k-1, with
      its scores added to the totals of the runs before it. */
  method NextRun(k: nat, lib: Library, d: Prepared, results: Results, totals: Scores)
    returns (totals': Scores)
    requires Aligned(d) && results.slots.Length == |d.testX|
    requires 0 < k && totals == Total(AllScores(lib, d, k - 1))
    modifies results, results.slots
    ensures totals' == Total(AllScores(lib, d, k))
    ensures results.slots[..] == RunPredictions(lib, d, k - 1)
  {
    var scores := OneRun(k - 1, lib, d, results);
    AllScoresStep(lib, d, k);
    totals' := Add(totals, scores);
  }

  /** `run_model(n)`: `n` runs, each with a freshly created network; the averaged scores,
      and the result slots as the last run left them (the array is allocated once, before
      the runs, and every run overwrites every slot). */
  method RunModel(n: nat, lib: Library, d: Prepared) returns (out: Outcome)
    requires Aligned(d)
    ensures out.Failure? <==> d.testLength < d.seqLen || n == 0 || |d.trainX| == 0
    ensures out.Failure? ==> out.error == (if d.testLength < d.seqLen then NegativeDimensions else if n == 0 then ZeroRuns else NoTrainingWindows)
    ensures out.Success? ==> out.average == Mean(AllScores(lib, d, n))
    ensures out.Success? ==> out.predictions == RunPredictions(lib, d, n - 1)
  {
    if d.testLength < d.seqLen {
      return Failure(NegativeDimensions);
    }
    var results := new Results(d.testLength - d.seqLen);
    var totals, completed := RunAll(n, lib, d, results);
    if !completed {
      return Failure(NoTrainingWindows);
    }
    if n == 0 {
      return Failure(ZeroRuns);
    }
    var m := n as real;
    var average := Scores(totals.mae / m, totals.mape / m, totals.priceAccuracy / m,
                          if totals.directionAccuracy.Some? then Some(totals.directionAccuracy.value / m) else None);
    out := Success(average, results.slots[..]);
  }

  /** `model_create` seeds the generator with the same constant in every run; when that makes
      the created network independent of the run, all runs score alike and the averages are
      those of the first run. */
  lemma SeededRunsAgree(lib: Library, d: Prepared, n: nat)
    requires Aligned(d) && n > 0
    requires forall r: nat :: lib.create(r, d.trainX, d.trainY) == lib.create(0, d.trainX, d.trainY)
    ensures Mean(AllScores(lib, d, n)) == RunScores(lib, d, 0)
    ensures RunPredictions(lib, d, n - 1) == RunPredictions(lib, d, 0)
  {
    MeanOfEqualRuns(AllScores(lib, d, n), RunScores(lib, d, 0));
  }
}
