# Walk-forward stock price prediction, modelled in Dafny

This project models the core of `fibert.py`, a script that predicts the next closing price
of a stock from the ten prices before it. It does three things:

- It prepares the data. It splits the price series chronologically into a training part and
  a test part, fits a min-max scaler on the training part only and scales both parts with it.
  It then cuts each part into step-1 windows, each labelled with the price that follows it.
- It runs a walk-forward evaluation. For each test window, the network predicts the next
  price and the prediction is scaled back and stored in the window's slot of `results`.
  Then, except after the last window, the network is fitted for ten epochs on that window
  and its own label.
- It scores each run with the library's MAE and MAPE, price accuracy `1 - MAPE` and
  direction accuracy. Direction accuracy is the fraction of steps on which the predicted
  series moves up or down as the actual series does. The scores of `n` runs are averaged.

The network, the scaler and the library metrics are opaque. The network is a class
`Model.Network` built from two functions: a forward pass and a one-example update. It holds
its training state (`Model.Weights`) and a ghost log of every `predict` and `fit` call it
receives. The training state stands for everything a Keras `fit` continues from: the
parameters, the Adam optimiser's moment estimates and step counter, and the random generator
that draws the dropout masks. `model_create` is a function from the run index and the
training windows to a trained state. The `results` array is a class `WalkForward.Results`
holding the array and a ghost log of the slots stored into it. The scaler is a
pair of functions `Dataset.Scaler`, fitted by a caller-supplied function of the training
part. MAE and MAPE are functions of the actual and predicted series. Floating-point prices
are modelled as `real`. Numpy's NaN (the mean of an empty direction array) is modelled as
`Option.None`, and it propagates through the sums and the averages as NaN does.

Modules: `Series` (element-wise maps), `Dataset` (split, windows, preparation), `Metrics`
(directions, direction accuracy, `evaluate`), `Model` (the network), `WalkForward`
(`run_model`, the no-leakage and counting properties, the averaging).

How the script fails, as its code stands:

- sklearn refuses arrays with no samples. So preparation stops when the training part is empty
  (fitting the scaler), when the test part is empty (transforming it), and when the test part
  has at most `sequence_length` prices, so that it has no windows (scaling the test labels
  back). The windowing loop itself raises nothing: a part of at most `sequence_length` prices
  gives no windows.
- `run_model` fails in three ways, in this order:
  - `np.zeros` with a negative length, when the test part is shorter than one window;
  - `model_create` in the first run, when there are no training windows, because
    `X_train.shape[1]` does not exist on the empty array;
  - `ZeroDivisionError` when the totals are divided by zero runs.
  There is no other handling of failed runs.
- `model_create` seeds TensorFlow with 1234 in every run, so the runs are not independently
  initialised. `WalkForward.SeededRunsAgree` states what follows when that makes runs equal.

## Model

| member | source | states |
|---|---|---|
| `Dataset.TrainTestSplit` | fibert.py:36-40 | the training part followed by the test part is the whole series; the training part has exactly `k` prices (all of them when `k` is past the end, as Python slicing gives) |
| `Dataset.MakeWindows` | fibert.py:51-66 | the loop yields `max(0, L - S)` windows and as many labels; window i is `s[i..i+S)` and label i is `s[i+S]` |
| `Dataset.ShortSeriesHasNoWindows` | fibert.py:53 | a series no longer than one window yields no windows and no labels, not an error |
| `Dataset.WindowingIsUnique` | fibert.py:53-55 | the windows and labels are determined by the series and the window length |
| `Dataset.NextWindowShifts` | fibert.py:54-55 | window i+1 is window i without its first value, with label i appended |
| `Dataset.WindowsCoverSeries` | fibert.py:62-64 | the first window followed by all the labels gives back the series |
| `Dataset.FifteenPricesExample` | fibert.py:36-66 | fifteen prices split after nine with windows of three give six training and three test windows; the test labels are the last three prices |
| `Dataset.PrepareData` | fibert.py:36-69 | stops exactly when the training part is empty, the test part is empty, or the test part has no windows, naming the first of these; otherwise the scaler is fitted on the training part only, both parts are scaled with that same scaler and then windowed, there is at least one test window, and the actual test prices are the test labels scaled back |
| `Metrics.Directions` | fibert.py:77-80 | a series of length M has M-1 movements (none when M < 2); movement t is 1 exactly when the value rises strictly from t to t+1 and 0 otherwise, so a flat step counts as down |
| `Metrics.CountAgreeBounded` | fibert.py:83 | the number of agreeing movements is at most their number, and equals it exactly when the two direction arrays are equal |
| `Metrics.DirectionAccuracy` | fibert.py:71-85 | NaN exactly when there are fewer than two values; otherwise it lies in [0, 1] and is 1 exactly when both series move alike at every step |
| `Metrics.PerfectPrediction` | fibert.py:83 | predicting the actual series scores exactly 1 |
| `Metrics.OnlyOrderMatters` | fibert.py:77-83 | series that rise at the same steps score the same direction accuracy |
| `Metrics.IncreasingMapKeepsAccuracy` | fibert.py:69-83 | applying strictly increasing maps (such as a scaler and its inverse) to the series leaves the direction accuracy unchanged |
| `Metrics.Evaluate` | fibert.py:123-156 | reports the given MAE and MAPE, price accuracy `1 - MAPE` (at most 1 exactly when MAPE is non-negative, 1 exactly when MAPE is 0), and the direction accuracy of the predictions against the actual prices, with its bounds |
| `Model.Network.constructor` | fibert.py:164 | a created network holds the trained weights and has received no call yet |
| `Model.Network.Predict` | fibert.py:168 | the prediction is the forward pass on the current weights; the weights do not change; the call is logged |
| `Model.Network.Fit` | fibert.py:173-176 | the weights become the update of the old weights on the given example and epochs; the call is logged |
| `WalkForward.CallsUpTo` | fibert.py:166-176 | after windows 0..j-1 of m, the network has received j predictions and one fit per window except the last |
| `WalkForward.RunOnline` | fibert.py:166-176 | slot j holds the scaled-back prediction of window j by the state updated on windows 0..j-1 only; the network ends with m-1 updates; the calls it receives are exactly the walk-forward calls; the slots stored into are 0, 1, ..., m-1, in that order |
| `WalkForward.StepAdvances` | fibert.py:166-176 | one inner-loop step stores the prediction for window j and moves the state and the call log on to those after window j |
| `WalkForward.WalkStep` | fibert.py:167-176 | one inner-loop step stores the scaled-back prediction of window j by the current weights in slot j and leaves every other slot alone; it fits on window j and label j for ten epochs unless j is the last window, and otherwise leaves the weights unchanged |
| `WalkForward.Results.constructor` | fibert.py:160 | a new results array has the given length, every slot 0.0, and no store logged yet |
| `WalkForward.Results.Store` | fibert.py:169 | storing v in slot j changes slot j to v and no other slot, and logs the store |
| `WalkForward.SlotOrder` | fibert.py:166 | the order of the stores of one run: m slots, slot t at position t |
| `WalkForward.SlotsInOrderOnce` | fibert.py:166-169 | storing slots 0, 1, ..., m-1 in order stores each slot below m exactly once and no other slot |
| `WalkForward.CallLayout` | fibert.py:166-176 | call 2i is the prediction of window i; call 2i+1 is the ten-epoch fit on window i and label i, for every window but the last |
| `WalkForward.OneUpdatePerWindowButLast` | fibert.py:171 | a run over m windows makes exactly m-1 fit calls, and none when there are no windows |
| `WalkForward.WeightsSeeOnlyEarlierLabels` | fibert.py:166-176 | the weights used to predict window j depend only on the labels of windows 0..j-1 |
| `WalkForward.NoLabelLeakage` | fibert.py:166-176 | the prediction stored for window j, and every call up to and including it, are the same whatever the labels of windows j and later are |
| `WalkForward.PreparedIsAligned` | fibert.py:60-69 | the prepared test windows, labels and actual prices line up one to one, one per window of the test part |
| `WalkForward.TotalOfEqualRuns` | fibert.py:179-182 | the running totals of n runs with equal scores are n times that score; the direction total is NaN when that score's is |
| `WalkForward.MeanOfEqualRuns` | fibert.py:190 | averaging runs that all score the same gives that score |
| `WalkForward.MeanPriceAccuracy` | fibert.py:178-190 | the averaged price accuracy is one minus the averaged MAPE |
| `WalkForward.MeanDirectionAccuracy` | fibert.py:182-190 | the averaged direction accuracy is NaN exactly when some run's is, and lies in [0, 1] when every run's does |
| `WalkForward.OneRun` | fibert.py:164-178 | one iteration of the run loop leaves in `results` the walk-forward predictions of a network created for that run, scores exactly those predictions, and its logged stores write each slot exactly once and no other slot |
| `WalkForward.AllScoresStep` | fibert.py:179-182 | the totals after k runs are the totals after k-1 runs plus the scores of run k-1 |
| `WalkForward.NextRun` | fibert.py:162-182 | one pass of the run loop brings the totals from k-1 runs to k runs and leaves run k-1's predictions in the slots |
| `WalkForward.RunAll` | fibert.py:162-182 | the run loop completes exactly when there are no runs or there are training windows; then the totals are those of all n runs and the slots hold the last run's predictions |
| `WalkForward.RunModel` | fibert.py:158-190 | fails exactly when the test part is shorter than one window (allocation), there are no runs (division by zero), or there are runs but no training windows (`model_create`), with the error of the first of these the script reaches; otherwise returns each total divided by n and the predictions of the last run |
| `WalkForward.SeededRunsAgree` | fibert.py:87-88 | when the created network does not depend on the run, the averages are the first run's scores and the returned predictions are the first run's |

## Left out

- `stock_data_collection.py`: downloading prices and writing a CSV file is I/O and is not modelled.
- Loading the CSV file, the GPU set-up, the plots and every `print` in `fibert.py` are I/O or display and are not modelled.
- The split index `int(len * split)` is a parameter `k`; the float product and its rounding are not modelled.
- The network's layers, dropout, Adam optimiser, early stopping with best-weight restore and seeding (`model_create`) are not modelled; they enter only as the functions `forward`, `update` and `create`. The training state (parameters, optimiser slots and generator state) is an opaque `seq<real>`.
- sklearn's `MinMaxScaler` is not modelled: the scaler is an opaque pair of functions, and what it does on a constant training series is the library's.
- Metrics.Evaluate: MAE and MAPE are opaque values computed by sklearn; their own properties, such as non-negativity, are not modelled.
- WalkForward.RunModel: when the test part is exactly one window long there are no test windows and sklearn raises on the empty arrays, inside the opaque metric functions; the model does not fail there. The script never gets that far, because `Dataset.PrepareData` already stops on a test part without windows.
- Model.Network.Fit: the training state is opaque, so the model does not say how the optimiser slots or the dropout generator change; it only requires that a fit is a function of the whole state, the example and the epochs.
- `results.tolist()` returns a list of one-element lists; the model returns the flat sequence of predictions.
- Floating-point rounding, overflow and NaN as an input price are not modelled; prices are reals.
