# Derp feed-forward network, modelled in Dafny

This project models the network engine of the Derp library (namespace `Ogee.AI.Derp`).
The engine is a small multi-layer perceptron trained by back-propagation. An `Activity` owns:

- a jagged array of layers, `neurons`, where every non-output layer ends in a bias slot;
- a jagged array of weight rows, `weights[t][j][k]`, the weight from neuron k of layer t to
  neuron j of layer t + 1;
- the training bookkeeping: the last error, the convergence ratio, a custom indicator, a
  correction factor and a training count.

`guess` runs the forward pass in place. `train` runs `guess`, records the error, and applies
one gradient step computed entirely from the weights as they were before the step.
`isConvergent` trains a fixed number of times and tests the convergence band.
`think` works in two phases:

1. It calibrates a starting seed. Candidate seeds come from `new Random(123456)`; duplicates
   are skipped. Each candidate is tried for up to 100 steps, and the result records the error
   at the first in-band check, or a sentinel when no check lands in the band. The best seed
   is the first one with the strictly smallest recorded value.
2. It trains with a time-out that is only looked at every 100 steps.

The older engine (`Derp/Moulpu/Activity.cs`) differs in four ways:

- it draws its weights once, from its own `Random(32145)`;
- it writes the bias into the output layer too;
- it measures convergence as a difference of errors;
- it shifts every weight of a row by the same amount.

Both files carry an `ActivityManager`: a dictionary of activities by name that refuses
duplicate names.

The modules follow the program:

- `Runtime`: the foreign parts the engine relies on. These are the logistic function and the
  seeded `System.Random` streams, both held in a `Host` value. The module also holds
  `Result`, which models a call that may throw.
- `Extensions`: `Multiply`, `Add`, `GetRandomArray` and `GetFilledArray`.
- `Network`: what the engine computes, as values. This covers tensor shapes, the forward pass
  (`Forward`), the deltas (`Deltas`), the two weight steps (`GradientStep`, `RowShiftStep`)
  and the mean absolute error.
- `Kernels`: the nested loops over the jagged arrays, each proved against `Network`.
- `Construction`: allocation of the layers and of the weight rows, drawn or zero.
- `Derp`: the canonical `Activity` class, including `think`.
- `Moulpu`: the older `Activity` class and its embedded `ActivityManager`.
- `Registry`: `Derp/ActivityManager.cs`.

Layers are `array<real>` values and weight rows are `array<real>` values; both are updated in
place, exactly as in the source.

- Ghost state in every class ties those arrays to values. `W` is the tensor the rows hold, and
  `RowIndex` is the position of every row, which witnesses that no two rows or layers share
  an array.
- `Valid()` states the tie, and every method preserves it.
- `guess` returns the output-layer array itself, and `train` works through that alias as the
  source does.

## Model

| member | source | states |
|---|---|---|
| `Runtime.Random.constructor` | Derp/Activity.cs:69 | a new generator stands at the start of its seed's stream of draws |
| `Runtime.Random.NextDouble` | Derp/Derp/Extensions.cs:29 | the draw lies in [0, 1); it is the draw at the current position; the generator advances by exactly one |
| `Runtime.Random.Next` | Derp/Activity.cs:113 | the integer is made from the next draw; the generator advances by exactly one |
| `Runtime.NextInRange` | Derp/Activity.cs:113 | an integer made from one draw in [0, 1) lies in [lo, hi) |
| `Extensions.Multiply` | Derp/Derp/Extensions.cs:14-18 | every element becomes its old value times the factor, in place; the length is unchanged |
| `Extensions.Add` | Derp/Derp/Extensions.cs:20-24 | every element becomes its old value plus the count, in place; nothing is appended |
| `Extensions.ScaleInRange` | Derp/Derp/Extensions.cs:29 | a draw in [0, 1) stretched onto [min, max) lies in [min, max) when min < max |
| `Extensions.DrawRowInRange` | Derp/Derp/Extensions.cs:26-30 | every element of a generated row lies in [min, max); the row has the requested length |
| `Extensions.GetRandomArray` | Derp/Derp/Extensions.cs:26-31 | a fresh array of exactly `length` elements; element i is made from the i-th next draw; the generator advances by exactly `length` (equal generator states give equal arrays) |
| `Extensions.GetFilledArray` | Derp/Activity.cs:80 | a fresh array of the given length holding the given value everywhere |
| `Network.Quot` | Derp/Activity.cs:254 | a zero divisor yields a value outside the convergence band, as NaN and the infinities are |
| `Network.QuotExact` | Derp/Activity.cs:254 | for a non-zero divisor the quotient is exact |
| `Network.ZeroTensorShaped` | Derp/Activity.cs:76-83 | zero initialisation gives one matrix per layer pair, one row per downstream neuron, one column per upstream neuron, every weight 0 |
| `Network.DrawTensorInRange` | Derp/Activity.cs:68-75 | random initialisation gives the same shape, with every weight of matrix t in [-4/n, 4/n), where n is the size of layer t |
| `Network.PartialDotOfZeroWeights` | Derp/Activity.cs:234-237 | the weighted sum over all-zero weights is 0 |
| `Network.Activation` | Derp/Activity.cs:232-243 | the activations of layer l after a forward pass have the size of layer l |
| `Network.Forward` | Derp/Activity.cs:224-245 | a forward pass yields one vector per layer, each of that layer's size |
| `Network.ActivationAgrees` | Derp/Activity.cs:232-243 | activations that follow the layer recurrence agree with the forward pass on layer l |
| `Network.ForwardCharacterised` | Derp/Activity.cs:224-245 | activations built layer by layer, as guess writes them, are exactly the forward pass |
| `Network.ForwardSlots` | Derp/Activity.cs:224-245 | input k lands in slot k of layer 0; the bias lands in layer 0's last slot and in every hidden layer's last slot, and in the output layer's last slot only when the variant writes it there; every other slot is the sigmoid of its row's weighted sum |
| `Network.ZeroWeightsGiveHalf` | Derp/Activity.cs:232-239 | with all weights zero and sigmoid(0) = 1/2, every neuron that is not a bias slot holds 1/2, so every output of guess is 1/2 whatever the input and bias |
| `Network.DSigmoidRange` | Derp/Activity.cs:264-266 | the derivative a(1 - a) lies in (0, 1/4] for an activation in (0, 1), and is 0 on a bias slot holding 0 or 1 |
| `Network.Deltas` | Derp/Activity.cs:198-211 | the deltas of layer l have the size of layer l |
| `Network.DeltasAgree` | Derp/Activity.cs:198-211 | deltas built from the output layer downwards agree with `Deltas` on layer l |
| `Network.DeltasCharacterised` | Derp/Activity.cs:198-211 | the backward sweep's deltas are exactly `Deltas` on every layer from 1 up |
| `Network.StepRow` | Derp/Activity.cs:215-217 | a stepped row keeps its length |
| `Network.StepMatrix` | Derp/Activity.cs:214-218 | a stepped matrix keeps its number of rows and their lengths |
| `Network.GradientStepWeight` | Derp/Activity.cs:213-219 | weight (t, j, k) changes by activation k of layer t times delta j of layer t + 1, where that delta is computed from the pre-step weights |
| `Network.GradientStepShape` | Derp/Activity.cs:213-219 | the step never changes the weight dimensions |
| `Network.Shifted` | Derp/Moulpu/Activity.cs:126-128 | a shifted row keeps its length |
| `Network.ShiftedMatrix` | Derp/Moulpu/Activity.cs:125-129 | a shifted matrix keeps its number of rows and their lengths |
| `Network.RowShiftShape` | Derp/Moulpu/Activity.cs:124-130 | the older step never changes the weight dimensions |
| `Network.RowShiftUniform` | Derp/Moulpu/Activity.cs:124-130 | every weight of row j moves by the same amount (the row's own activation times its delta), whatever the upstream activations |
| `Network.SumAbsZero` | Derp/Activity.cs:249-252 | the running sum of absolute differences is non-negative, and zero exactly when the prefixes agree |
| `Network.MeanAbsErrorZero` | Derp/Activity.cs:249-253 | the error is non-negative, and zero exactly when the result equals the expected values |
| `Kernels.WiredShaped` | Derp/Activity.cs:70-82 | the values of wired weight rows have the layers' shape |
| `Kernels.WeightedSum` | Derp/Activity.cs:234-237 | the accumulated value is the weighted sum of the row and the upstream activations |
| `Kernels.FeedLayer` | Derp/Activity.cs:233-242 | the downstream layer holds the sigmoid of every row's weighted sum, with the bias in its last slot when it has one |
| `Kernels.LoadInput` | Derp/Activity.cs:226-230 | layer 0 holds the input followed by the bias |
| `Kernels.Propagate` | Derp/Activity.cs:224-243 | the layers hold the input and bias, then every layer computed from the one before; the weights are untouched |
| `Kernels.OutputErrorsOf` | Derp/Activity.cs:189-191 | output error i is the correction factor times target i minus result i |
| `Kernels.LayerDeltasOf` | Derp/Activity.cs:200-202 | delta j is error j times the sigmoid derivative at activation j |
| `Kernels.BackErrorsOf` | Derp/Activity.cs:205-209 | upstream error k is the sum over rows of delta j times weight (j, k) |
| `Kernels.SweepLayer` | Derp/Activity.cs:198-210 | one sweep step gives layer i's deltas and layer i - 1's errors |
| `Kernels.BackpropDeltas` | Derp/Activity.cs:198-211 | the output deltas come from the output errors, and each lower layer's deltas come from the errors sent back through the unchanged weights |
| `Kernels.AddScaled` | Derp/Activity.cs:215-217 | each weight of the row gains its upstream activation times the delta |
| `Kernels.AddUniform` | Derp/Moulpu/Activity.cs:126-128 | every weight of the row gains the same activation times delta |
| `Kernels.StepMatrixRows` | Derp/Activity.cs:214-218 | every row of the matrix holds its gradient-stepped values |
| `Kernels.ShiftMatrixRows` | Derp/Moulpu/Activity.cs:125-129 | every row of the matrix holds its shifted values |
| `Kernels.StepWeights` | Derp/Activity.cs:213-219 | every row holds its stepped values; the layers are untouched |
| `Kernels.ShiftWeights` | Derp/Moulpu/Activity.cs:124-130 | every row holds its shifted values; the layers are untouched |
| `Kernels.StepMirrors` | Derp/Activity.cs:213-219 | rows that hold the per-row steps hold the whole gradient step |
| `Kernels.ShiftMirrors` | Derp/Moulpu/Activity.cs:124-130 | rows that hold the per-row shifts hold the whole older step |
| `Kernels.Backpropagate` | Derp/Activity.cs:182-219 | the weights end up holding one gradient step of their old values, with every delta taken from the old weights; the layers and the wiring are unchanged |
| `Kernels.BackpropagateShift` | Derp/Moulpu/Activity.cs:93-130 | the weights end up holding the older row-shift step of their old values; the layers and the wiring are unchanged |
| `Kernels.MeanAbsoluteError` | Derp/Activity.cs:249-253 | the mean of the absolute differences between expected and result |
| `Construction.NewLayers` | Derp/Activity.cs:43-55 | the caller's hidden sizes are each incremented in place; the sizes are [input + 1, h1 + 1, ..., hk + 1, output]; every layer is new, distinct and zero |
| `Construction.DrawMatrix` | Derp/Activity.cs:71-74 | one new row per downstream neuron, each drawn from the generator in order from [-4/n, 4/n) |
| `Construction.ZeroMatrix` | Derp/Activity.cs:78-81 | one new all-zero row per downstream neuron |
| `Construction.DrawNextMatrix` | Derp/Activity.cs:71-74 | the next matrix is appended with its drawn values and indexed; the generator advances by one draw per weight |
| `Construction.FillDrawn` | Derp/Activity.cs:70-75 | every matrix is drawn in order, and the rows hold the drawn tensor |
| `Construction.DrawWeights` | Derp/Activity.cs:67-75 | the new rows are wired to the layers and hold the tensor drawn from the generator's position |
| `Construction.ZeroNextMatrix` | Derp/Activity.cs:78-81 | the next all-zero matrix is appended and indexed |
| `Construction.ZeroWeights` | Derp/Activity.cs:76-83 | the new rows are wired to the layers and hold the zero tensor |
| `Derp.SeedDraws` | Derp/Activity.cs:111-113 | the first n candidate seeds, each in [int.MinValue, int.MaxValue) |
| `Derp.SeedDrawsStep` | Derp/Activity.cs:112-113 | drawing one more candidate appends it |
| `Derp.FirstOccurrences` | Derp/Activity.cs:112-115 | the recorded seeds are distinct, no more than the candidates, and exactly the candidates' values |
| `Derp.FirstOccurrencesOrdered` | Derp/Activity.cs:112-129 | seeds are recorded in the order of their first appearance |
| `Derp.BestSeedUnique` | Derp/Activity.cs:130-137 | the selection rule (first seed with the strictly smallest value, else 0) determines a single seed |
| `Derp.SingleCandidate` | Derp/Activity.cs:130-137 | with one candidate, the selection keeps it exactly when it recorded an error; a candidate holding the sentinel leaves the best seed at 0 |
| `Derp.SelectBestSeed` | Derp/Activity.cs:130-137 | the loop returns the first seed whose recorded value is strictly below all earlier ones and not above any later one, or 0 when every seed has the sentinel |
| `Derp.SampleFirstError` | Samples/Test/Program.cs:9-18 | for the (6, 2, [4]) zero-weight, bias-0 sample, the first forward pass outputs [1/2, 1/2], and the recorded error is (0.4544 + 0.2845) / 2 |
| `Derp.DrawSeed` | Derp/Activity.cs:113 | the next candidate extends the candidates drawn so far; the generator advances by one draw |
| `Derp.Trained` | Derp/Activity.cs:171-222 | one train call as a value on the weights and the bookkeeping: the weight shapes are kept, the recorded error is non-negative, and the count rises by exactly 1 |
| `Derp.TrainedTraceExtend` | Derp/Activity.cs:146-157 | a training loop's states grow by the state train leaves, on the next example, from where they ended |
| `Derp.CalibrationTraceExtend` | Derp/Activity.cs:116-119 | a calibration's states grow by the state train leaves, on the next example, from the drawn weights and the bookkeeping where they ended |
| `Derp.FollowsUnique` | Derp/Activity.cs:146-157 | a loop's states are determined by its starting state and its step: two traces of the same length from the same start are equal |
| `Derp.TrainedTraceCount` | Derp/Activity.cs:146-157 | after step n of a training loop the count has risen by n + 1 and the weight shapes are kept |
| `Derp.CalibrationStepError` | Derp/Activity.cs:116-122 | every calibration step records the error of the seed's own drawn weights on its example, whatever the earlier steps did; only the ratio depends on the step before |
| `Derp.Activity.constructor` | Derp/Activity.cs:37-58 | the layer sizes are [input + 1, hidden + 1, output]; the caller's array is incremented; the layers are zero; all weights are zero; the bookkeeping starts at its initial values |
| `Derp.Activity.InitializeWeights` | Derp/Activity.cs:66-84 | a whole new set of fresh rows holding the tensor drawn from `Random(seed)`, or the zero tensor; the layer sizes are unchanged |
| `Derp.Activity.Guess` | Derp/Activity.cs:224-245 | the layers hold the forward pass of the input; the result is the output layer array itself; nothing else changes |
| `Derp.Activity.ComputeError` | Derp/Activity.cs:248-258 | the error is the mean absolute error and is non-negative; then convergence = error / old previousError, then customIndicator = old / 2 + convergence - 1, then previousError = error |
| `Derp.Activity.Account` | Derp/Activity.cs:176-180 | the error bookkeeping, then the correction factor becomes 0.01 / convergence only when evolutive and after the first training |
| `Derp.Activity.Learn` | Derp/Activity.cs:182-219 | the weights become one gradient step of their old values; the layers are untouched |
| `Derp.Activity.Settle` | Derp/Activity.cs:176-221 | the bookkeeping, the output errors from the current correction factor, one gradient step, and the count raised by exactly 1 |
| `Derp.Activity.Train` | Derp/Activity.cs:171-222 | one forward pass from the old weights, the error and convergence bookkeeping, the correction-factor rule, one gradient step from the old weights, and the count raised by exactly 1; as a whole, the new state is `Trained` of the old one |
| `Derp.Activity.IsConvergent` | Derp/Activity.cs:88-93 | exactly `iterations` steps (none when non-positive), step i being train on the given example from the state the step before left; then exactly whether the final ratio lies in the band |
| `Derp.Activity.CalibrationStep` | Derp/Activity.cs:117-119 | new weights drawn from the seed, then train on example j: the calibration trace grows by exactly the resulting state; the recorded error is non-negative |
| `Derp.Activity.ResetTraining` | Derp/Activity.cs:118-119 | from the weights drawn from the seed, train on example j: the calibration trace grows by exactly the resulting state |
| `Derp.Activity.ProbeSeed` | Derp/Activity.cs:116-127 | from 1 to 100 steps, step j being train on example j from the seed's drawn weights; no earlier tenth-step check was in band; the score is the error at the stopping check exactly when that check is in band, and the sentinel only after all 100 steps; the state is the one the last step left |
| `Derp.Activity.Consider` | Derp/Activity.cs:113-128 | a seed already in the dictionary changes nothing; any other seed is probed and recorded with its score, in order |
| `Derp.Activity.ScoreSeed` | Derp/Activity.cs:116-128 | the new seed is probed from the current state and recorded with the probe's score; every earlier record is kept |
| `Derp.Activity.CalibrationRound` | Derp/Activity.cs:112-129 | one more candidate is drawn, then skipped or probed; the candidates, the recorded seeds and the probes grow accordingly |
| `Derp.Activity.CalibrateSeeds` | Derp/Activity.cs:107-129 | the recorded seeds are the distinct candidates of `Random(123456)` in first-occurrence order; each seed's score is what its probe found; each probe starts where the one before it ended, and the object ends where the last one ended |
| `Derp.Activity.TrainingStep` | Derp/Activity.cs:147-148 | train on example n from where the training trace ended: the trace grows by exactly the resulting state |
| `Derp.Activity.TimedTraining` | Derp/Activity.cs:143-157 | steps 0 to count are train on examples 0 to count, in order, from the starting state; the loop stops only at a multiple of 100 where the ratio is in the band or the time-out has passed, and no earlier hundredth check met either condition |
| `Derp.Activity.Think` | Derp/Activity.cs:99-168 | the calibration as `CalibrateSeeds` states it; the best seed chosen from the probes' scores by the selection rule; the timed training starting where the calibration ended, with the weights drawn from that seed; the result carries the final ratio, the count, the seed and the indicator |
| `Moulpu.Activity.constructor` | Derp/Moulpu/Activity.cs:50-79 | the same topology as the canonical engine; every weight is drawn from the instance's `Random(32145)`, row by row, from [-4/n, 4/n); the bookkeeping starts at its initial values |
| `Moulpu.Activity.Guess` | Derp/Moulpu/Activity.cs:135-155 | the layers hold the forward pass with BIAS = 1 written into every layer's last slot, the output layer's included |
| `Moulpu.Activity.ComputeError` | Derp/Moulpu/Activity.cs:158-167 | convergence = old previousError - error (a difference), then previousError = error; there is no custom indicator |
| `Moulpu.Activity.Account` | Derp/Moulpu/Activity.cs:87-91 | the error bookkeeping and the correction-factor rule |
| `Moulpu.Activity.Learn` | Derp/Moulpu/Activity.cs:109-130 | the weights become the row-shift step of their old values |
| `Moulpu.Activity.Settle` | Derp/Moulpu/Activity.cs:87-132 | the bookkeeping, the output errors, the row-shift step, and the count raised by exactly 1 |
| `Moulpu.Activity.Train` | Derp/Moulpu/Activity.cs:82-133 | one forward pass from the old weights, the difference-form convergence, the correction-factor rule, the row-shift step from the old weights, and the count raised by exactly 1 |
| `Moulpu.ActivityManager.constructor` | Derp/Moulpu/Activity.cs:9 | the registry starts empty |
| `Moulpu.ActivityManager.CreateActivity` | Derp/Moulpu/Activity.cs:12-18 | a duplicate name fails with the source's message and changes nothing; otherwise exactly one new entry maps the name to the fresh activity that is returned |
| `Registry.ActivityManager.constructor` | Derp/ActivityManager.cs:11 | the registry starts empty |
| `Registry.ActivityManager.CreateActivity` | Derp/ActivityManager.cs:14-20 | a duplicate name fails with the source's message and leaves the registry and the caller's array unchanged; otherwise exactly one new entry maps the name to the fresh activity that is returned, and every earlier entry is kept |

Partners:

- The loops of `think` and `isConvergent` return the states after each step as ghost traces.
  Each state is proved to be `Derp.Trained` of the one before it, so the stop decisions, the
  scores and the selected seed refer to the training that actually ran.
- Each loop in `Kernels` and `Construction` is proved against its value definition in
  `Network`.
- Those definitions have their own lemmas: shapes, ranges, the per-weight change,
  uniqueness of the selected seed, and the slots of the forward pass.
- Every class method keeps `Valid()`.

## Behaviour of the code worth noting

- Validation: the code checks no topology and no example shape. The model states those
  conditions as preconditions; see Left out.
- Weight range: the code scales `NextDouble`, which lies in [0, 1), so every weight drawn for
  matrix t lies in the half-open range [-4/n, 4/n), with n the size of layer t
  (`Network.DrawTensorInRange`).
- Sentinel: a seed that never lands in the band records `double.MaxValue`
  (`Derp/Activity.cs:127`). The selection starts from that same value and replaces it only on
  a strictly smaller one (`Derp/Activity.cs:131-133`), so a seed holding the sentinel is
  never selected.
- Single candidate: `Derp.SingleCandidate` proves that the only candidate is selected
  exactly when it recorded an error. Otherwise the chosen seed stays 0, and the timed
  training starts from the weights drawn from seed 0.
- Older engine's update: the code adds the row's own activation times its delta to every
  weight of the row (`Derp/Moulpu/Activity.cs:127`), whatever the upstream activation
  (`Network.RowShiftUniform`).

## Left out

- Floating point: `double` is modelled as `real`. Rounding, NaN and the infinities are not
  modelled. A division by zero (by `previousError` or by `convergence`) yields 0 through
  `Quot`. That value is, like NaN and the infinities, outside the convergence band, so the
  stop decision at the step of that division matches the source. Later decisions need not
  match: in .NET a correction factor of 0.01 / 0 is +infinity, after which every weight
  becomes NaN and no later check is in band, whereas the model's values stay finite.
- `Math.Exp`: the sigmoid is any function with `sigmoid(0) = 1/2` and `0 < sigmoid(x) < 1`,
  supplied by the `Host`. `Math.Pow(x, 1)` is written as `x`. `_sigmoid` and `_dsigmoid`
  are the host's function and `Network.DSigmoid`.
- `System.Random`: the `Host` supplies it as a fixed stream of draws in [0, 1) per seed.
  .NET's own algorithm is not modelled. `Next(lo, hi)` is modelled as lo plus the whole part
  of one draw times the width. .NET samples a range this wide differently, so the model's
  candidate seeds need not equal .NET's.
- `Stopwatch` and `TimeSpan`: the time-out check after step n is an oracle `timedOut(n)`.
  The ghost `deadline` is a check at which the time-out has certainly passed; it stands for
  the clock advancing. The two durations of `ActivityTrainingResult` are not modelled.
- Moulpu.Activity.constructor: the generator's final position (one draw per weight) is not
  stated. The generator is never used again. `inputLength` is a `nat`, as in
  `Derp.Activity.constructor` below.
- Derp.Activity.constructor: `inputLength` is a `nat`. The source also accepts -1, which
  gives a layer 0 of size 0, and its `inputLength++` (`Derp/Activity.cs:43`) wraps at
  `int.MaxValue`; neither case is modelled.
- Extensions.Add: the sum is unbounded. C#'s `array[j] += count` (`Derp/Derp/Extensions.cs:22`)
  wraps at `int.MaxValue`; that wrap-around is not modelled.
- `QI`, `GetRandomFloat` and the static `Rnd`: a display transform and an unused global
  generator.
- `ActivityTrainingResult.ToString`: culture-dependent formatting.
- The demo programs under `Samples/` and `Test/`: console drivers. The HTTP download and JSON
  parsing of `Samples/Prophecy/Program.cs` are not part of this model. Its example provider
  is the abstract `Picker`.
- `Extensions.GetFilledArray`: its code is not part of this model. The model gives it the
  behaviour its call relies on: a fresh array of the given length filled with the value.
- Integer widths: lengths are `nat` and the training count is unbounded. The source's `int`
  overflow after 2^31 trainings is not modelled.
- Input checks: the source validates nothing. The model requires:
  - an input one shorter than layer 0;
  - a target as long as the output layer;
  - an output layer of at least one neuron;
  - non-negative hidden sizes.

  The source would accept a shorter input (the rest of layer 0 is kept), an input exactly as
  long as layer 0 (its last value is overwritten by the bias, `Derp/Activity.cs:226-230`) or
  a longer target (the extra entries are ignored). With an empty output layer, the first `train` divides
  0 by 0.
- Trace states: a `Snapshot` holds the weights and the training bookkeeping. The layer
  activations after each step are stated by `Train` alone.
- Default arguments: `seed = 0` of `initializeWeights` (`Derp/Activity.cs:66`),
  `iterations = 100` of `isConvergent` (`Derp/Activity.cs:88`) and `startPoints = 1000` of
  `think` (`Derp/Activity.cs:99`) are ordinary parameters that every caller supplies.
- Scratch arrays: the local `errors` and `deltas` arrays of `train` never escape, so they are
  `seq` values.
- Registry object: the static dictionary `_Activities` is a field of one `ActivityManager`
  object. The public `Activities` getter is that field.
- Dictionary order: the `foreach` over `seeds` is taken in insertion order (`order`). .NET
  gives no such guarantee, but it holds for a dictionary that is never removed from.
- Sentinel: `double.MaxValue` is the symbolic `Score.Unstable`, which is above every
  recorded error.
- Count in `train`: `_trainings++` is performed before the weight update rather than after
  it. Nothing in between reads it.
- Calls from outside the class: `initializeNeuralNetwork` is modelled as part of the
  constructor. A second call from outside, which would replace the layers, is not modelled.
- Activity used by `Registry`: `Derp/ActivityManager.cs` builds the canonical `Activity`.
  The `ActivityManager` embedded in the older file builds the older one.
