/** What a feed-forward network computes, as values: layer sizes, weight tensors, the
    forward pass, the back-propagated deltas, the weight step and the training error.
    Both Activity classes are proved against these definitions. */
module Network {
  import opened Extensions

  /** weights[t][j][k]: from neuron k of layer t to neuron j of layer t + 1. */
  type Tensor = seq<seq<seq<real>>>

  /** Half-width of the band around 1 in which a convergence ratio counts as converged. */
  const E: real := 0.00001

  predicate InBand(convergence: real) {
    convergence < 1.0 + E && convergence > 1.0 - E
  }

  /** A quotient as the engine's double division gives it when the divisor is non-zero.
      For a zero divisor .NET yields NaN or an infinity; the model yields 0, which, like
      both of those, lies outside the convergence band. */
  function Quot(a: real, b: real): (q: real)
    ensures b == 0.0 ==> !InBand(q)
  {
    if b == 0.0 then 0.0 else a / b
  }

  /** For a non-zero divisor the quotient is exact. */
  lemma QuotExact(a: real, b: real)
    requires b != 0.0
    ensures Quot(a, b) * b == a
  {
  }

  /** `w` has one matrix per pair of adjacent layers, one row per downstream neuron and
      one column per upstream neuron (bias slot included). */
  ghost predicate Shaped(w: Tensor, sizes: seq<nat>) {
    && |sizes| >= 2
    && (forall l :: 0 <= l < |sizes| ==> sizes[l] >= 1)
    && |w| == |sizes| - 1
    && (forall t {:trigger w[t]} :: 0 <= t < |w| ==> |w[t]| == sizes[t + 1])
    && (forall t, j {:trigger w[t][j]} :: 0 <= t < |w| && 0 <= j < |w[t]| ==> |w[t][j]| == sizes[t])
  }

  /** One vector per layer, of that layer's size. */
  ghost predicate Populated(acts: seq<seq<real>>, sizes: seq<nat>) {
    |acts| == |sizes| && forall l {:trigger acts[l]} :: 0 <= l < |sizes| ==> |acts[l]| == sizes[l]
  }

  /** The all-zero tensor of a topology. */
  function ZeroTensor(sizes: seq<nat>): (w: Tensor)
    requires |sizes| >= 1
  {
    seq(|sizes| - 1, t requires 0 <= t < |sizes| - 1 =>
      seq(sizes[t + 1], j => seq(sizes[t], k => 0.0)))
  }

  /** Number of draws consumed by the matrices before matrix t. */
  function Offset(sizes: seq<nat>, t: nat): (o: nat)
    requires t < |sizes|
  {
    if t == 0 then 0 else Offset(sizes, t - 1) + sizes[t] * sizes[t - 1]
  }

  /** The tensor drawn from a generator positioned at `start`: row by row, each weight of
      matrix t from [-4/n, 4/n) where n is the size of layer t. */
  function DrawTensor(draws: nat -> real, start: nat, sizes: seq<nat>): (w: Tensor)
    requires |sizes| >= 1 && forall l :: 0 <= l < |sizes| ==> sizes[l] >= 1
  {
    seq(|sizes| - 1, t requires 0 <= t < |sizes| - 1 =>
      seq(sizes[t + 1], j requires 0 <= j < sizes[t + 1] =>
        DrawRow(draws, start + Offset(sizes, t) + j * sizes[t], sizes[t],
                -4.0 / sizes[t] as real, 4.0 / sizes[t] as real)))
  }

  lemma ZeroTensorShaped(sizes: seq<nat>)
    requires |sizes| >= 2 && forall l :: 0 <= l < |sizes| ==> sizes[l] >= 1
    ensures Shaped(ZeroTensor(sizes), sizes)
    ensures forall t, j, k :: 0 <= t < |sizes| - 1 && 0 <= j < sizes[t + 1] && 0 <= k < sizes[t] ==>
      ZeroTensor(sizes)[t][j][k] == 0.0
  {
  }

  /** Random initialisation: the tensor has the topology's shape and every weight of
      matrix t lies in [-4/n, 4/n), n the size of layer t. */
  lemma DrawTensorInRange(draws: nat -> real, start: nat, sizes: seq<nat>)
    requires |sizes| >= 2 && forall l :: 0 <= l < |sizes| ==> sizes[l] >= 1
    requires forall n :: 0.0 <= draws(n) < 1.0
    ensures Shaped(DrawTensor(draws, start, sizes), sizes)
    ensures forall t, j, k :: 0 <= t < |sizes| - 1 && 0 <= j < sizes[t + 1] && 0 <= k < sizes[t] ==>
      -4.0 / sizes[t] as real <= DrawTensor(draws, start, sizes)[t][j][k] < 4.0 / sizes[t] as real
  {
    var w := DrawTensor(draws, start, sizes);
    forall t, j | 0 <= t < |sizes| - 1 && 0 <= j < sizes[t + 1]
      ensures |w[t][j]| == sizes[t]
      ensures forall k :: 0 <= k < sizes[t] ==> -4.0 / sizes[t] as real <= w[t][j][k] < 4.0 / sizes[t] as real
    {
      var n := sizes[t] as real;
      assert -4.0 / n < 4.0 / n;
      DrawRowInRange(draws, start + Offset(sizes, t) + j * sizes[t], sizes[t], -4.0 / n, 4.0 / n);
    }
  }

  /** Weighted sum of the first n upstream activations, accumulated from index 0 upwards. */
  function PartialDot(w: seq<real>, a: seq<real>, n: nat): (s: real)
    requires n <= |w| == |a|
  {
    if n == 0 then 0.0 else PartialDot(w, a, n - 1) + w[n - 1] * a[n - 1]
  }

  /** Weighted sum of all the upstream activations. */
  function Dot(w: seq<real>, a: seq<real>): (s: real)
    requires |w| == |a|
  {
    PartialDot(w, a, |w|)
  }

  lemma {:induction false} PartialDotOfZeroWeights(w: seq<real>, a: seq<real>, n: nat)
    requires n <= |w| == |a|
    requires forall k :: 0 <= k < |w| ==> w[k] == 0.0
    ensures PartialDot(w, a, n) == 0.0
  {
    if n > 0 {
      PartialDotOfZeroWeights(w, a, n - 1);
    }
  }

  /** The layer computed from the previous one: every neuron gets the sigmoid of its
      weighted sum, except that a bias slot (the last neuron) is then overwritten with
      the bias value. */
  function Layer(m: seq<seq<real>>, prev: seq<real>, sigmoid: real -> real, biasSlot: bool, bias: real): (r: seq<real>)
    requires forall j :: 0 <= j < |m| ==> |m[j]| == |prev|
  {
    seq(|m|, j requires 0 <= j < |m| =>
      if biasSlot && j == |m| - 1 then bias else sigmoid(Dot(m[j], prev)))
  }

  /** Activations of layer l after a forward pass. Layer 0 is the input followed by the
      bias; every later non-output layer ends in a bias slot; the output layer ends in one
      only when biasOnOutput holds. */
  function Activation(w: Tensor, sizes: seq<nat>, input: seq<real>, bias: real,
                      sigmoid: real -> real, biasOnOutput: bool, l: nat): (r: seq<real>)
    requires Shaped(w, sizes) && |input| + 1 == sizes[0] && l < |sizes|
    ensures |r| == sizes[l]
  {
    if l == 0 then input + [bias]
    else
      Layer(w[l - 1], Activation(w, sizes, input, bias, sigmoid, biasOnOutput, l - 1),
            sigmoid, l < |sizes| - 1 || biasOnOutput, bias)
  }

  /** All activations after a forward pass. */
  function Forward(w: Tensor, sizes: seq<nat>, input: seq<real>, bias: real,
                   sigmoid: real -> real, biasOnOutput: bool): (acts: seq<seq<real>>)
    requires Shaped(w, sizes) && |input| + 1 == sizes[0]
    ensures Populated(acts, sizes)
  {
    seq(|sizes|, l requires 0 <= l < |sizes| => Activation(w, sizes, input, bias, sigmoid, biasOnOutput, l))
  }

  /** The forward pass layer by layer: layer 0 is the input and the bias, and layer l + 1
      is computed from layer l through matrix l. */
  lemma ForwardStep(w: Tensor, sizes: seq<nat>, input: seq<real>, bias: real,
                    sigmoid: real -> real, biasOnOutput: bool, l: nat)
    requires Shaped(w, sizes) && |input| + 1 == sizes[0] && l < |w|
    ensures Forward(w, sizes, input, bias, sigmoid, biasOnOutput)[0] == input + [bias]
    ensures var acts := Forward(w, sizes, input, bias, sigmoid, biasOnOutput);
      acts[l + 1] == Layer(w[l], acts[l], sigmoid, l < |sizes| - 2 || biasOnOutput, bias)
  {
  }

  /** Activations built layer by layer, as the forward pass writes them, agree with
      Forward on every layer. */
  lemma ForwardCharacterised(w: Tensor, sizes: seq<nat>, input: seq<real>, bias: real,
                             sigmoid: real -> real, biasOnOutput: bool, acts: seq<seq<real>>)
    requires Shaped(w, sizes) && |input| + 1 == sizes[0] && Populated(acts, sizes)
    requires acts[0] == input + [bias]
    requires forall t :: 0 <= t < |w| ==>
      acts[t + 1] == Layer(w[t], acts[t], sigmoid, t < |sizes| - 2 || biasOnOutput, bias)
    ensures acts == Forward(w, sizes, input, bias, sigmoid, biasOnOutput)
  {
    forall l | 0 <= l < |sizes|
      ensures acts[l] == Activation(w, sizes, input, bias, sigmoid, biasOnOutput, l)
    {
      ActivationAgrees(w, sizes, input, bias, sigmoid, biasOnOutput, acts, l);
    }
  }

  lemma {:induction false} ActivationAgrees(w: Tensor, sizes: seq<nat>, input: seq<real>, bias: real,
                                            sigmoid: real -> real, biasOnOutput: bool, acts: seq<seq<real>>, l: nat)
    requires Shaped(w, sizes) && |input| + 1 == sizes[0] && Populated(acts, sizes)
    requires acts[0] == input + [bias]
    requires forall t :: 0 <= t < |w| ==>
      acts[t + 1] == Layer(w[t], acts[t], sigmoid, t < |sizes| - 2 || biasOnOutput, bias)
    requires l < |sizes|
    ensures acts[l] == Activation(w, sizes, input, bias, sigmoid, biasOnOutput, l)
  {
    if l > 0 {
      ActivationAgrees(w, sizes, input, bias, sigmoid, biasOnOutput, acts, l - 1);
      assert acts[l] == Layer(w[l - 1], acts[l - 1], sigmoid, l - 1 < |sizes| - 2 || biasOnOutput, bias);
    }
  }

  /** What a forward pass writes, slot by slot. */
  lemma ForwardSlots(w: Tensor, sizes: seq<nat>, input: seq<real>, bias: real,
                     sigmoid: real -> real, biasOnOutput: bool)
    requires Shaped(w, sizes) && |input| + 1 == sizes[0]
    ensures var acts := Forward(w, sizes, input, bias, sigmoid, biasOnOutput);
      && (forall k :: 0 <= k < |input| ==> acts[0][k] == input[k])
      && acts[0][sizes[0] - 1] == bias
      && (forall l :: 1 <= l < |sizes| - 1 ==> acts[l][sizes[l] - 1] == bias)
      && (biasOnOutput ==> acts[|sizes| - 1][sizes[|sizes| - 1] - 1] == bias)
      && (forall t, j ::
            (0 <= t < |w| && 0 <= j < sizes[t + 1] && !(j == sizes[t + 1] - 1 && (t + 1 < |w| || biasOnOutput))) ==>
            acts[t + 1][j] == sigmoid(Dot(w[t][j], acts[t])))
  {
    var acts := Forward(w, sizes, input, bias, sigmoid, biasOnOutput);
    assert acts[0] == input + [bias];
    forall l | 1 <= l < |sizes|
      ensures acts[l] == Layer(w[l - 1], acts[l - 1], sigmoid, l < |sizes| - 1 || biasOnOutput, bias)
    {
    }
  }

  /** With every weight zero, every neuron that is not a bias slot holds sigmoid(0) = 1/2,
      whatever the input and the bias. */
  lemma ZeroWeightsGiveHalf(w: Tensor, sizes: seq<nat>, input: seq<real>, bias: real,
                            sigmoid: real -> real, biasOnOutput: bool)
    requires Shaped(w, sizes) && |input| + 1 == sizes[0]
    requires sigmoid(0.0) == 0.5
    requires forall t, j, k :: 0 <= t < |w| && 0 <= j < |w[t]| && 0 <= k < |w[t][j]| ==> w[t][j][k] == 0.0
    ensures forall l, j ::
      (1 <= l < |sizes| && 0 <= j < sizes[l] && !(j == sizes[l] - 1 && (l < |sizes| - 1 || biasOnOutput))) ==>
      Forward(w, sizes, input, bias, sigmoid, biasOnOutput)[l][j] == 0.5
    ensures var output := Forward(w, sizes, input, bias, sigmoid, biasOnOutput)[|sizes| - 1];
      !biasOnOutput ==> forall j :: 0 <= j < |output| ==> output[j] == 0.5
  {
    var acts := Forward(w, sizes, input, bias, sigmoid, biasOnOutput);
    forall l, j | 1 <= l < |sizes| && 0 <= j < sizes[l] &&
      !(j == sizes[l] - 1 && (l < |sizes| - 1 || biasOnOutput))
      ensures acts[l][j] == 0.5
    {
      ForwardStep(w, sizes, input, bias, sigmoid, biasOnOutput, l - 1);
      PartialDotOfZeroWeights(w[l - 1][j], acts[l - 1], |w[l - 1][j]|);
      assert acts[l][j] == sigmoid(Dot(w[l - 1][j], acts[l - 1]));
    }
  }

  /** Sigmoid derivative written in terms of the sigmoid's output a. */
  function DSigmoid(a: real): (r: real) {
    a * (1.0 - a)
  }

  /** For an activation in (0, 1) the derivative lies in (0, 1/4]; for a bias slot
      holding 0 or 1 it is 0, so such a slot passes no error on. */
  lemma DSigmoidRange(a: real)
    ensures 0.0 < a < 1.0 ==> 0.0 < DSigmoid(a) <= 0.25
    ensures a == 0.0 || a == 1.0 ==> DSigmoid(a) == 0.0
  {
    if 0.0 < a < 1.0 {
      var b := 1.0 - a;
      assert 0.0 < a * b by { ProductSign(a, b); }
      assert DSigmoid(a) == 0.25 - (a - 0.5) * (a - 0.5);
    }
  }

  /** Output-layer error: the correction factor times target minus result. */
  function OutputErrors(factor: real, target: seq<real>, result: seq<real>): (e: seq<real>)
    requires |target| == |result|
  {
    seq(|result|, i requires 0 <= i < |result| => factor * (target[i] - result[i]))
  }

  function LayerDeltas(errors: seq<real>, acts: seq<real>): (d: seq<real>)
    requires |errors| == |acts|
  {
    seq(|acts|, j requires 0 <= j < |acts| => errors[j] * DSigmoid(acts[j]))
  }

  /** The error sent back to upstream neuron k by the first n downstream deltas. */
  function BackSum(m: seq<seq<real>>, d: seq<real>, k: nat, n: nat): (s: real)
    requires n <= |m| && n <= |d| && forall j :: 0 <= j < n ==> k < |m[j]|
  {
    if n == 0 then 0.0 else BackSum(m, d, k, n - 1) + d[n - 1] * m[n - 1][k]
  }

  /** The errors of an upstream layer of the given width. */
  function BackErrors(m: seq<seq<real>>, d: seq<real>, width: nat): (e: seq<real>)
    requires |m| == |d| && forall j :: 0 <= j < |m| ==> |m[j]| == width
  {
    seq(width, k requires 0 <= k < width => BackSum(m, d, k, |d|))
  }

  /** Deltas of layer l (1 <= l), computed back from the output layer through the
      weights `w`. */
  function Deltas(w: Tensor, sizes: seq<nat>, acts: seq<seq<real>>, outErrors: seq<real>, l: nat): (d: seq<real>)
    requires Shaped(w, sizes) && Populated(acts, sizes)
    requires |outErrors| == sizes[|sizes| - 1] && 1 <= l < |sizes|
    ensures |d| == sizes[l]
    decreases |sizes| - l
  {
    if l == |sizes| - 1 then LayerDeltas(outErrors, acts[l])
    else LayerDeltas(BackErrors(w[l], Deltas(w, sizes, acts, outErrors, l + 1), sizes[l]), acts[l])
  }

  /** Deltas built from the output layer downwards, as the backward sweep computes them,
      agree with Deltas on every layer from 1 up. */
  lemma DeltasCharacterised(w: Tensor, sizes: seq<nat>, acts: seq<seq<real>>, outErrors: seq<real>, deltas: seq<seq<real>>)
    requires Shaped(w, sizes) && Populated(acts, sizes) && |outErrors| == sizes[|sizes| - 1]
    requires Populated(deltas, sizes)
    requires deltas[|sizes| - 1] == LayerDeltas(outErrors, acts[|sizes| - 1])
    requires forall l :: 1 <= l < |sizes| - 1 ==>
      deltas[l] == LayerDeltas(BackErrors(w[l], deltas[l + 1], sizes[l]), acts[l])
    ensures forall l :: 1 <= l < |sizes| ==> deltas[l] == Deltas(w, sizes, acts, outErrors, l)
  {
    forall l | 1 <= l < |sizes|
      ensures deltas[l] == Deltas(w, sizes, acts, outErrors, l)
    {
      DeltasAgree(w, sizes, acts, outErrors, deltas, l);
    }
  }

  lemma {:induction false} DeltasAgree(w: Tensor, sizes: seq<nat>, acts: seq<seq<real>>, outErrors: seq<real>,
                                       deltas: seq<seq<real>>, l: nat)
    requires Shaped(w, sizes) && Populated(acts, sizes) && |outErrors| == sizes[|sizes| - 1]
    requires Populated(deltas, sizes)
    requires deltas[|sizes| - 1] == LayerDeltas(outErrors, acts[|sizes| - 1])
    requires forall l :: 1 <= l < |sizes| - 1 ==>
      deltas[l] == LayerDeltas(BackErrors(w[l], deltas[l + 1], sizes[l]), acts[l])
    requires 1 <= l < |sizes|
    ensures deltas[l] == Deltas(w, sizes, acts, outErrors, l)
    decreases |sizes| - l
  {
    if l < |sizes| - 1 {
      DeltasAgree(w, sizes, acts, outErrors, deltas, l + 1);
    }
  }

  /** One row of a gradient step: weight k of the row gains upstream activation k times
      the row's delta. */
  function StepRow(row: seq<real>, upstream: seq<real>, delta: real): (r: seq<real>)
    requires |upstream| == |row|
    ensures |r| == |row|
  {
    seq(|row|, k requires 0 <= k < |row| => row[k] + upstream[k] * delta)
  }

  /** One matrix of a gradient step: row j is stepped with delta j. */
  function StepMatrix(m: seq<seq<real>>, upstream: seq<real>, d: seq<real>): (r: seq<seq<real>>)
    requires |d| == |m| && forall j :: 0 <= j < |m| ==> |m[j]| == |upstream|
    ensures |r| == |m| && forall j :: 0 <= j < |m| ==> |r[j]| == |upstream|
  {
    seq(|m|, j requires 0 <= j < |m| => StepRow(m[j], upstream, d[j]))
  }

  /** One gradient step: matrix t is stepped with the activations of layer t and the
      deltas of layer t + 1, every delta taken from the weights before the step. */
  function GradientStep(w: Tensor, sizes: seq<nat>, acts: seq<seq<real>>, outErrors: seq<real>): (w': Tensor)
    requires Shaped(w, sizes) && Populated(acts, sizes) && |outErrors| == sizes[|sizes| - 1]
  {
    seq(|w|, t requires 0 <= t < |w| => StepMatrix(w[t], acts[t], Deltas(w, sizes, acts, outErrors, t + 1)))
  }

  /** The change a matrix step makes to every weight is the product of the upstream
      activation and the delta of the weight's row. */
  lemma StepMatrixChange(m: seq<seq<real>>, upstream: seq<real>, d: seq<real>, j: nat, k: nat)
    requires |d| == |m| && forall j :: 0 <= j < |m| ==> |m[j]| == |upstream|
    requires j < |m| && k < |upstream|
    ensures StepMatrix(m, upstream, d)[j][k] - m[j][k] == upstream[k] * d[j]
  {
  }

  /** The change the step makes to weight (t, j, k) is the product of upstream activation
      k of layer t and delta j of layer t + 1, computed from the pre-step weights. */
  lemma GradientStepWeight(w: Tensor, sizes: seq<nat>, acts: seq<seq<real>>, outErrors: seq<real>, t: nat, j: nat, k: nat)
    requires Shaped(w, sizes) && Populated(acts, sizes) && |outErrors| == sizes[|sizes| - 1]
    requires t < |w| && j < sizes[t + 1] && k < sizes[t]
    ensures GradientStep(w, sizes, acts, outErrors)[t][j][k] - w[t][j][k] ==
      acts[t][k] * Deltas(w, sizes, acts, outErrors, t + 1)[j]
  {
    GradientStepMatrix(w, sizes, acts, outErrors, t);
    StepMatrixChange(w[t], acts[t], Deltas(w, sizes, acts, outErrors, t + 1), j, k);
  }

  /** Matrix t of the step is matrix t of the weights stepped with layer t's activations
      and layer t + 1's deltas. */
  lemma GradientStepMatrix(w: Tensor, sizes: seq<nat>, acts: seq<seq<real>>, outErrors: seq<real>, t: nat)
    requires Shaped(w, sizes) && Populated(acts, sizes) && |outErrors| == sizes[|sizes| - 1]
    requires t < |w|
    ensures GradientStep(w, sizes, acts, outErrors)[t] ==
      StepMatrix(w[t], acts[t], Deltas(w, sizes, acts, outErrors, t + 1))
  {
  }

  /** The step keeps the tensor's shape. */
  lemma GradientStepShape(w: Tensor, sizes: seq<nat>, acts: seq<seq<real>>, outErrors: seq<real>)
    requires Shaped(w, sizes) && Populated(acts, sizes) && |outErrors| == sizes[|sizes| - 1]
    ensures Shaped(GradientStep(w, sizes, acts, outErrors), sizes)
  {
    var w' := GradientStep(w, sizes, acts, outErrors);
    forall t | 0 <= t < |w|
      ensures |w'[t]| == sizes[t + 1]
      ensures forall j :: 0 <= j < sizes[t + 1] ==> |w'[t][j]| == sizes[t]
    {
      GradientStepMatrix(w, sizes, acts, outErrors, t);
    }
  }

  /** A row with the same amount, activation times delta, added to every weight. */
  function Shifted(row: seq<real>, activation: real, delta: real): (r: seq<real>)
    ensures |r| == |row|
  {
    seq(|row|, k requires 0 <= k < |row| => row[k] + activation * delta)
  }

  /** One matrix of the older engine's step: row j is shifted by downstream activation j
      times delta j. */
  function ShiftedMatrix(m: seq<seq<real>>, downstream: seq<real>, d: seq<real>): (r: seq<seq<real>>)
    requires |d| == |m| && |downstream| == |m|
    ensures |r| == |m| && forall j :: 0 <= j < |m| ==> |r[j]| == |m[j]|
  {
    seq(|m|, j requires 0 <= j < |m| => Shifted(m[j], downstream[j], d[j]))
  }

  /** The older engine's weight step: every weight of row j of matrix t gains the
      activation of neuron j of layer t + 1 times its delta. */
  function RowShiftStep(w: Tensor, sizes: seq<nat>, acts: seq<seq<real>>, outErrors: seq<real>): (w': Tensor)
    requires Shaped(w, sizes) && Populated(acts, sizes) && |outErrors| == sizes[|sizes| - 1]
  {
    seq(|w|, t requires 0 <= t < |w| => ShiftedMatrix(w[t], acts[t + 1], Deltas(w, sizes, acts, outErrors, t + 1)))
  }

  lemma RowShiftMatrix(w: Tensor, sizes: seq<nat>, acts: seq<seq<real>>, outErrors: seq<real>, t: nat)
    requires Shaped(w, sizes) && Populated(acts, sizes) && |outErrors| == sizes[|sizes| - 1]
    requires t < |w|
    ensures RowShiftStep(w, sizes, acts, outErrors)[t] ==
      ShiftedMatrix(w[t], acts[t + 1], Deltas(w, sizes, acts, outErrors, t + 1))
  {
  }

  /** The older step keeps the tensor's shape. */
  lemma RowShiftShape(w: Tensor, sizes: seq<nat>, acts: seq<seq<real>>, outErrors: seq<real>)
    requires Shaped(w, sizes) && Populated(acts, sizes) && |outErrors| == sizes[|sizes| - 1]
    ensures Shaped(RowShiftStep(w, sizes, acts, outErrors), sizes)
  {
    var w' := RowShiftStep(w, sizes, acts, outErrors);
    forall t | 0 <= t < |w|
      ensures |w'[t]| == sizes[t + 1]
      ensures forall j :: 0 <= j < sizes[t + 1] ==> |w'[t][j]| == sizes[t]
    {
      RowShiftMatrix(w, sizes, acts, outErrors, t);
    }
  }

  /** Every weight of a row moves by the same amount, the downstream activation times the
      row's delta, whatever the upstream activations. */
  lemma RowShiftUniform(w: Tensor, sizes: seq<nat>, acts: seq<seq<real>>, outErrors: seq<real>, t: nat, j: nat, k: nat)
    requires Shaped(w, sizes) && Populated(acts, sizes) && |outErrors| == sizes[|sizes| - 1]
    requires t < |w| && j < sizes[t + 1] && k < sizes[t]
    ensures RowShiftStep(w, sizes, acts, outErrors)[t][j][k] - w[t][j][k] ==
      acts[t + 1][j] * Deltas(w, sizes, acts, outErrors, t + 1)[j]
  {
    var d := Deltas(w, sizes, acts, outErrors, t + 1);
    RowShiftMatrix(w, sizes, acts, outErrors, t);
    assert ShiftedMatrix(w[t], acts[t + 1], d)[j] == Shifted(w[t][j], acts[t + 1][j], d[j]);
  }

  function Abs(x: real): (r: real) {
    if x < 0.0 then -x else x
  }

  /** Sum of |expected_i - result_i| over the first n positions. */
  function SumAbs(result: seq<real>, expected: seq<real>, n: nat): (s: real)
    requires n <= |result| && n <= |expected|
  {
    if n == 0 then 0.0 else SumAbs(result, expected, n - 1) + Abs(expected[n - 1] - result[n - 1])
  }

  /** Mean absolute error (cost exponent 1). */
  function MeanAbsError(result: seq<real>, expected: seq<real>): (e: real)
    requires |result| == |expected| && |result| > 0
  {
    SumAbs(result, expected, |result|) / |result| as real
  }

  lemma {:induction false} SumAbsZero(result: seq<real>, expected: seq<real>, n: nat)
    requires n <= |result| && n <= |expected|
    ensures SumAbs(result, expected, n) >= 0.0
    ensures SumAbs(result, expected, n) == 0.0 <==> result[..n] == expected[..n]
  {
    if n > 0 {
      SumAbsZero(result, expected, n - 1);
      assert result[..n] == result[..n - 1] + [result[n - 1]];
      assert expected[..n] == expected[..n - 1] + [expected[n - 1]];
    }
  }

  /** The training error is never negative, and it is zero exactly when the output
      matches the target. */
  lemma MeanAbsErrorZero(result: seq<real>, expected: seq<real>)
    requires |result| == |expected| && |result| > 0
    ensures MeanAbsError(result, expected) >= 0.0
    ensures MeanAbsError(result, expected) == 0.0 <==> result == expected
  {
    SumAbsZero(result, expected, |result|);
    assert result[..|result|] == result && expected[..|expected|] == expected;
  }
}
