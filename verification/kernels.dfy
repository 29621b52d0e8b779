/** The loops that both Activity classes run over their jagged arrays (the forward pass,
    the error and delta sweep, the weight updates and the mean error), each proved against
    the value definitions of module Network. A network's state is a sequence of layer
    arrays `neurons` and a tensor of weight rows `weights`. */
module Kernels {
  import opened Network

  /** The contents of a sequence of arrays, as values. */
  ghost function Contents(arrays: seq<array<real>>): (values: seq<seq<real>>)
    reads arrays
    ensures |values| == |arrays|
    ensures forall i :: 0 <= i < |arrays| ==> values[i] == arrays[i][..]
  {
    seq(|arrays|, i requires 0 <= i < |arrays| reads arrays => arrays[i][..])
  }

  /** Every array of a sequence of sequences of arrays. */
  ghost function Elements(arrays: seq<seq<array<real>>>): set<array<real>>
  {
    set t, j | 0 <= t < |arrays| && 0 <= j < |arrays[t]| :: arrays[t][j]
  }

  /** The rows of `weights` hold the values `w`. */
  ghost predicate Mirrors(weights: seq<seq<array<real>>>, w: Tensor)
    reads Elements(weights)
  {
    && |weights| == |w|
    && (forall t :: 0 <= t < |w| ==> |weights[t]| == |w[t]|)
    && (forall t, j :: 0 <= t < |w| && 0 <= j < |w[t]| ==> weights[t][j][..] == w[t][j])
  }

  /** The layer arrays of a network. */
  ghost function LayerSet(neurons: seq<array<real>>): set<array<real>>
  {
    set l | 0 <= l < |neurons| :: neurons[l]
  }

  /** The size of every layer. */
  function SizesOf(neurons: seq<array<real>>): (sizes: seq<nat>)
    ensures |sizes| == |neurons|
    ensures forall l {:trigger neurons[l]} :: 0 <= l < |neurons| ==> sizes[l] == neurons[l].Length
  {
    seq(|neurons|, l requires 0 <= l < |neurons| => neurons[l].Length)
  }

  /** At least an input and an output layer, none empty, no array used twice. */
  ghost predicate Layered(neurons: seq<array<real>>)
  {
    && |neurons| >= 2
    && (forall l :: 0 <= l < |neurons| ==> neurons[l].Length >= 1)
    && (forall l, m :: 0 <= l < m < |neurons| ==> neurons[l] != neurons[m])
  }

  /** Layers and weight rows fit together: at least an input and an output layer, none
      empty, one matrix per pair of adjacent layers with one row per downstream neuron and
      one column per upstream neuron; and no array is shared, which `rowIndex` (the
      position of every row) witnesses. */
  ghost predicate Wired(neurons: seq<array<real>>, weights: seq<seq<array<real>>>, rowIndex: map<array<real>, (nat, nat)>)
  {
    && Layered(neurons)
    && |weights| == |neurons| - 1
    && (forall t :: 0 <= t < |weights| ==> |weights[t]| == neurons[t + 1].Length)
    && (forall t, j :: 0 <= t < |weights| && 0 <= j < |weights[t]| ==>
          && weights[t][j].Length == neurons[t].Length
          && weights[t][j] in rowIndex && rowIndex[weights[t][j]] == (t, j))
    && (forall l :: 0 <= l < |neurons| ==> neurons[l] !in rowIndex)
  }

  /** The network's arrays are wired and hold the weight values `w`. */
  ghost predicate Sound(neurons: seq<array<real>>, weights: seq<seq<array<real>>>, rowIndex: map<array<real>, (nat, nat)>, w: Tensor)
    reads Elements(weights)
  {
    Wired(neurons, weights, rowIndex) && Mirrors(weights, w) && Shaped(w, SizesOf(neurons))
  }

  /** The values of a wired network's weights have its layers' shape. */
  lemma WiredShaped(neurons: seq<array<real>>, weights: seq<seq<array<real>>>, rowIndex: map<array<real>, (nat, nat)>, w: Tensor)
    requires Wired(neurons, weights, rowIndex) && Mirrors(weights, w)
    ensures Shaped(w, SizesOf(neurons))
  {
    forall t, j | 0 <= t < |w| && 0 <= j < |w[t]|
      ensures |w[t][j]| == neurons[t].Length
    {
      assert weights[t][j][..] == w[t][j];
    }
  }

  /** The weighted sum of one neuron, accumulated in index order. */
  method WeightedSum(row: array<real>, acts: array<real>) returns (value: real)
    requires row.Length == acts.Length
    ensures value == Dot(row[..], acts[..])
  {
    value := 0.0;
    for k := 0 to row.Length
      invariant value == PartialDot(row[..], acts[..], k)
    {
      value := value + row[k] * acts[k];
    }
  }

  /** Fills `next` from `prev` through the rows `m` (holding `rows`), then writes the bias
      into the last slot when the layer has one. */
  method FeedLayer(m: seq<array<real>>, ghost rows: seq<seq<real>>, prev: array<real>, next: array<real>,
                   sigmoid: real -> real, biasSlot: bool, bias: real)
    requires |m| == |rows| == next.Length >= 1 && prev != next
    requires forall j :: 0 <= j < |m| ==> m[j].Length == prev.Length && m[j] != next && m[j][..] == rows[j]
    modifies next
    ensures next[..] == Layer(rows, prev[..], sigmoid, biasSlot, bias)
  {
    for j := 0 to next.Length
      invariant forall i :: 0 <= i < j ==> next[i] == sigmoid(Dot(rows[i], prev[..]))
    {
      var value := WeightedSum(m[j], prev);
      next[j] := sigmoid(value);
    }
    if biasSlot {
      next[next.Length - 1] := bias;
    }
  }

  /** Layer 0 receives the input, then the bias in its last slot. */
  method LoadInput(first: array<real>, input: seq<real>, bias: real)
    requires |input| + 1 == first.Length
    modifies first
    ensures first[..] == input + [bias]
  {
    for i := 0 to |input|
      invariant forall k :: 0 <= k < i ==> first[k] == input[k]
    {
      first[i] := input[i];
    }
    first[first.Length - 1] := bias;
  }

  /** The forward pass: the input and the bias go into layer 0, then every later layer is
      fed from the one before it. Bias slots are written on the hidden layers, and on the
      output layer too when biasOnOutput holds. The weights are not touched. */
  method Propagate(neurons: seq<array<real>>, weights: seq<seq<array<real>>>, ghost rowIndex: map<array<real>, (nat, nat)>,
                   ghost w: Tensor, input: seq<real>, bias: real, sigmoid: real -> real, biasOnOutput: bool)
    requires Wired(neurons, weights, rowIndex) && Mirrors(weights, w)
    requires |input| + 1 == neurons[0].Length
    modifies LayerSet(neurons)
    ensures Mirrors(weights, w)
    ensures neurons[0][..] == input + [bias]
    ensures forall t :: 0 <= t < |w| ==>
      neurons[t + 1][..] == Layer(w[t], neurons[t][..], sigmoid, t < |neurons| - 2 || biasOnOutput, bias)
  {
    LoadInput(neurons[0], input, bias);
    for i := 0 to |weights|
      invariant forall t, j :: 0 <= t < |w| && 0 <= j < |w[t]| ==> weights[t][j][..] == w[t][j]
      invariant neurons[0][..] == input + [bias]
      invariant forall t :: 0 <= t < i ==>
        neurons[t + 1][..] == Layer(w[t], neurons[t][..], sigmoid, t < |neurons| - 2 || biasOnOutput, bias)
    {
      FeedLayer(weights[i], w[i], neurons[i], neurons[i + 1], sigmoid, i < |neurons| - 2 || biasOnOutput, bias);
    }
  }

  /** Output-layer errors: the correction factor times target minus result, slot by slot. */
  method OutputErrorsOf(factor: real, target: seq<real>, result: array<real>) returns (e: seq<real>)
    requires |target| == result.Length
    ensures e == OutputErrors(factor, target, result[..])
  {
    ghost var r := result[..];
    e := [];
    for i := 0 to result.Length
      invariant |e| == i
      invariant forall k :: 0 <= k < i ==> e[k] == factor * (target[k] - r[k])
    {
      e := e + [factor * (target[i] - result[i])];
    }
    assert forall k :: 0 <= k < |e| ==> e[k] == OutputErrors(factor, target, r)[k];
  }

  /** Deltas of one layer: error times the sigmoid derivative at the activation. */
  method LayerDeltasOf(errors: seq<real>, acts: array<real>) returns (d: seq<real>)
    requires |errors| == acts.Length
    ensures d == LayerDeltas(errors, acts[..])
  {
    ghost var a := acts[..];
    d := [];
    for j := 0 to acts.Length
      invariant |d| == j
      invariant forall i :: 0 <= i < j ==> d[i] == errors[i] * DSigmoid(a[i])
    {
      d := d + [errors[j] * DSigmoid(acts[j])];
    }
    assert forall i :: 0 <= i < |d| ==> d[i] == LayerDeltas(errors, a)[i];
  }

  /** The errors sent back to an upstream layer of the given width: row by row, every
      delta is spread over the upstream neurons through that row's weights. */
  method BackErrorsOf(m: seq<array<real>>, ghost rows: seq<seq<real>>, d: seq<real>, width: nat) returns (e: seq<real>)
    requires |m| == |rows| == |d|
    requires forall j :: 0 <= j < |m| ==> m[j].Length == width && m[j][..] == rows[j]
    ensures e == BackErrors(rows, d, width)
  {
    e := seq(width, _ => 0.0);
    for j := 0 to |m|
      invariant |e| == width
      invariant forall k :: 0 <= k < width ==> e[k] == BackSum(rows, d, k, j)
    {
      var row := m[j];
      for k := 0 to width
        invariant |e| == width
        invariant forall i :: 0 <= i < k ==> e[i] == BackSum(rows, d, i, j + 1)
        invariant forall i :: k <= i < width ==> e[i] == BackSum(rows, d, i, j)
      {
        e := e[k := e[k] + d[j] * row[k]];
      }
    }
  }

  /** One step of the backward sweep: the deltas of layer i from its errors, and the
      errors of layer i - 1 from those deltas. */
  method SweepLayer(neurons: seq<array<real>>, weights: seq<seq<array<real>>>, ghost rowIndex: map<array<real>, (nat, nat)>,
                    ghost w: Tensor, i: nat, errors: seq<real>) returns (d: seq<real>, e: seq<real>)
    requires Wired(neurons, weights, rowIndex) && Mirrors(weights, w)
    requires 1 <= i < |neurons| && |errors| == neurons[i].Length
    ensures |d| == neurons[i].Length && |e| == neurons[i - 1].Length
    ensures d == LayerDeltas(errors, neurons[i][..])
    ensures e == BackErrors(w[i - 1], d, neurons[i - 1].Length)
  {
    d := LayerDeltasOf(errors, neurons[i]);
    e := BackErrorsOf(weights[i - 1], w[i - 1], d, neurons[i - 1].Length);
  }

  /** The backward sweep, from the output layer down to layer 1: the deltas of a layer
      come from its errors, and the errors of the layer below from those deltas through
      the weights `w` as they are before any update. Entry 0 of the result stays zero.
      Nothing is written. */
  method BackpropDeltas(neurons: seq<array<real>>, weights: seq<seq<array<real>>>, ghost rowIndex: map<array<real>, (nat, nat)>,
                        ghost w: Tensor, outErrors: seq<real>) returns (deltas: seq<seq<real>>)
    requires Wired(neurons, weights, rowIndex) && Mirrors(weights, w)
    requires |outErrors| == neurons[|neurons| - 1].Length
    ensures |deltas| == |neurons|
    ensures forall l :: 0 <= l < |neurons| ==> |deltas[l]| == neurons[l].Length
    ensures deltas[|neurons| - 1] == LayerDeltas(outErrors, neurons[|neurons| - 1][..])
    ensures forall l :: 1 <= l < |neurons| - 1 ==>
      deltas[l] == LayerDeltas(BackErrors(w[l], deltas[l + 1], neurons[l].Length), neurons[l][..])
  {
    var last := |neurons| - 1;
    deltas := seq(|neurons|, l requires 0 <= l < |neurons| => seq(neurons[l].Length, _ => 0.0));
    var errors := outErrors;
    var i := last;
    while i > 0
      invariant 0 <= i <= last
      invariant |deltas| == |neurons|
      invariant forall l :: 0 <= l < |neurons| ==> |deltas[l]| == neurons[l].Length
      invariant |errors| == neurons[i].Length
      invariant i == last ==> errors == outErrors
      invariant i < last ==> errors == BackErrors(w[i], deltas[i + 1], neurons[i].Length)
      invariant i < last ==> deltas[last] == LayerDeltas(outErrors, neurons[last][..])
      invariant forall l :: i < l < last ==>
        deltas[l] == LayerDeltas(BackErrors(w[l], deltas[l + 1], neurons[l].Length), neurons[l][..])
    {
      var d, e := SweepLayer(neurons, weights, rowIndex, w, i, errors);
      deltas := deltas[i := d];
      errors := e;
      i := i - 1;
    }
  }

  /** row[k] += upstream[k] * delta, for every k. */
  method AddScaled(row: array<real>, upstream: array<real>, delta: real)
    requires row.Length == upstream.Length && row != upstream
    modifies row
    ensures row[..] == StepRow(old(row[..]), upstream[..], delta)
  {
    for k := 0 to row.Length
      invariant forall i :: 0 <= i < k ==> row[i] == old(row[i]) + upstream[i] * delta
      invariant forall i :: k <= i < row.Length ==> row[i] == old(row[i])
    {
      row[k] := row[k] + upstream[k] * delta;
    }
    assert forall i :: 0 <= i < row.Length ==>
      StepRow(old(row[..]), upstream[..], delta)[i] == old(row[i]) + upstream[i] * delta;
  }

  /** row[k] += activation * delta, for every k. */
  method AddUniform(row: array<real>, activation: real, delta: real)
    modifies row
    ensures row[..] == Shifted(old(row[..]), activation, delta)
  {
    for k := 0 to row.Length
      invariant forall i :: 0 <= i < k ==> row[i] == old(row[i]) + activation * delta
      invariant forall i :: k <= i < row.Length ==> row[i] == old(row[i])
    {
      row[k] := row[k] + activation * delta;
    }
    assert forall i :: 0 <= i < row.Length ==>
      Shifted(old(row[..]), activation, delta)[i] == old(row[i]) + activation * delta;
  }

  /** The rows of one matrix. */
  ghost function RowSet(m: seq<array<real>>): set<array<real>>
  {
    set j | 0 <= j < |m| :: m[j]
  }

  /** The canonical update of one matrix: row j gains the upstream activations times
      delta j. */
  method StepMatrixRows(m: seq<array<real>>, ghost rows: seq<seq<real>>, upstream: array<real>, d: seq<real>)
    requires |m| == |rows| == |d|
    requires forall j :: 0 <= j < |m| ==> m[j].Length == upstream.Length && m[j] != upstream && m[j][..] == rows[j]
    requires forall i, j :: 0 <= i < j < |m| ==> m[i] != m[j]
    modifies RowSet(m)
    ensures forall j :: 0 <= j < |m| ==> m[j][..] == StepRow(rows[j], upstream[..], d[j])
  {
    for j := 0 to |m|
      invariant forall i :: 0 <= i < j ==> m[i][..] == StepRow(rows[i], upstream[..], d[i])
      invariant forall i :: j <= i < |m| ==> m[i][..] == rows[i]
    {
      AddScaled(m[j], upstream, d[j]);
    }
  }

  /** The older engine's update of one matrix: every weight of row j gains downstream
      activation j times delta j. */
  method ShiftMatrixRows(m: seq<array<real>>, ghost rows: seq<seq<real>>, downstream: array<real>, d: seq<real>)
    requires |m| == |rows| == |d| == downstream.Length
    requires forall j :: 0 <= j < |m| ==> m[j] != downstream && m[j][..] == rows[j]
    requires forall i, j :: 0 <= i < j < |m| ==> m[i] != m[j]
    modifies RowSet(m)
    ensures forall j :: 0 <= j < |m| ==> m[j][..] == Shifted(rows[j], downstream[j], d[j])
  {
    for j := 0 to |m|
      invariant forall i :: 0 <= i < j ==> m[i][..] == Shifted(rows[i], downstream[i], d[i])
      invariant forall i :: j <= i < |m| ==> m[i][..] == rows[i]
    {
      AddUniform(m[j], downstream[j], d[j]);
    }
  }

  /** The canonical weight update: from the last matrix down to the first, weight (t, j, k)
      gains activation k of layer t times delta j of layer t + 1. Layers are not touched. */
  method StepWeights(neurons: seq<array<real>>, weights: seq<seq<array<real>>>, ghost rowIndex: map<array<real>, (nat, nat)>,
                     ghost w: Tensor, deltas: seq<seq<real>>)
    requires Wired(neurons, weights, rowIndex) && Mirrors(weights, w)
    requires |deltas| == |neurons| && forall l :: 1 <= l < |neurons| ==> |deltas[l]| == neurons[l].Length
    modifies Elements(weights)
    ensures forall l :: 0 <= l < |neurons| ==> neurons[l][..] == old(neurons[l][..])
    ensures forall t, j :: 0 <= t < |w| && 0 <= j < |w[t]| ==>
      weights[t][j][..] == StepRow(w[t][j], neurons[t][..], deltas[t + 1][j])
  {
    var i := |neurons| - 1;
    while i > 0
      invariant 0 <= i < |neurons|
      invariant forall l :: 0 <= l < |neurons| ==> neurons[l][..] == old(neurons[l][..])
      invariant forall t, j :: i <= t < |w| && 0 <= j < |w[t]| ==>
        weights[t][j][..] == StepRow(w[t][j], neurons[t][..], deltas[t + 1][j])
      invariant forall t, j :: 0 <= t < i && 0 <= j < |w[t]| ==> weights[t][j][..] == w[t][j]
    {
      StepMatrixRows(weights[i - 1], w[i - 1], neurons[i - 1], deltas[i]);
      i := i - 1;
    }
  }

  /** The older engine's weight update: every weight of row j of matrix t gains activation
      j of layer t + 1 times delta j of layer t + 1. Layers are not touched. */
  method ShiftWeights(neurons: seq<array<real>>, weights: seq<seq<array<real>>>, ghost rowIndex: map<array<real>, (nat, nat)>,
                      ghost w: Tensor, deltas: seq<seq<real>>)
    requires Wired(neurons, weights, rowIndex) && Mirrors(weights, w)
    requires |deltas| == |neurons| && forall l :: 1 <= l < |neurons| ==> |deltas[l]| == neurons[l].Length
    modifies Elements(weights)
    ensures forall l :: 0 <= l < |neurons| ==> neurons[l][..] == old(neurons[l][..])
    ensures forall t, j :: 0 <= t < |w| && 0 <= j < |w[t]| ==>
      weights[t][j][..] == Shifted(w[t][j], neurons[t + 1][j], deltas[t + 1][j])
  {
    var i := |neurons| - 1;
    while i > 0
      invariant 0 <= i < |neurons|
      invariant forall l :: 0 <= l < |neurons| ==> neurons[l][..] == old(neurons[l][..])
      invariant forall t, j :: i <= t < |w| && 0 <= j < |w[t]| ==>
        weights[t][j][..] == Shifted(w[t][j], neurons[t + 1][j], deltas[t + 1][j])
      invariant forall t, j :: 0 <= t < i && 0 <= j < |w[t]| ==> weights[t][j][..] == w[t][j]
    {
      ShiftMatrixRows(weights[i - 1], w[i - 1], neurons[i], deltas[i]);
      i := i - 1;
    }
  }

  /** Rows holding a gradient step row by row hold the gradient step. */
  lemma StepMirrors(weights: seq<seq<array<real>>>, w: Tensor, sizes: seq<nat>, acts: seq<seq<real>>,
                    outErrors: seq<real>, deltas: seq<seq<real>>)
    requires Shaped(w, sizes) && Populated(acts, sizes) && |outErrors| == sizes[|sizes| - 1]
    requires Populated(deltas, sizes) && forall l :: 1 <= l < |sizes| ==> deltas[l] == Deltas(w, sizes, acts, outErrors, l)
    requires |weights| == |w| && forall t :: 0 <= t < |w| ==> |weights[t]| == |w[t]|
    requires forall t, j :: 0 <= t < |w| && 0 <= j < |w[t]| ==>
      weights[t][j][..] == StepRow(w[t][j], acts[t], deltas[t + 1][j])
    ensures Mirrors(weights, GradientStep(w, sizes, acts, outErrors))
  {
    var w' := GradientStep(w, sizes, acts, outErrors);
    forall t | 0 <= t < |w|
      ensures |weights[t]| == |w'[t]|
      ensures forall j :: 0 <= j < |w'[t]| ==> weights[t][j][..] == w'[t][j]
    {
      GradientStepMatrix(w, sizes, acts, outErrors, t);
    }
  }

  /** Rows holding the older engine's step row by row hold that step. */
  lemma ShiftMirrors(weights: seq<seq<array<real>>>, w: Tensor, sizes: seq<nat>, acts: seq<seq<real>>,
                     outErrors: seq<real>, deltas: seq<seq<real>>)
    requires Shaped(w, sizes) && Populated(acts, sizes) && |outErrors| == sizes[|sizes| - 1]
    requires Populated(deltas, sizes) && forall l :: 1 <= l < |sizes| ==> deltas[l] == Deltas(w, sizes, acts, outErrors, l)
    requires |weights| == |w| && forall t :: 0 <= t < |w| ==> |weights[t]| == |w[t]|
    requires forall t, j :: 0 <= t < |w| && 0 <= j < |w[t]| ==>
      weights[t][j][..] == Shifted(w[t][j], acts[t + 1][j], deltas[t + 1][j])
    ensures Mirrors(weights, RowShiftStep(w, sizes, acts, outErrors))
  {
    var w' := RowShiftStep(w, sizes, acts, outErrors);
    forall t | 0 <= t < |w|
      ensures |weights[t]| == |w'[t]|
      ensures forall j :: 0 <= j < |w'[t]| ==> weights[t][j][..] == w'[t][j]
    {
      RowShiftMatrix(w, sizes, acts, outErrors, t);
    }
  }

  /** Back-propagation of the canonical engine: all deltas first, from the weights as
      they are, then the weight update. The weights end up holding one gradient step of
      their old values; the layers are not touched. */
  method Backpropagate(neurons: seq<array<real>>, weights: seq<seq<array<real>>>, ghost rowIndex: map<array<real>, (nat, nat)>,
                       ghost w: Tensor, outErrors: seq<real>)
    requires Wired(neurons, weights, rowIndex) && Mirrors(weights, w)
    requires |outErrors| == neurons[|neurons| - 1].Length
    modifies Elements(weights)
    ensures Contents(neurons) == old(Contents(neurons))
    ensures Sound(neurons, weights, rowIndex, GradientStep(w, SizesOf(neurons), old(Contents(neurons)), outErrors))
  {
    ghost var sizes := SizesOf(neurons);
    ghost var acts := Contents(neurons);
    WiredShaped(neurons, weights, rowIndex, w);
    var deltas := BackpropDeltas(neurons, weights, rowIndex, w, outErrors);
    DeltasCharacterised(w, sizes, acts, outErrors, deltas);
    StepWeights(neurons, weights, rowIndex, w, deltas);
    StepMirrors(weights, w, sizes, acts, outErrors, deltas);
    GradientStepShape(w, sizes, acts, outErrors);
  }

  /** Back-propagation of the older engine: the same deltas, then every weight of a row
      shifted by the row's own activation times its delta. */
  method BackpropagateShift(neurons: seq<array<real>>, weights: seq<seq<array<real>>>, ghost rowIndex: map<array<real>, (nat, nat)>,
                            ghost w: Tensor, outErrors: seq<real>)
    requires Wired(neurons, weights, rowIndex) && Mirrors(weights, w)
    requires |outErrors| == neurons[|neurons| - 1].Length
    modifies Elements(weights)
    ensures Contents(neurons) == old(Contents(neurons))
    ensures Sound(neurons, weights, rowIndex, RowShiftStep(w, SizesOf(neurons), old(Contents(neurons)), outErrors))
  {
    ghost var sizes := SizesOf(neurons);
    ghost var acts := Contents(neurons);
    WiredShaped(neurons, weights, rowIndex, w);
    var deltas := BackpropDeltas(neurons, weights, rowIndex, w, outErrors);
    DeltasCharacterised(w, sizes, acts, outErrors, deltas);
    ShiftWeights(neurons, weights, rowIndex, w, deltas);
    ShiftMirrors(weights, w, sizes, acts, outErrors, deltas);
    RowShiftShape(w, sizes, acts, outErrors);
  }

  /** The training error of a result against the expected values: the mean of the
      absolute differences. */
  method MeanAbsoluteError(result: array<real>, expected: seq<real>) returns (error: real)
    requires result.Length == |expected| && result.Length >= 1
    ensures error == MeanAbsError(result[..], expected)
  {
    error := 0.0;
    for i := 0 to result.Length
      invariant error == SumAbs(result[..], expected, i)
    {
      error := error + Abs(expected[i] - result[i]);
    }
    error := error / result.Length as real;
  }
}
