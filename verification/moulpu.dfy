/** The older network engine of Derp/Moulpu/Activity.cs: its own generator seeded with
    32145 draws the weights once, at construction; the forward pass writes the bias into
    the output layer too; the convergence is a difference of errors rather than a ratio;
    and the weight step shifts a whole row by one amount. Its embedded registry is the
    ActivityManager class at the end. */
module Moulpu {
  import opened Runtime
  import opened Extensions
  import opened Network
  import opened Kernels
  import opened Construction

  /** Seed of the generator every instance owns. */
  const RANDOM_SEED: int := 32145
  /** The value written into every bias slot. */
  const BIAS: int := 1

  class Activity {
    const host: Host
    /** new Random(RANDOM_SEED), created with the instance and used by its construction. */
    const random: Random
    const neurons: seq<array<real>>
    var weights: seq<seq<array<real>>>
    /** The values the weight rows hold. */
    ghost var W: Tensor
    /** The position of every weight row: witnesses that no two rows are the same array. */
    ghost var RowIndex: map<array<real>, (nat, nat)>

    var convergence: real
    var previousError: real
    var correctionFactor: real
    var isCorrectionFactorEvolutive: bool
    var trainings: nat

    /** The size of every layer. */
    function Sizes(): (sizes: seq<nat>)
      ensures |sizes| == |neurons|
    {
      SizesOf(neurons)
    }

    /** The host is well-behaved and the layers, weight rows and weight values fit
        together. */
    ghost predicate Valid()
      reads this`weights, this`W, this`RowIndex, Elements(weights)
    {
      && host.Valid()
      && Sound(neurons, weights, RowIndex, W)
    }

    /** new Activity(inputLength, outputLength, hidden): the generator is created first,
        every hidden size in the caller's array is incremented in place, the layers are
        [inputLength + 1, hidden sizes, outputLength] long, and every weight is drawn from
        the generator, row by row, matrix t from [-4/n, 4/n) with n the size of layer t. */
    constructor (host: Host, inputLength: nat, outputLength: nat, hidden: array<int>)
      requires host.Valid() && outputLength >= 1
      requires forall k :: 0 <= k < hidden.Length ==> hidden[k] >= 0
      modifies hidden
      ensures Valid() && this.host == host
      ensures forall k :: 0 <= k < hidden.Length ==> hidden[k] == old(hidden[k]) + 1
      ensures Sizes() == [inputLength + 1] + hidden[..] + [outputLength]
      ensures forall l, k :: 0 <= l < |neurons| && 0 <= k < neurons[l].Length ==> neurons[l][k] == 0.0
      ensures fresh(random) && fresh(LayerSet(neurons)) && fresh(Elements(weights))
      ensures random.draws == host.stream(RANDOM_SEED)
      ensures W == DrawTensor(host.stream(RANDOM_SEED), 0, Sizes())
      ensures convergence == 0.0 && previousError == 1.0 && correctionFactor == 1.0
      ensures !isCorrectionFactorEvolutive && trainings == 0
    {
      var generator := new Random(host, RANDOM_SEED);
      var layers := NewLayers(inputLength, outputLength, hidden);
      var rows, index := DrawWeights(layers, generator);
      this.host := host;
      random := generator;
      neurons := layers;
      weights := rows;
      RowIndex := index;
      W := DrawTensor(host.stream(RANDOM_SEED), 0, SizesOf(layers));
      convergence := 0.0;
      previousError := 1.0;
      correctionFactor := 1.0;
      isCorrectionFactorEvolutive := false;
      trainings := 0;
      new;
    }

    /** guess(inputs): the input and BIAS go into layer 0, every later layer is computed
        from the one before and gets BIAS in its last slot, the output layer included;
        the result is the output layer array itself. */
    method Guess(input: seq<real>) returns (result: array<real>)
      requires Valid() && |input| + 1 == neurons[0].Length
      modifies LayerSet(neurons)
      ensures unchanged(this) && Valid()
      ensures result == neurons[|neurons| - 1]
      ensures Contents(neurons) == Forward(old(W), Sizes(), input, BIAS as real, host.sigmoid, true)
    {
      Propagate(neurons, weights, RowIndex, W, input, BIAS as real, host.sigmoid, true);
      ForwardCharacterised(W, Sizes(), input, BIAS as real, host.sigmoid, true, Contents(neurons));
      result := neurons[|neurons| - 1];
    }

    /** _computeError(result, expected): the mean absolute error; the convergence becomes
        the previous error minus the new one, and the new error becomes the previous
        error. */
    method ComputeError(result: array<real>, expected: seq<real>) returns (error: real)
      requires result.Length == |expected| && result.Length >= 1
      modifies this`convergence, this`previousError
      ensures error == MeanAbsError(result[..], expected) && error >= 0.0
      ensures convergence == old(previousError) - error
      ensures previousError == error
    {
      error := MeanAbsoluteError(result, expected);
      MeanAbsErrorZero(result[..], expected);
      convergence := previousError - error;
      previousError := error;
    }

    /** The weight update of train: every delta from the weights as they are, then every
        row shifted by its neuron's activation times its delta; the layers are read, not
        written. */
    method Learn(ghost acts: seq<seq<real>>, outErrors: seq<real>)
      requires Valid() && Contents(neurons) == acts
      requires |outErrors| == neurons[|neurons| - 1].Length
      modifies this`W, Elements(weights)
      ensures Valid() && Contents(neurons) == acts
      ensures W == RowShiftStep(old(W), Sizes(), acts, outErrors)
    {
      ghost var next := RowShiftStep(W, SizesOf(neurons), Contents(neurons), outErrors);
      BackpropagateShift(neurons, weights, RowIndex, W, outErrors);
      W := next;
    }

    /** Between two states that agree on the weight fields, the weight rows and the
        layers, the invariant and the layer contents carry over. */
    twostate lemma Kept()
      requires old(Valid())
      requires unchanged(this`weights, this`W, this`RowIndex) && unchanged(Elements(weights)) && unchanged(LayerSet(neurons))
      ensures Valid() && Contents(neurons) == old(Contents(neurons))
    {
    }

    /** train(input, output): a forward pass, the error bookkeeping and the correction
        factor update, then the row-shift step on every weight, computed entirely from
        the weights as they were before the step. */
    method Train(input: seq<real>, target: seq<real>) returns (ghost acts: seq<seq<real>>)
      requires Valid()
      requires |input| + 1 == neurons[0].Length && |target| == neurons[|neurons| - 1].Length
      modifies this`convergence, this`previousError, this`correctionFactor
      modifies this`trainings, this`W, LayerSet(neurons), Elements(weights)
      ensures Contents(neurons) == acts
      ensures previousError == MeanAbsError(acts[|acts| - 1], target)
      ensures W == RowShiftStep(old(W), Sizes(), acts, OutputErrors(correctionFactor, target, acts[|acts| - 1]))
      ensures convergence == old(previousError) - previousError
      ensures correctionFactor ==
        if isCorrectionFactorEvolutive && old(trainings) > 0 then Quot(0.01, convergence) else old(correctionFactor)
      ensures trainings == old(trainings) + 1
      ensures Valid()
      ensures acts == Forward(old(W), Sizes(), input, BIAS as real, host.sigmoid, true)
    {
      var result := Guess(input);
      acts := Contents(neurons);
      Settle(result, target, acts);
    }

    /** The part of train after the forward pass: the bookkeeping, the output errors
        from the (possibly updated) correction factor, the training count and the weight
        update. The count is raised before the update rather than after it; nothing in
        between reads it. */
    method Settle(result: array<real>, target: seq<real>, ghost acts: seq<seq<real>>)
      requires Valid() && Contents(neurons) == acts
      requires result == neurons[|neurons| - 1] && |target| == result.Length
      modifies this`convergence, this`previousError, this`correctionFactor
      modifies this`trainings, this`W, Elements(weights)
      ensures Valid() && Contents(neurons) == acts
      ensures previousError == MeanAbsError(acts[|acts| - 1], target)
      ensures W == RowShiftStep(old(W), Sizes(), acts, OutputErrors(correctionFactor, target, acts[|acts| - 1]))
      ensures convergence == old(previousError) - previousError
      ensures correctionFactor ==
        if isCorrectionFactorEvolutive && old(trainings) > 0 then Quot(0.01, convergence) else old(correctionFactor)
      ensures trainings == old(trainings) + 1
    {
      label start:
      Account(result, target);
      var outErrors := OutputErrorsOf(correctionFactor, target, result);
      trainings := trainings + 1;
      Kept@start();
      Learn(acts, outErrors);
    }

    /** The bookkeeping of train: _computeError, then the correction factor becomes
        0.01 / convergence when it is evolutive and this is not the first training. */
    method Account(result: array<real>, target: seq<real>)
      requires result.Length == |target| && result.Length >= 1
      modifies this`convergence, this`previousError, this`correctionFactor
      ensures previousError == MeanAbsError(result[..], target)
      ensures convergence == old(previousError) - previousError
      ensures correctionFactor ==
        if isCorrectionFactorEvolutive && trainings > 0 then Quot(0.01, convergence) else old(correctionFactor)
    {
      var error := ComputeError(result, target);
      if isCorrectionFactorEvolutive && trainings > 0 {
        correctionFactor := Quot(0.01, convergence);
      }
    }
  }

  /** The registry embedded in the older engine's file: the static dictionary of
      activities by name. */
  class ActivityManager {
    var activities: map<string, Activity>

    constructor ()
      ensures activities == map[]
    {
      activities := map[];
    }

    /** CreateActivity(name, inputLength, outputLength, hidden): fails with an exception
        on a name already registered, leaving everything as it was; otherwise builds a new
        activity, registers it under the name and returns that same instance. */
    method CreateActivity(host: Host, name: string, inputLength: nat, outputLength: nat, hidden: array<int>)
      returns (r: Result<Activity>)
      requires host.Valid() && outputLength >= 1
      requires forall k :: 0 <= k < hidden.Length ==> hidden[k] >= 0
      modifies this`activities, hidden
      ensures name in old(activities) ==>
        && r == Failure("Activity \"" + name + "\" already exists.")
        && activities == old(activities)
        && hidden[..] == old(hidden[..])
      ensures name !in old(activities) ==>
        && r.Success? && fresh(r.value) && r.value.Valid() && r.value.host == host
        && (forall k :: 0 <= k < hidden.Length ==> hidden[k] == old(hidden[k]) + 1)
        && r.value.Sizes() == [inputLength + 1] + hidden[..] + [outputLength]
        && r.value.W == DrawTensor(host.stream(RANDOM_SEED), 0, r.value.Sizes())
        && activities == old(activities)[name := r.value]
    {
      if name in activities {
        return Failure("Activity \"" + name + "\" already exists.");
      }
      var activity := new Activity(host, inputLength, outputLength, hidden);
      activities := activities[name := activity];
      r := Success(activity);
    }
  }
}
