/** The canonical network engine, class Activity of Derp/Activity.cs: construction of the
    layers and weights, the forward pass (guess), the training error bookkeeping, one
    training step (train), isConvergent and the seed calibration and timed training of
    think. */
module Derp {
  import opened Runtime
  import opened Extensions
  import opened Network
  import opened Kernels
  import opened Construction

  /** Seed of the generator that proposes the candidate seeds of the calibration. */
  const SEED: int := 123456
  /** Training steps tried per candidate seed. */
  const TRAININGS_PER_CALIBRATION: nat := 100
  const INT_MIN: int := -0x8000_0000
  const INT_MAX: int := 0x7fff_ffff

  /** The examples supplied to training: step n trains on the pair picker(n). */
  type Picker = int -> (seq<real>, seq<real>)

  /** The value the calibration records for a seed: the error at the first in-band check,
      or the double.MaxValue sentinel of a seed that never converged. */
  datatype Score = Recorded(error: real) | Unstable

  /** The `<` of doubles on recorded values; the sentinel is above every recorded error
      and below nothing. */
  predicate Below(a: Score, b: Score) {
    match (a, b)
    case (Recorded(x), Recorded(y)) => x < y
    case (Recorded(_), Unstable) => true
    case (Unstable, _) => false
  }

  /** The record think returns (its two durations are not modelled). */
  datatype TrainingResult = TrainingResult(convergence: real, trainings: nat, bestSeed: int, customIndicator: real)

  /** The candidate seeds the calibration generator proposes, first n of them. */
  function SeedDraws(draws: nat -> real, n: nat): (seeds: seq<int>)
    requires forall k :: 0.0 <= draws(k) < 1.0
    ensures |seeds| == n
    ensures forall k :: 0 <= k < n ==> INT_MIN <= seeds[k] < INT_MAX
  {
    var seeds := seq(n, k requires 0 <= k < n => NextInRange(draws(k), INT_MIN, INT_MAX));
    assert forall k :: 0 <= k < n ==> seeds[k] == NextInRange(draws(k), INT_MIN, INT_MAX);
    seeds
  }

  /** Drawing one more seed appends it to the seeds drawn so far. */
  lemma SeedDrawsStep(draws: nat -> real, n: nat)
    requires forall k :: 0.0 <= draws(k) < 1.0
    ensures SeedDraws(draws, n + 1) == SeedDraws(draws, n) + [NextInRange(draws(n), INT_MIN, INT_MAX)]
  {
    assert SeedDraws(draws, n + 1)[..n] == SeedDraws(draws, n);
  }

  /** random.Next(int.MinValue, int.MaxValue): the next seed of the sequence `drawn`
      continues. */
  method DrawSeed(generator: Random, ghost drawn: seq<int>) returns (seed: int)
    requires generator.Valid() && drawn == SeedDraws(generator.draws, generator.pos)
    modifies generator`pos
    ensures generator.pos == old(generator.pos) + 1
    ensures drawn + [seed] == SeedDraws(generator.draws, generator.pos)
  {
    seed := generator.Next(INT_MIN, INT_MAX);
    SeedDrawsStep(generator.draws, old(generator.pos));
  }

  ghost predicate Distinct(s: seq<int>) {
    forall a, b :: 0 <= a < b < |s| ==> s[a] != s[b]
  }

  /** The elements of `s` in the order of their first occurrence, each once. */
  function FirstOccurrences(s: seq<int>): (r: seq<int>)
    ensures |r| <= |s| && Distinct(r)
    ensures forall x :: x in r <==> x in s
  {
    if s == [] then []
    else
      var r := FirstOccurrences(s[..|s| - 1]);
      assert forall x :: x in s <==> x in s[..|s| - 1] || x == s[|s| - 1] by {
        assert s == s[..|s| - 1] + [s[|s| - 1]];
      }
      if s[|s| - 1] in r then r else r + [s[|s| - 1]]
  }

  /** One more element is appended exactly when it has not occurred before. */
  lemma FirstOccurrencesStep(s: seq<int>, x: int)
    ensures FirstOccurrences(s + [x]) == if x in FirstOccurrences(s) then FirstOccurrences(s) else FirstOccurrences(s) + [x]
  {
    assert (s + [x])[..|s|] == s;
  }

  /** First occurrences keep their order: a value that occurs before the first occurrence
      of another comes before it in FirstOccurrences(s). */
  lemma {:induction false} FirstOccurrencesOrdered(s: seq<int>, i: nat, j: nat)
    requires i < j < |s| && s[j] !in s[..j]
    ensures exists a, b :: 0 <= a < b < |FirstOccurrences(s)| && FirstOccurrences(s)[a] == s[i] && FirstOccurrences(s)[b] == s[j]
  {
    var prefix := s[..|s| - 1];
    var r := FirstOccurrences(prefix);
    if j < |s| - 1 {
      assert prefix[i] == s[i] && prefix[j] == s[j] && prefix[..j] == s[..j];
      FirstOccurrencesOrdered(prefix, i, j);
      var a, b :| 0 <= a < b < |r| && r[a] == s[i] && r[b] == s[j];
      assert FirstOccurrences(s)[..|r|] == r;
      assert FirstOccurrences(s)[a] == s[i] && FirstOccurrences(s)[b] == s[j];
    } else {
      assert prefix[i] == s[i] && prefix == s[..j];
      assert s[i] in prefix;
      var a :| 0 <= a < |r| && r[a] == s[i];
      assert FirstOccurrences(s) == r + [s[j]];
      assert FirstOccurrences(s)[|r|] == s[j];
    }
  }

  /** `best` is what the selection loop keeps: the first seed, in `order`, holding the
      strictly smallest recorded value; 0 when no seed has a recorded value. */
  ghost predicate IsBestSeed(seeds: map<int, Score>, order: seq<int>, best: int)
    requires forall k :: 0 <= k < |order| ==> order[k] in seeds
  {
    if forall k :: 0 <= k < |order| ==> seeds[order[k]] == Unstable then best == 0
    else
      exists k :: 0 <= k < |order| && order[k] == best && seeds[best].Recorded?
        && (forall i :: 0 <= i < k ==> Below(seeds[best], seeds[order[i]]))
        && (forall i :: k < i < |order| ==> !Below(seeds[order[i]], seeds[best]))
  }

  /** The selection determines the seed: two seeds that both satisfy it are equal. */
  lemma BestSeedUnique(seeds: map<int, Score>, order: seq<int>, a: int, b: int)
    requires forall k :: 0 <= k < |order| ==> order[k] in seeds
    requires IsBestSeed(seeds, order, a) && IsBestSeed(seeds, order, b)
    ensures a == b
  {
    if !forall k :: 0 <= k < |order| ==> seeds[order[k]] == Unstable {
      var ka :| 0 <= ka < |order| && order[ka] == a && seeds[a].Recorded?
        && (forall i :: 0 <= i < ka ==> Below(seeds[a], seeds[order[i]]))
        && (forall i :: ka < i < |order| ==> !Below(seeds[order[i]], seeds[a]));
      var kb :| 0 <= kb < |order| && order[kb] == b && seeds[b].Recorded?
        && (forall i :: 0 <= i < kb ==> Below(seeds[b], seeds[order[i]]))
        && (forall i :: kb < i < |order| ==> !Below(seeds[order[i]], seeds[b]));
      if ka < kb {
        assert false;
      } else if kb < ka {
        assert false;
      }
    }
  }

  /** With a single candidate, the selection keeps it only when it has a recorded value;
      a candidate holding the sentinel is not below the starting minimum, so the seed
      stays 0. */
  lemma SingleCandidate(s: int, score: Score, b: int)
    ensures IsBestSeed(map[s := score], [s], b) <==> b == (if score.Recorded? then s else 0)
  {
    var seeds, order := map[s := score], [s];
    if score.Recorded? {
      assert seeds[order[0]] == score;
      if b == s {
        assert 0 <= 0 < |order| && order[0] == b && seeds[b].Recorded?;
      }
    }
  }

  /** The foreach over the recorded seeds: keeps the first pair whose value is strictly
      below the smallest so far, starting from the sentinel and seed 0. */
  method SelectBestSeed(seeds: map<int, Score>, order: seq<int>) returns (bestSeed: int)
    requires forall k :: 0 <= k < |order| ==> order[k] in seeds
    ensures IsBestSeed(seeds, order, bestSeed)
  {
    bestSeed := 0;
    var min := Unstable;
    ghost var at := -1;
    for i := 0 to |order|
      invariant -1 <= at < i
      invariant at == -1 ==> min == Unstable && bestSeed == 0 && forall k :: 0 <= k < i ==> seeds[order[k]] == Unstable
      invariant at >= 0 ==> order[at] == bestSeed && seeds[bestSeed] == min && min.Recorded?
      invariant at >= 0 ==> forall k :: 0 <= k < at ==> Below(min, seeds[order[k]])
      invariant at >= 0 ==> forall k :: at < k < i ==> !Below(seeds[order[k]], min)
    {
      var value := seeds[order[i]];
      if Below(value, min) {
        min := value;
        bestSeed := order[i];
        at := i;
      }
    }
  }

  /** The sample driver's network: 6 inputs, one hidden layer of 4, 2 outputs, every
      weight zero and the bias set to 0. Its first training step on the target
      [0.9544, 0.7845] sees both outputs at 1/2, so the error it records is the mean of
      0.4544 and 0.2845. */
  lemma SampleFirstError(sigmoid: real -> real, input: seq<real>)
    requires sigmoid(0.0) == 0.5 && |input| == 6
    ensures var sizes := [7, 5, 2];
      Forward(ZeroTensor(sizes), sizes, input, 0.0, sigmoid, false)[2] == [0.5, 0.5]
    ensures MeanAbsError(Forward(ZeroTensor([7, 5, 2]), [7, 5, 2], input, 0.0, sigmoid, false)[2], [0.9544, 0.7845])
      == (0.4544 + 0.2845) / 2.0
  {
    var sizes: seq<nat> := [7, 5, 2];
    var w := ZeroTensor(sizes);
    assert Shaped(w, sizes);
    ZeroWeightsGiveHalf(w, sizes, input, 0.0, sigmoid, false);
    var output := Forward(w, sizes, input, 0.0, sigmoid, false)[2];
    assert output == [0.5, 0.5];
    var target := [0.9544, 0.7845];
    assert SumAbs(output, target, 1) == 0.4544;
    assert SumAbs(output, target, 2) == 0.4544 + 0.2845;
  }

  /** The values train reads and writes: the weights, the ratios of the bookkeeping, the
      correction factor and the count. */
  datatype Snapshot = Snapshot(w: Tensor, convergence: real, previousError: real,
                               customIndicator: real, correctionFactor: real, trainings: nat)

  /** What no training step changes: the layer sizes, the bias, the activation function
      and whether the correction factor evolves. */
  datatype Setup = Setup(sizes: seq<nat>, bias: real, sigmoid: real -> real, evolutive: bool)

  /** Every example the picker hands out fits the input and output layers. */
  ghost predicate Feeds(picker: Picker, sizes: seq<nat>) {
    && |sizes| >= 1
    && forall n :: |picker(n).0| + 1 == sizes[0] && |picker(n).1| == sizes[|sizes| - 1]
  }

  /** The picker that hands out the same example at every step. */
  function Repeat(input: seq<real>, target: seq<real>): Picker {
    _ => (input, target)
  }

  /** The state after train(input, target) from `s`: a forward pass from the weights as
      they are, the error and its ratio to the previous error, the correction factor
      (evolving from the second training on), then one gradient step scaled by it. The
      weights keep their shape and the error is never negative. */
  ghost function Trained(s: Snapshot, setup: Setup, input: seq<real>, target: seq<real>): (t: Snapshot)
    requires Shaped(s.w, setup.sizes)
    requires |input| + 1 == setup.sizes[0] && |target| == setup.sizes[|setup.sizes| - 1]
    ensures Shaped(t.w, setup.sizes) && t.previousError >= 0.0
    ensures t.trainings == s.trainings + 1
  {
    var acts := Forward(s.w, setup.sizes, input, setup.bias, setup.sigmoid, false);
    var error := MeanAbsError(acts[|acts| - 1], target);
    var convergence := Quot(error, s.previousError);
    var factor := if setup.evolutive && s.trainings > 0 then Quot(0.01, convergence) else s.correctionFactor;
    var outErrors := OutputErrors(factor, target, acts[|acts| - 1]);
    GradientStepShape(s.w, setup.sizes, acts, outErrors);
    MeanAbsErrorZero(acts[|acts| - 1], target);
    Snapshot(GradientStep(s.w, setup.sizes, acts, outErrors), convergence, error,
             s.customIndicator / 2.0 + convergence - 1.0, factor, s.trainings + 1)
  }

  /** A state that holds what train computes from `s` is the state Trained gives. */
  lemma TrainedFrom(s: Snapshot, setup: Setup, input: seq<real>, target: seq<real>, acts: seq<seq<real>>, t: Snapshot)
    requires Shaped(s.w, setup.sizes)
    requires |input| + 1 == setup.sizes[0] && |target| == setup.sizes[|setup.sizes| - 1]
    requires acts == Forward(s.w, setup.sizes, input, setup.bias, setup.sigmoid, false)
    requires t.previousError == MeanAbsError(acts[|acts| - 1], target)
    requires t.convergence == Quot(t.previousError, s.previousError)
    requires t.customIndicator == s.customIndicator / 2.0 + t.convergence - 1.0
    requires t.correctionFactor ==
      if setup.evolutive && s.trainings > 0 then Quot(0.01, t.convergence) else s.correctionFactor
    requires t.w == GradientStep(s.w, setup.sizes, acts, OutputErrors(t.correctionFactor, target, acts[|acts| - 1]))
    requires t.trainings == s.trainings + 1
    ensures t == Trained(s, setup, input, target)
  {
  }

  /** The state before step m of a trace of states that started from `start`. */
  function Before(start: Snapshot, states: seq<Snapshot>, m: nat): Snapshot
    requires m <= |states|
  {
    if m == 0 then start else states[m - 1]
  }

  /** The state a trace ends in: its last state, or `start` when it took no step. */
  function After(start: Snapshot, states: seq<Snapshot>): Snapshot {
    Before(start, states, |states|)
  }

  /** One step of a loop: the state after step m, from the state before it. */
  type Step = (Snapshot, nat) -> Snapshot

  /** `states` are the states after the steps of a loop from `start` whose every step
      is `step`. */
  ghost predicate Follows(step: Step, start: Snapshot, states: seq<Snapshot>) {
    forall m :: 0 <= m < |states| ==> StepAt(step, start, states, m)
  }

  /** Step m of the loop: the state after it is what `step` leaves from the state before. */
  ghost predicate StepAt(step: Step, start: Snapshot, states: seq<Snapshot>, m: nat)
    requires m < |states|
  {
    states[m] == step(Before(start, states, m), m)
  }

  /** A step of a training loop: train on example m. Outside the shapes train accepts,
      no step is taken. */
  ghost function Training(setup: Setup, picker: Picker): Step {
    (s: Snapshot, m: nat) =>
      if Shaped(s.w, setup.sizes) && Feeds(picker, setup.sizes)
      then Trained(s, setup, picker(m).0, picker(m).1)
      else s
  }

  /** A step of the calibration of one seed: the weights are reset to `drawn`, then
      train on example m. */
  ghost function Calibration(setup: Setup, drawn: Tensor, picker: Picker): Step {
    (s: Snapshot, m: nat) =>
      if Shaped(drawn, setup.sizes) && Feeds(picker, setup.sizes)
      then Trained(s.(w := drawn), setup, picker(m).0, picker(m).1)
      else s
  }

  /** `states` are the states after the steps of a training loop from `start` whose step
      m trains on example m. */
  ghost predicate TrainedTrace(start: Snapshot, states: seq<Snapshot>, setup: Setup, picker: Picker) {
    Follows(Training(setup, picker), start, states)
  }

  /** `states` are the states after the steps of the calibration of one seed from
      `start`, every step starting again from the `drawn` weights. */
  ghost predicate CalibrationTrace(start: Snapshot, states: seq<Snapshot>, setup: Setup, drawn: Tensor, picker: Picker) {
    Follows(Calibration(setup, drawn, picker), start, states)
  }

  /** A loop's states grow by the state its step leaves from where they ended. */
  lemma FollowsExtend(step: Step, start: Snapshot, states: seq<Snapshot>, next: Snapshot)
    requires Follows(step, start, states) && next == step(After(start, states), |states|)
    ensures Follows(step, start, states + [next])
  {
    var states' := states + [next];
    forall m | 0 <= m < |states'|
      ensures StepAt(step, start, states', m)
    {
      if m < |states| {
        assert StepAt(step, start, states, m);
        assert states'[m] == states[m] && Before(start, states', m) == Before(start, states, m);
      }
    }
  }

  /** A training trace grows by the state train leaves from where it ended. */
  lemma TrainedTraceExtend(start: Snapshot, states: seq<Snapshot>, setup: Setup, picker: Picker, next: Snapshot)
    requires TrainedTrace(start, states, setup, picker)
    requires Shaped(After(start, states).w, setup.sizes) && Feeds(picker, setup.sizes)
    requires next == Trained(After(start, states), setup, picker(|states|).0, picker(|states|).1)
    ensures TrainedTrace(start, states + [next], setup, picker)
  {
    FollowsExtend(Training(setup, picker), start, states, next);
  }

  /** A calibration trace grows by the state train leaves from where it ended, with the
      weights reset to the drawn ones. */
  lemma CalibrationTraceExtend(start: Snapshot, states: seq<Snapshot>, setup: Setup, drawn: Tensor, picker: Picker, next: Snapshot)
    requires CalibrationTrace(start, states, setup, drawn, picker)
    requires Shaped(drawn, setup.sizes) && Feeds(picker, setup.sizes)
    requires next == Trained(After(start, states).(w := drawn), setup, picker(|states|).0, picker(|states|).1)
    ensures CalibrationTrace(start, states + [next], setup, drawn, picker)
  {
    FollowsExtend(Calibration(setup, drawn, picker), start, states, next);
  }

  /** Every recorded error is non-negative. */
  ghost predicate ErrorsNonNegative(seeds: map<int, Score>) {
    forall s :: s in seeds && seeds[s].Recorded? ==> seeds[s].error >= 0.0
  }

  /** Recording one more non-negative score keeps every recorded error non-negative. */
  lemma ErrorsNonNegativeExtend(seeds: map<int, Score>, seed: int, score: Score)
    requires ErrorsNonNegative(seeds) && (score.Recorded? ==> score.error >= 0.0)
    ensures ErrorsNonNegative(seeds[seed := score])
  {
  }

  /** The probes of the calibration follow each other: the first starts from `start`
      and each later one from the state the one before it ended in. */
  ghost predicate Chained(start: Snapshot, starts: seq<Snapshot>, traces: seq<seq<Snapshot>>) {
    && |starts| == |traces|
    && forall k :: 0 <= k < |starts| ==> ChainedAt(start, starts, traces, k)
  }

  /** Probe k started where the probes before it ended. */
  ghost predicate ChainedAt(start: Snapshot, starts: seq<Snapshot>, traces: seq<seq<Snapshot>>, k: nat)
    requires k < |starts| == |traces|
  {
    starts[k] == Ended(start, starts[..k], traces[..k])
  }

  /** The state the probes of the calibration ended in: `start` when there were none. */
  function Ended(start: Snapshot, starts: seq<Snapshot>, traces: seq<seq<Snapshot>>): Snapshot
    requires |starts| == |traces|
  {
    if starts == [] then start else After(starts[|starts| - 1], traces[|traces| - 1])
  }

  /** One more probe, from where the others ended, keeps the chain. */
  lemma ChainedExtend(start: Snapshot, starts: seq<Snapshot>, traces: seq<seq<Snapshot>>, states: seq<Snapshot>)
    requires Chained(start, starts, traces)
    ensures Chained(start, starts + [Ended(start, starts, traces)], traces + [states])
    ensures Ended(start, starts + [Ended(start, starts, traces)], traces + [states]) == After(Ended(start, starts, traces), states)
  {
    var starts', traces' := starts + [Ended(start, starts, traces)], traces + [states];
    forall k | 0 <= k < |starts'|
      ensures ChainedAt(start, starts', traces', k)
    {
      if k < |starts| {
        assert ChainedAt(start, starts, traces, k);
        assert starts'[..k] == starts[..k] && traces'[..k] == traces[..k];
      } else {
        assert starts'[..k] == starts && traces'[..k] == traces;
      }
    }
  }

  /** A loop is determined by the state it starts from and its step: two runs of the
      same length from the same start go through the same states. */
  lemma {:induction false} FollowsUnique(step: Step, start: Snapshot, a: seq<Snapshot>, b: seq<Snapshot>)
    requires Follows(step, start, a) && Follows(step, start, b) && |a| == |b|
    ensures a == b
  {
    if |a| > 0 {
      var n := |a| - 1;
      FollowsPrefix(step, start, a, n);
      FollowsPrefix(step, start, b, n);
      FollowsUnique(step, start, a[..n], b[..n]);
      assert Before(start, a, n) == Before(start, b, n) by {
        if n > 0 {
          assert a[n - 1] == a[..n][n - 1] && b[n - 1] == b[..n][n - 1];
        }
      }
      assert StepAt(step, start, a, n) && StepAt(step, start, b, n);
      assert a == a[..n] + [a[n]] && b == b[..n] + [b[n]];
    }
  }

  /** The first n states of a loop are those of a loop of n steps. */
  lemma FollowsPrefix(step: Step, start: Snapshot, states: seq<Snapshot>, n: nat)
    requires Follows(step, start, states) && n <= |states|
    ensures Follows(step, start, states[..n])
  {
    forall m | 0 <= m < n
      ensures StepAt(step, start, states[..n], m)
    {
      assert StepAt(step, start, states, m);
      assert Before(start, states[..n], m) == Before(start, states, m);
    }
  }

  /** Every step of a training trace from weights of the right shapes counts one
      training and keeps the shapes. */
  lemma {:induction false} TrainedTraceCount(start: Snapshot, states: seq<Snapshot>, setup: Setup, picker: Picker, n: nat)
    requires TrainedTrace(start, states, setup, picker) && n < |states|
    requires Shaped(start.w, setup.sizes) && Feeds(picker, setup.sizes)
    ensures states[n].trainings == start.trainings + n + 1
    ensures Shaped(states[n].w, setup.sizes)
  {
    if n > 0 {
      TrainedTraceCount(start, states, setup, picker, n - 1);
    }
    assert StepAt(Training(setup, picker), start, states, n);
  }

  /** Every calibration step starts again from the drawn weights, so the error it records
      is that of the drawn weights on its own example, whatever the steps before it did;
      only the ratio carries the error of the step before. */
  lemma CalibrationStepError(start: Snapshot, states: seq<Snapshot>, setup: Setup, drawn: Tensor, picker: Picker, m: nat)
    requires Shaped(drawn, setup.sizes) && Feeds(picker, setup.sizes)
    requires CalibrationTrace(start, states, setup, drawn, picker) && m < |states|
    ensures states[m].previousError ==
      MeanAbsError(Forward(drawn, setup.sizes, picker(m).0, setup.bias, setup.sigmoid, false)[|setup.sizes| - 1], picker(m).1)
    ensures states[m].convergence == Quot(states[m].previousError, Before(start, states, m).previousError)
  {
    assert StepAt(Calibration(setup, drawn, picker), start, states, m);
  }

  class Activity {
    const host: Host
    const neurons: seq<array<real>>
    var weights: seq<seq<array<real>>>
    /** The values the weight rows hold. */
    ghost var W: Tensor
    /** The position of every weight row: witnesses that no two rows are the same array. */
    ghost var RowIndex: map<array<real>, (nat, nat)>

    var convergence: real
    var previousError: real
    var correctionFactor: real
    var isCorrectionFactorEvolutive: bool
    var bias: int
    var customIndicator: real
    var trainings: nat

    /** The size of every layer. */
    function Sizes(): (sizes: seq<nat>)
      ensures |sizes| == |neurons|
    {
      SizesOf(neurons)
    }

    /** The host is well-behaved and the layers, weight rows and weight values fit
        together. */
    ghost predicate Valid()
      reads this`weights, this`W, this`RowIndex, Elements(weights)
    {
      && host.Valid()
      && Sound(neurons, weights, RowIndex, W)
    }

    /** The values training changes, as one value. */
    ghost function Snap(): Snapshot
      reads this`W, this`convergence, this`previousError, this`customIndicator, this`correctionFactor, this`trainings
    {
      Snapshot(W, convergence, previousError, customIndicator, correctionFactor, trainings)
    }

    /** The values no training step changes. */
    ghost function Config(): Setup
      reads this`bias, this`isCorrectionFactorEvolutive
    {
      Setup(Sizes(), bias as real, host.sigmoid, isCorrectionFactorEvolutive)
    }

    /** The weights initializeWeights(true, seed) draws for these layers. */
    ghost function Drawn(seed: int): (w: Tensor)
      requires host.Valid() && Layered(neurons)
      ensures Shaped(w, Sizes())
    {
      DrawTensorInRange(host.stream(seed), 0, Sizes());
      DrawTensor(host.stream(seed), 0, Sizes())
    }

    /** What the calibration of `seed` did from `start`: `states` are the states after
        the steps taken; the checks at every tenth step before the last found the ratio
        outside the band; the score is the error of the last step when that step was a
        check inside the band, and otherwise the sentinel after all the steps. */
    ghost predicate ProbedFrom(picker: Picker, setup: Setup, seed: int, start: Snapshot, score: Score, states: seq<Snapshot>)
    {
      && host.Valid() && Layered(neurons)
      && 1 <= |states| <= TRAININGS_PER_CALIBRATION
      && CalibrationTrace(start, states, setup, Drawn(seed), picker)
      && (forall m :: 0 <= m < |states| - 1 && m % 10 == 0 ==> !InBand(states[m].convergence))
      && (score.Recorded? <==> (|states| - 1) % 10 == 0 && InBand(states[|states| - 1].convergence))
      && (score.Recorded? ==> score.error == states[|states| - 1].previousError)
      && (score == Unstable ==> |states| == TRAININGS_PER_CALIBRATION)
    }

    /** Every seed of `order` was probed: `starts[k]` and `traces[k]` are where the probe
        of order[k] started and the states it went through, and it scored seeds[order[k]]. */
    ghost predicate AllProbed(picker: Picker, setup: Setup, seeds: map<int, Score>, order: seq<int>, starts: seq<Snapshot>, traces: seq<seq<Snapshot>>)
    {
      && |starts| == |order| && |traces| == |order|
      && (forall k :: 0 <= k < |order| ==> order[k] in seeds)
      && forall k :: 0 <= k < |order| ==> ProbedAt(picker, setup, seeds, order, starts, traces, k)
    }

    /** The k-th seed scored was probed from starts[k] through traces[k]. */
    ghost predicate ProbedAt(picker: Picker, setup: Setup, seeds: map<int, Score>, order: seq<int>, starts: seq<Snapshot>, traces: seq<seq<Snapshot>>, k: nat)
      requires k < |order| == |starts| == |traces| && order[k] in seeds
    {
      ProbedFrom(picker, setup, order[k], starts[k], seeds[order[k]], traces[k])
    }

    /** Probing a new seed adds it to the record. */
    lemma AllProbedExtend(picker: Picker, setup: Setup, seeds: map<int, Score>, order: seq<int>, starts: seq<Snapshot>, traces: seq<seq<Snapshot>>,
                          seed: int, score: Score, start: Snapshot, states: seq<Snapshot>)
      requires AllProbed(picker, setup, seeds, order, starts, traces) && seed !in order
      requires ProbedFrom(picker, setup, seed, start, score, states)
      ensures AllProbed(picker, setup, seeds[seed := score], order + [seed], starts + [start], traces + [states])
    {
      var seeds', order', starts', traces' := seeds[seed := score], order + [seed], starts + [start], traces + [states];
      forall k | 0 <= k < |order'|
        ensures order'[k] in seeds' && ProbedAt(picker, setup, seeds', order', starts', traces', k)
      {
        if k < |order| {
          assert order[k] in order && ProbedAt(picker, setup, seeds, order, starts, traces, k);
          assert seeds'[order'[k]] == seeds[order[k]];
        }
      }
    }

    /** new Activity(inputLength, outputLength, hidden): every hidden size in the caller's
        array is incremented in place, the layers are [inputLength + 1, hidden sizes,
        outputLength] long, and every weight starts at zero. */
    constructor (host: Host, inputLength: nat, outputLength: nat, hidden: array<int>)
      requires host.Valid() && outputLength >= 1
      requires forall k :: 0 <= k < hidden.Length ==> hidden[k] >= 0
      modifies hidden
      ensures Valid() && this.host == host
      ensures forall k :: 0 <= k < hidden.Length ==> hidden[k] == old(hidden[k]) + 1
      ensures Sizes() == [inputLength + 1] + hidden[..] + [outputLength]
      ensures forall l, k :: 0 <= l < |neurons| && 0 <= k < neurons[l].Length ==> neurons[l][k] == 0.0
      ensures fresh(LayerSet(neurons)) && fresh(Elements(weights))
      ensures W == ZeroTensor(Sizes())
      ensures convergence == 0.0 && previousError == 1.0 && customIndicator == 0.0
      ensures correctionFactor == 1.0 && !isCorrectionFactorEvolutive && bias == 1 && trainings == 0
    {
      var layers := NewLayers(inputLength, outputLength, hidden);
      this.host := host;
      neurons := layers;
      var rows, index := ZeroWeights(layers);
      weights := rows;
      RowIndex := index;
      W := ZeroTensor(SizesOf(layers));
      convergence := 0.0;
      previousError := 1.0;
      correctionFactor := 1.0;
      isCorrectionFactorEvolutive := false;
      bias := 1;
      customIndicator := 0.0;
      trainings := 0;
      new;
    }

    /** initializeWeights(randomWeights, seed): a whole new set of weight rows, drawn from
        new Random(seed) or all zero; the layers keep their sizes. */
    method InitializeWeights(randomWeights: bool, seed: int)
      requires host.Valid() && Layered(neurons)
      modifies this`weights, this`W, this`RowIndex
      ensures Valid() && fresh(Elements(weights))
      ensures randomWeights ==> W == DrawTensor(host.stream(seed), 0, Sizes())
      ensures !randomWeights ==> W == ZeroTensor(Sizes())
    {
      if randomWeights {
        var random := new Random(host, seed);
        ghost var drawn := DrawTensor(random.draws, random.pos, SizesOf(neurons));
        weights, RowIndex := DrawWeights(neurons, random);
        W := drawn;
      } else {
        weights, RowIndex := ZeroWeights(neurons);
        W := ZeroTensor(SizesOf(neurons));
      }
      assert Sound(neurons, weights, RowIndex, W);
    }

    /** guess(input): the input and the bias go into layer 0 and every later layer is
        computed from the one before; the result is the output layer array itself. */
    method Guess(input: seq<real>) returns (result: array<real>)
      requires Valid() && |input| + 1 == neurons[0].Length
      modifies LayerSet(neurons)
      ensures unchanged(this) && Valid()
      ensures result == neurons[|neurons| - 1]
      ensures Contents(neurons) == Forward(old(W), Sizes(), input, old(bias) as real, host.sigmoid, false)
    {
      Propagate(neurons, weights, RowIndex, W, input, bias as real, host.sigmoid, false);
      ForwardCharacterised(W, Sizes(), input, bias as real, host.sigmoid, false, Contents(neurons));
      result := neurons[|neurons| - 1];
    }

    /** _computeError(result, expected): the mean absolute error, then the convergence
        ratio to the previous error, then the custom indicator from that ratio, and last
        the error becomes the previous error. */
    method ComputeError(result: array<real>, expected: seq<real>) returns (error: real)
      requires result.Length == |expected| && result.Length >= 1
      modifies this`convergence, this`customIndicator, this`previousError
      ensures error == MeanAbsError(result[..], expected) && error >= 0.0
      ensures convergence == Quot(error, old(previousError))
      ensures customIndicator == old(customIndicator) / 2.0 + convergence - 1.0
      ensures previousError == error
    {
      error := MeanAbsoluteError(result, expected);
      MeanAbsErrorZero(result[..], expected);
      convergence := Quot(error, previousError);
      customIndicator := customIndicator / 2.0 + convergence - 1.0;
      previousError := error;
    }

    /** The weight update of train: every delta from the weights as they are, then one
        gradient step on every weight; the layers are read, not written. */
    method Learn(ghost acts: seq<seq<real>>, outErrors: seq<real>)
      requires Valid() && Contents(neurons) == acts
      requires |outErrors| == neurons[|neurons| - 1].Length
      modifies this`W, Elements(weights)
      ensures Valid() && Contents(neurons) == acts
      ensures W == GradientStep(old(W), Sizes(), acts, outErrors)
    {
      ghost var next := GradientStep(W, SizesOf(neurons), Contents(neurons), outErrors);
      Backpropagate(neurons, weights, RowIndex, W, outErrors);
      W := next;
    }

    /** Between two states that agree on the weight fields, the weight rows and the
        layers, the invariant and the layer contents carry over. */
    twostate lemma Kept()
      requires old(Valid())
      requires unchanged(this`weights, this`W, this`RowIndex) && unchanged(Elements(weights)) && unchanged(LayerSet(neurons))
      ensures Valid() && Contents(neurons) == old(Contents(neurons))
    {
    }

    /** train(input, target): a forward pass, the error bookkeeping and the correction
        factor update, then one gradient step on every weight, computed entirely from the
        weights as they were before the step. */
    method Train(input: seq<real>, target: seq<real>) returns (ghost acts: seq<seq<real>>)
      requires Valid()
      requires |input| + 1 == neurons[0].Length && |target| == neurons[|neurons| - 1].Length
      modifies this`convergence, this`customIndicator, this`previousError, this`correctionFactor
      modifies this`trainings, this`W, LayerSet(neurons), Elements(weights)
      ensures acts == Forward(old(W), Sizes(), input, old(bias) as real, host.sigmoid, false)
      ensures Contents(neurons) == acts
      ensures previousError == MeanAbsError(acts[|acts| - 1], target)
      ensures previousError >= 0.0
      ensures W == GradientStep(old(W), Sizes(), acts, OutputErrors(correctionFactor, target, acts[|acts| - 1]))
      ensures convergence == Quot(previousError, old(previousError))
      ensures customIndicator == old(customIndicator) / 2.0 + convergence - 1.0
      ensures correctionFactor ==
        if isCorrectionFactorEvolutive && old(trainings) > 0 then Quot(0.01, convergence) else old(correctionFactor)
      ensures trainings == old(trainings) + 1
      ensures Valid()
      ensures Snap() == Trained(old(Snap()), Config(), input, target)
    {
      var result := Guess(input);
      acts := Contents(neurons);
      Settle(result, target, acts);
      TrainedFrom(old(Snap()), Config(), input, target, acts, Snap());
    }

    /** The part of train after the forward pass: the bookkeeping, the output errors
        from the (possibly updated) correction factor, the training count and the weight
        update. The count is raised before the update rather than after it; nothing in
        between reads it. */
    method Settle(result: array<real>, target: seq<real>, ghost acts: seq<seq<real>>)
      requires Valid() && Contents(neurons) == acts
      requires result == neurons[|neurons| - 1] && |target| == result.Length
      modifies this`convergence, this`customIndicator, this`previousError, this`correctionFactor
      modifies this`trainings, this`W, Elements(weights)
      ensures Valid() && Contents(neurons) == acts
      ensures previousError == MeanAbsError(acts[|acts| - 1], target)
      ensures previousError >= 0.0
      ensures W == GradientStep(old(W), Sizes(), acts, OutputErrors(correctionFactor, target, acts[|acts| - 1]))
      ensures convergence == Quot(previousError, old(previousError))
      ensures customIndicator == old(customIndicator) / 2.0 + convergence - 1.0
      ensures correctionFactor ==
        if isCorrectionFactorEvolutive && old(trainings) > 0 then Quot(0.01, convergence) else old(correctionFactor)
      ensures trainings == old(trainings) + 1
    {
      label start:
      Account(result, target);
      var outErrors := OutputErrorsOf(correctionFactor, target, result);
      trainings := trainings + 1;
      Kept@start();
      Learn(acts, outErrors);
    }

    /** The bookkeeping of train: _computeError, then the correction factor becomes
        0.01 / convergence when it is evolutive and this is not the first training. */
    method Account(result: array<real>, target: seq<real>)
      requires result.Length == |target| && result.Length >= 1
      modifies this`convergence, this`customIndicator, this`previousError, this`correctionFactor
      ensures previousError == MeanAbsError(result[..], target)
      ensures previousError >= 0.0
      ensures convergence == Quot(previousError, old(previousError))
      ensures customIndicator == old(customIndicator) / 2.0 + convergence - 1.0
      ensures correctionFactor ==
        if isCorrectionFactorEvolutive && trainings > 0 then Quot(0.01, convergence) else old(correctionFactor)
    {
      var error := ComputeError(result, target);
      if isCorrectionFactorEvolutive && trainings > 0 {
        correctionFactor := Quot(0.01, convergence);
      }
    }

    /** Every example the picker hands out fits the input and output layers. */
    ghost predicate Fits(picker: Picker) {
      Feeds(picker, Sizes())
    }

    /** isConvergent(input, output, iterations): `iterations` training steps on the same
        example, then whether the last convergence ratio lies in the band. `states` are the
        states after the steps. */
    method IsConvergent(input: seq<real>, output: seq<real>, iterations: int) returns (b: bool, ghost states: seq<Snapshot>)
      requires Valid()
      requires |input| + 1 == neurons[0].Length && |output| == neurons[|neurons| - 1].Length
      modifies this`convergence, this`customIndicator, this`previousError, this`correctionFactor
      modifies this`trainings, this`W, LayerSet(neurons), Elements(weights)
      ensures Valid()
      ensures |states| == if iterations > 0 then iterations else 0
      ensures TrainedTrace(old(Snap()), states, Config(), Repeat(input, output))
      ensures Snap() == After(old(Snap()), states)
      ensures b <==> InBand(convergence)
    {
      assert Feeds(Repeat(input, output), Sizes());
      states := [];
      var n := if iterations > 0 then iterations else 0;
      for i := 0 to n
        invariant Valid() && |states| == i
        invariant TrainedTrace(old(Snap()), states, Config(), Repeat(input, output))
        invariant Snap() == After(old(Snap()), states)
      {
        TrainingStep(Repeat(input, output), i, old(Snap()), states);
        states := states + [Snap()];
      }
      b := convergence < 1.0 + E && convergence > 1.0 - E;
    }

    /** One candidate seed of the calibration in think: up to 100 steps, each starting
        from freshly drawn weights, checking the band every tenth step. The score is the
        error at the first check that finds the ratio in the band, or the sentinel when
        none does. `states` are the states after the steps taken. */
    method ProbeSeed(picker: Picker, seed: int) returns (score: Score, ghost states: seq<Snapshot>)
      requires Valid() && Fits(picker)
      modifies this`weights, this`W, this`RowIndex, this`convergence, this`customIndicator
      modifies this`previousError, this`correctionFactor, this`trainings, LayerSet(neurons)
      ensures Valid()
      ensures ProbedFrom(picker, Config(), seed, old(Snap()), score, states)
      ensures Snap() == After(old(Snap()), states)
      ensures score.Recorded? ==> score.error >= 0.0
    {
      states := [];
      var j := 0;
      while j < TRAININGS_PER_CALIBRATION
        invariant 0 <= j <= TRAININGS_PER_CALIBRATION && |states| == j
        invariant Valid()
        invariant CalibrationTrace(old(Snap()), states, Config(), Drawn(seed), picker)
        invariant Snap() == After(old(Snap()), states)
        invariant forall m :: 0 <= m < j && m % 10 == 0 ==> !InBand(states[m].convergence)
      {
        CalibrationStep(picker, seed, j, old(Snap()), states);
        states := states + [Snap()];
        var check := j % (TRAININGS_PER_CALIBRATION / 10) == 0;
        var converged := convergence < 1.0 + E && convergence > 1.0 - E;
        if check && converged {
          return Recorded(previousError), states;
        }
        j := j + 1;
      }
      score := Unstable;
    }

    /** The body of the calibration loop: new weights drawn from `seed`, then one
        training step on example `j`, which extends the calibration trace `states` from
        `start` by the new state. */
    method CalibrationStep(picker: Picker, seed: int, j: nat, ghost start: Snapshot, ghost states: seq<Snapshot>)
      requires Valid() && Fits(picker)
      requires CalibrationTrace(start, states, Config(), Drawn(seed), picker)
      requires |states| == j && Snap() == After(start, states)
      modifies this`weights, this`W, this`RowIndex, this`convergence, this`customIndicator
      modifies this`previousError, this`correctionFactor, this`trainings, LayerSet(neurons)
      ensures Valid()
      ensures CalibrationTrace(start, states + [Snap()], Config(), Drawn(seed), picker)
      ensures previousError >= 0.0
    {
      InitializeWeights(true, seed);
      ResetTraining(picker, j, start, states, Drawn(seed));
    }

    /** The training step of the calibration loop, once the weights have been reset to
        `drawn`. */
    method ResetTraining(picker: Picker, j: nat, ghost start: Snapshot, ghost states: seq<Snapshot>, ghost drawn: Tensor)
      requires Valid() && Fits(picker) && Shaped(drawn, Sizes())
      requires CalibrationTrace(start, states, Config(), drawn, picker)
      requires |states| == j && Snap() == After(start, states).(w := drawn)
      modifies this`convergence, this`customIndicator, this`previousError, this`correctionFactor
      modifies this`trainings, this`W, LayerSet(neurons), Elements(weights)
      ensures Valid()
      ensures CalibrationTrace(start, states + [Snap()], Config(), drawn, picker)
      ensures previousError >= 0.0
    {
      var (input, target) := picker(j);
      ghost var acts := Train(input, target);
      CalibrationTraceExtend(start, states, Config(), drawn, picker, Snap());
    }

    /** The calibration loop of think: `startPoints` candidate seeds drawn from
        new Random(SEED) over [int.MinValue, int.MaxValue); a seed already scored is
        skipped, every other one is probed and scored. `order` lists the scored seeds in
        the order they were added to the dictionary, `starts` where each probe started
        and `traces` the states each probe went through. */
    method CalibrateSeeds(picker: Picker, startPoints: int)
      returns (seeds: map<int, Score>, order: seq<int>, ghost starts: seq<Snapshot>, ghost traces: seq<seq<Snapshot>>)
      requires Valid() && Fits(picker)
      modifies this`weights, this`W, this`RowIndex, this`convergence, this`customIndicator
      modifies this`previousError, this`correctionFactor, this`trainings, LayerSet(neurons)
      ensures Valid()
      ensures order == FirstOccurrences(SeedDraws(host.stream(SEED), if startPoints > 0 then startPoints else 0))
      ensures forall s :: s in seeds <==> s in order
      ensures ErrorsNonNegative(seeds)
      ensures AllProbed(picker, Config(), seeds, order, starts, traces)
      ensures Chained(old(Snap()), starts, traces) && Snap() == Ended(old(Snap()), starts, traces)
    {
      var generator := new Random(host, SEED);
      seeds := map[];
      order := [];
      starts, traces := [], [];
      ghost var drawn: seq<int> := [];
      var n := if startPoints > 0 then startPoints else 0;
      for i := 0 to n
        invariant generator.Valid() && generator.draws == host.stream(SEED) && generator.pos == i
        invariant drawn == SeedDraws(host.stream(SEED), i)
        invariant order == FirstOccurrences(drawn)
        invariant forall s :: s in seeds <==> s in order
        invariant ErrorsNonNegative(seeds)
        invariant AllProbed(picker, Config(), seeds, order, starts, traces)
        invariant Chained(old(Snap()), starts, traces) && Snap() == Ended(old(Snap()), starts, traces)
        invariant Valid()
      {
        seeds, order, drawn, starts, traces := CalibrationRound(picker, generator, i, seeds, order, drawn, old(Snap()), starts, traces);
      }
    }

    /** One round of the calibration loop: the next seed is drawn, then skipped or
        scored. */
    method CalibrationRound(picker: Picker, generator: Random, i: nat, seeds: map<int, Score>, order: seq<int>, ghost drawn: seq<int>,
                            ghost first: Snapshot, ghost starts: seq<Snapshot>, ghost traces: seq<seq<Snapshot>>)
      returns (seeds': map<int, Score>, order': seq<int>, ghost drawn': seq<int>, ghost starts': seq<Snapshot>, ghost traces': seq<seq<Snapshot>>)
      requires Valid() && Fits(picker)
      requires generator.Valid() && generator.draws == host.stream(SEED) && generator.pos == i
      requires drawn == SeedDraws(host.stream(SEED), i) && order == FirstOccurrences(drawn)
      requires forall s :: s in seeds <==> s in order
      requires ErrorsNonNegative(seeds) && AllProbed(picker, Config(), seeds, order, starts, traces)
      requires Chained(first, starts, traces) && Snap() == Ended(first, starts, traces)
      modifies generator`pos
      modifies this`weights, this`W, this`RowIndex, this`convergence, this`customIndicator
      modifies this`previousError, this`correctionFactor, this`trainings, LayerSet(neurons)
      ensures generator.pos == i + 1
      ensures drawn' == SeedDraws(host.stream(SEED), i + 1) && order' == FirstOccurrences(drawn')
      ensures forall s :: s in seeds' <==> s in order'
      ensures ErrorsNonNegative(seeds') && AllProbed(picker, Config(), seeds', order', starts', traces')
      ensures Chained(first, starts', traces') && Snap() == Ended(first, starts', traces')
      ensures Valid()
    {
      label draw:
      var seed := DrawSeed(generator, drawn);
      Kept@draw();
      FirstOccurrencesStep(drawn, seed);
      drawn' := drawn + [seed];
      assert generator as object !in LayerSet(neurons);
      seeds', order', starts', traces' := Consider(picker, seed, seeds, order, first, starts, traces);
    }

    /** One drawn seed: skipped when it is already in the dictionary, scored otherwise. */
    method Consider(picker: Picker, seed: int, seeds: map<int, Score>, order: seq<int>,
                    ghost first: Snapshot, ghost starts: seq<Snapshot>, ghost traces: seq<seq<Snapshot>>)
      returns (seeds': map<int, Score>, order': seq<int>, ghost starts': seq<Snapshot>, ghost traces': seq<seq<Snapshot>>)
      requires Valid() && Fits(picker) && forall s :: s in seeds <==> s in order
      requires ErrorsNonNegative(seeds) && AllProbed(picker, Config(), seeds, order, starts, traces)
      requires Chained(first, starts, traces) && Snap() == Ended(first, starts, traces)
      modifies this`weights, this`W, this`RowIndex, this`convergence, this`customIndicator
      modifies this`previousError, this`correctionFactor, this`trainings, LayerSet(neurons)
      ensures Valid()
      ensures order' == if seed in order then order else order + [seed]
      ensures forall s :: s in seeds' <==> s in order'
      ensures ErrorsNonNegative(seeds') && AllProbed(picker, Config(), seeds', order', starts', traces')
      ensures Chained(first, starts', traces') && Snap() == Ended(first, starts', traces')
    {
      if seed in seeds {
        return seeds, order, starts, traces;
      }
      seeds', order', starts', traces' := ScoreSeed(picker, seed, seeds, order, first, starts, traces);
    }

    /** A seed not scored yet is probed and its score added to the dictionary. */
    method ScoreSeed(picker: Picker, seed: int, seeds: map<int, Score>, order: seq<int>,
                     ghost first: Snapshot, ghost starts: seq<Snapshot>, ghost traces: seq<seq<Snapshot>>)
      returns (seeds': map<int, Score>, order': seq<int>, ghost starts': seq<Snapshot>, ghost traces': seq<seq<Snapshot>>)
      requires Valid() && Fits(picker) && seed !in order
      requires ErrorsNonNegative(seeds) && AllProbed(picker, Config(), seeds, order, starts, traces)
      requires Chained(first, starts, traces) && Snap() == Ended(first, starts, traces)
      modifies this`weights, this`W, this`RowIndex, this`convergence, this`customIndicator
      modifies this`previousError, this`correctionFactor, this`trainings, LayerSet(neurons)
      ensures Valid()
      ensures order' == order + [seed] && seeds'.Keys == seeds.Keys + {seed}
      ensures ErrorsNonNegative(seeds') && AllProbed(picker, Config(), seeds', order', starts', traces')
      ensures Chained(first, starts', traces') && Snap() == Ended(first, starts', traces')
    {
      ghost var start := Snap();
      var score, states := ProbeSeed(picker, seed);
      ErrorsNonNegativeExtend(seeds, seed, score);
      AllProbedExtend(picker, Config(), seeds, order, starts, traces, seed, score, start, states);
      ChainedExtend(first, starts, traces, states);
      seeds' := seeds[seed := score];
      order' := order + [seed];
      starts', traces' := starts + [start], traces + [states];
    }

    /** The training loop of think: step n trains on example n, and at every hundredth
        step the loop stops when the ratio is in the band or when the clock is past the
        time-out. timedOut(n) stands for the clock read at the check after step n, and
        `deadline` is a check at which the time-out has certainly passed. The count is
        the number of the step that stopped the loop; `states` are the states after the
        steps. */
    method TimedTraining(picker: Picker, timedOut: nat -> bool, ghost deadline: nat) returns (count: nat, ghost states: seq<Snapshot>)
      requires Valid() && Fits(picker)
      requires deadline % 100 == 0 && timedOut(deadline)
      modifies this`convergence, this`customIndicator, this`previousError, this`correctionFactor
      modifies this`trainings, this`W, LayerSet(neurons), Elements(weights)
      ensures Valid()
      ensures count % 100 == 0 && count <= deadline
      ensures |states| == count + 1 && Snap() == states[count]
      ensures TrainedTrace(old(Snap()), states, Config(), picker)
      ensures InBand(convergence) || timedOut(count)
      ensures forall m :: 0 <= m < count && m % 100 == 0 ==> !InBand(states[m].convergence) && !timedOut(m)
    {
      count := 0;
      states := [];
      while true
        invariant |states| == count <= deadline
        invariant Valid()
        invariant TrainedTrace(old(Snap()), states, Config(), picker)
        invariant Snap() == After(old(Snap()), states)
        invariant forall m :: 0 <= m < count && m % 100 == 0 ==> !InBand(states[m].convergence) && !timedOut(m)
        decreases deadline - count
      {
        TrainingStep(picker, count, old(Snap()), states);
        states := states + [Snap()];
        if count % 100 == 0 {
          if convergence < 1.0 + E && convergence > 1.0 - E {
            break;
          } else if timedOut(count) {
            break;
          }
        }
        count := count + 1;
      }
    }

    /** The body of the training loop: one training step on example n, which extends
        the training trace `states` from `start` by the new state. */
    method TrainingStep(picker: Picker, n: nat, ghost start: Snapshot, ghost states: seq<Snapshot>)
      requires Valid() && Fits(picker)
      requires TrainedTrace(start, states, Config(), picker)
      requires |states| == n && Snap() == After(start, states)
      modifies this`convergence, this`customIndicator, this`previousError, this`correctionFactor
      modifies this`trainings, this`W, LayerSet(neurons), Elements(weights)
      ensures Valid()
      ensures TrainedTrace(start, states + [Snap()], Config(), picker)
    {
      var (input, target) := picker(n);
      ghost var acts := Train(input, target);
      TrainedTraceExtend(start, states, Config(), picker, Snap());
    }

    /** think(getTrainingInput, timeOut, startPoints): the seed calibration, the choice
        of the best seed, new weights drawn from it, then the timed training, which
        starts from `resumed` (the state the calibration left, with the best seed's
        weights) and goes through `states`. */
    method Think(picker: Picker, timedOut: nat -> bool, ghost deadline: nat, startPoints: int)
      returns (r: TrainingResult, ghost seeds: map<int, Score>, ghost order: seq<int>,
               ghost starts: seq<Snapshot>, ghost traces: seq<seq<Snapshot>>,
               ghost resumed: Snapshot, ghost states: seq<Snapshot>)
      requires Valid() && Fits(picker)
      requires deadline % 100 == 0 && timedOut(deadline)
      modifies this`weights, this`W, this`RowIndex, this`convergence, this`customIndicator
      modifies this`previousError, this`correctionFactor, this`trainings, LayerSet(neurons)
      ensures Valid()
      ensures order == FirstOccurrences(SeedDraws(host.stream(SEED), if startPoints > 0 then startPoints else 0))
      ensures forall s :: s in seeds <==> s in order
      ensures AllProbed(picker, old(Config()), seeds, order, starts, traces) && Chained(old(Snap()), starts, traces)
      ensures IsBestSeed(seeds, order, r.bestSeed)
      ensures resumed == Ended(old(Snap()), starts, traces).(w := Drawn(r.bestSeed))
      ensures TrainedTrace(resumed, states, Config(), picker)
      ensures |states| == r.trainings + 1 && Snap() == states[r.trainings]
      ensures r.convergence == convergence && r.customIndicator == customIndicator
      ensures r.trainings % 100 == 0 && r.trainings <= deadline
      ensures InBand(r.convergence) || timedOut(r.trainings)
    {
      var scored, added, begun, probed := CalibrateSeeds(picker, startPoints);
      seeds, order, starts, traces := scored, added, begun, probed;
      var bestSeed := SelectBestSeed(scored, added);
      InitializeWeights(true, bestSeed);
      resumed := Snap();
      var count, trained := TimedTraining(picker, timedOut, deadline);
      states := trained;
      r := TrainingResult(convergence, count, bestSeed, customIndicator);
    }
  }
}
