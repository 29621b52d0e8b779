/** The array helpers of the engine (Derp/Derp/Extensions.cs). */
module Extensions {
  import opened Runtime

  /** array.Multiply(factor): scales every element in place. */
  method Multiply(a: array<real>, factor: real)
    modifies a
    ensures forall j :: 0 <= j < a.Length ==> a[j] == old(a[j]) * factor
  {
    for j := 0 to a.Length
      invariant forall i :: 0 <= i < j ==> a[i] == old(a[i]) * factor
      invariant forall i :: j <= i < a.Length ==> a[i] == old(a[i])
    {
      a[j] := a[j] * factor;
    }
  }

  /** array.Add(count): increments every element in place; the array keeps its length,
      nothing is appended. */
  method Add(a: array<int>, count: int)
    modifies a
    ensures forall j :: 0 <= j < a.Length ==> a[j] == old(a[j]) + count
  {
    for j := 0 to a.Length
      invariant forall i :: 0 <= i < j ==> a[i] == old(a[i]) + count
      invariant forall i :: j <= i < a.Length ==> a[i] == old(a[i])
    {
      a[j] := a[j] + count;
    }
  }

  /** A draw r of [0, 1) stretched onto [minimum, maximum). */
  function Scale(r: real, minimum: real, maximum: real): (x: real) {
    r * (maximum - minimum) + minimum
  }

  lemma ScaleInRange(r: real, minimum: real, maximum: real)
    requires 0.0 <= r < 1.0 && minimum < maximum
    ensures minimum <= Scale(r, minimum, maximum) < maximum
  {
    var width := maximum - minimum;
    var rest := 1.0 - r;
    assert 0.0 <= r * width by { ProductSign(r, width); }
    assert 0.0 < rest * width by { ProductSign(rest, width); }
    assert r * width + rest * width == width;
  }

  lemma ProductSign(a: real, b: real)
    requires 0.0 <= a && 0.0 < b
    ensures 0.0 <= a * b && (0.0 < a ==> 0.0 < a * b)
  {
  }

  /** The values GetRandomArray produces from the draws at positions pos, pos+1, ... */
  function DrawRow(draws: nat -> real, pos: nat, length: nat, minimum: real, maximum: real): (row: seq<real>)
  {
    seq(length, k requires 0 <= k < length => Scale(draws(pos + k), minimum, maximum))
  }

  /** With draws in [0, 1) and a non-empty range, every generated element lies in
      [minimum, maximum). */
  lemma DrawRowInRange(draws: nat -> real, pos: nat, length: nat, minimum: real, maximum: real)
    requires forall n :: 0.0 <= draws(n) < 1.0
    requires minimum < maximum
    ensures |DrawRow(draws, pos, length, minimum, maximum)| == length
    ensures forall k :: 0 <= k < length ==> minimum <= DrawRow(draws, pos, length, minimum, maximum)[k] < maximum
  {
    forall k | 0 <= k < length
      ensures minimum <= DrawRow(draws, pos, length, minimum, maximum)[k] < maximum
    {
      ScaleInRange(draws(pos + k), minimum, maximum);
    }
  }

  /** random.GetRandomArray(length, minimum, maximum): a fresh array of `length` elements,
      element i made from the i-th next draw; the generator advances by exactly `length`. */
  method GetRandomArray(random: Random, length: nat, minimum: real, maximum: real) returns (output: array<real>)
    requires random.Valid()
    modifies random
    ensures fresh(output) && output.Length == length
    ensures output[..] == DrawRow(random.draws, old(random.pos), length, minimum, maximum)
    ensures random.pos == old(random.pos) + length
  {
    output := new real[length];
    for i := 0 to output.Length
      invariant random.pos == old(random.pos) + i
      invariant forall k :: 0 <= k < i ==> output[k] == Scale(random.draws(old(random.pos) + k), minimum, maximum)
    {
      var r := random.NextDouble();
      output[i] := r * (maximum - minimum) + minimum;
    }
  }

  /** GetFilledArray(length, value): a fresh array holding `value` everywhere.
      (Its code is not part of this model; this is the behaviour its call relies on.) */
  method GetFilledArray(length: nat, value: real) returns (output: array<real>)
    ensures fresh(output) && output.Length == length
    ensures forall k :: 0 <= k < length ==> output[k] == value
  {
    output := new real[length](_ => value);
  }
}
