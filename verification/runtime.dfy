/** The parts of the .NET runtime the network engine calls but whose code is not part of
    this model: the logistic function built on Math.Exp, and System.Random.
    They are supplied as a value (a Host) and constrained only by the facts below, so
    everything proved about the engine holds for every host that satisfies them. */
module Runtime {

  /** What the model knows of the logistic function x => 1 / (1 + e^-x). */
  ghost predicate IsLogistic(sigmoid: real -> real) {
    && sigmoid(0.0) == 0.5
    && forall x :: 0.0 < sigmoid(x) < 1.0
  }

  /** Every draw of every seeded generator lies in [0, 1), as NextDouble promises. */
  ghost predicate IsUnitStream(stream: int -> nat -> real) {
    forall seed, n :: 0.0 <= stream(seed)(n) < 1.0
  }

  /** The foreign functions of one run: the activation function, and for every seed
      the sequence of NextDouble draws of `new Random(seed)`. */
  datatype Host = Host(sigmoid: real -> real, stream: int -> nat -> real) {
    ghost predicate Valid() {
      IsLogistic(sigmoid) && IsUnitStream(stream)
    }
  }

  /** The outcome of a call that either returns a value or throws an exception with a
      message. */
  datatype Result<T> = Success(value: T) | Failure(error: string)

  /** A seeded System.Random: a fixed stream of draws and the position of the next one. */
  class Random {
    const draws: nat -> real
    var pos: nat

    ghost predicate Valid()
      reads this
    {
      forall n :: 0.0 <= draws(n) < 1.0
    }

    /** new Random(seed) */
    constructor (host: Host, seed: int)
      requires host.Valid()
      ensures Valid()
      ensures draws == host.stream(seed) && pos == 0
    {
      draws := host.stream(seed);
      pos := 0;
    }

    /** NextDouble(): the next draw, in [0, 1). */
    method NextDouble() returns (r: real)
      requires Valid()
      modifies this`pos
      ensures 0.0 <= r < 1.0
      ensures r == draws(old(pos)) && pos == old(pos) + 1
    {
      r := draws(pos);
      pos := pos + 1;
    }

    /** Next(lo, hi): an integer in [lo, hi) taken from the next draw. */
    method Next(lo: int, hi: int) returns (r: int)
      requires Valid() && lo < hi
      modifies this`pos
      ensures r == NextInRange(draws(old(pos)), lo, hi) && pos == old(pos) + 1
    {
      var sample := draws(pos);
      var width := (hi - lo) as real;
      assert 0.0 <= sample * width < width by {
        assert sample * width <= 1.0 * width;
      }
      r := lo + (sample * width).Floor;
      pos := pos + 1;
    }
  }

  /** The integer Next(lo, hi) makes of one draw r of [0, 1): lo plus the whole part of
      r times the width of the range. */
  function NextInRange(r: real, lo: int, hi: int): (n: int)
    requires 0.0 <= r < 1.0 && lo < hi
    ensures lo <= n < hi
  {
    var width := (hi - lo) as real;
    assert 0.0 <= r * width < width by {
      assert r * width <= 1.0 * width;
    }
    lo + (r * width).Floor
  }
}
