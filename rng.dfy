/** The process-wide pseudo-random source: `Math.random` seeded once by `src/random.ts`,
    and the `sampleUniform` and `tf.multinomial` draws built on it. A linear congruential
    generator stands in for the seeded generator; callers rely only on the ranges below. */
module Rng {
  import Util

  const Modulus: nat := 2147483648

  class Rng {
    var state: nat

    constructor (seed: nat)
      ensures state == seed % Modulus
    {
      state := seed % Modulus;
    }

    method Next() returns (x: nat)
      modifies this
      ensures x < Modulus
    {
      state := (state * 1103515245 + 12345) % Modulus;
      x := state;
    }

    /** `Math.random()`: a number in [0, 1). */
    method Uniform() returns (u: real)
      modifies this
      ensures 0.0 <= u < 1.0
    {
      var x := Next();
      u := x as real / Modulus as real;
    }

    /** `sampleUniform(n)`: an index in [0, n). */
    method SampleIndex(n: nat) returns (k: nat)
      requires n > 0
      modifies this
      ensures k < n
    {
      var x := Next();
      k := x % n;
    }

    /** `sampleUniform(a, b)`: a number between its two bounds, in either order. */
    method UniformBetween(a: real, b: real) returns (x: real)
      modifies this
      ensures a <= b ==> a <= x <= b
      ensures b <= a ==> b <= x <= a
    {
      var u := Uniform();
      x := a + u * (b - a);
      var w := 1.0 - u;
      assert u * (b - a) + w * (b - a) == b - a;
      if a <= b {
        Util.ProductNonNegative(u, b - a);
        Util.ProductNonNegative(w, b - a);
      } else {
        Util.ProductNonNegative(u, a - b);
        Util.ProductNonNegative(w, a - b);
        assert u * (b - a) == -(u * (a - b));
        assert w * (b - a) == -(w * (a - b));
      }
    }

    /** `tf.multinomial`: an action index drawn from a distribution over `|weights|` actions.
        The distribution itself is not modelled. */
    method Categorical(weights: seq<real>) returns (k: nat)
      requires |weights| > 0
      modifies this
      ensures k < |weights|
    {
      k := SampleIndex(|weights|);
    }
  }
}
