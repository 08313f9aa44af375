/** The older stand-alone cart-pole of `src/cart-pole.ts`: the same physics as
    `CartPole`, but it resets itself on construction, checks no action range and has no
    step cap. */
module LegacyCartPole {
  import opened Wrappers
  import opened Core
  import opened CartPole
  import Rng

  const WinningScore: real := 195.0

  class LegacyCartPole {
    /** `Math.cos` and `Math.sin`. */
    const cos: real -> real
    const sin: real -> real
    var done: bool
    var state: State

    ghost predicate Valid()
      reads this
    {
      forall t :: -1.0 <= cos(t) <= 1.0
    }

    /** The constructor ends with a reset, so a step is allowed straight away. */
    constructor (cos: real -> real, sin: real -> real, rng: Rng.Rng)
      requires forall t :: -1.0 <= cos(t) <= 1.0
      modifies rng
      ensures Valid()
      ensures this.cos == cos && this.sin == sin
      ensures !done && InResetRange(state)
    {
      this.cos := cos;
      this.sin := sin;
      done := false;
      new;
      var observation := Reset(rng);
    }

    method Reset(rng: Rng.Rng) returns (observation: Observation)
      requires Valid()
      modifies this, rng
      ensures Valid()
      ensures !done && InResetRange(state)
      ensures observation == state.Observe()
    {
      var s := DrawInitialState(rng);
      state := s;
      done := false;
      observation := state.Observe();
    }

    /** Every action is accepted (any action other than 1 pushes left); the episode ends
        only on the position/angle test. */
    method Step(action: int) returns (result: Result<Sample>)
      requires Valid()
      modifies this
      ensures Valid()
      ensures old(done) ==> result == Err(EnvIsDone) && unchanged(this)
      ensures !old(done) ==>
        && state == Next(old(state), Force(action), cos(old(state).theta), sin(old(state).theta))
        && (done <==> OutOfBounds(state))
        && result == Ok(Sample(state.Observe(), 1.0, done))
    {
      if done {
        return Err(EnvIsDone);
      }
      var force := Force(action);
      var cosTheta := cos(state.theta);
      var sinTheta := sin(state.theta);
      state := Next(state, force, cosTheta, sinTheta);
      done := OutOfBounds(state);
      return Ok(Sample(state.Observe(), 1.0, done));
    }
  }
}
