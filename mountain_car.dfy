/** The MountainCar environment of `src/environments/mountain-car.ts`: an under-powered
    car in a valley, with clipped speed and position, a left wall and a 1000-step horizon.
    `Math.cos` is an oracle handed to the constructor. */
module MountainCar {
  import opened Wrappers
  import opened Core
  import Util
  import Rng

  const MinPosition: real := -1.2
  const MaxPosition: real := 0.6
  const MinStartingPosition: real := -0.6
  const MaxStartingPosition: real := -0.4
  const MaxSpeed: real := 0.07
  const GoalPosition: real := 0.5
  const ForceUnit: real := 0.001
  const Gravity: real := 0.0025
  const MaxEpisodeLength: nat := 1000

  const ActionNotInRange := "Action is not in range"
  const EnvIsDone := "Env is done"

  datatype State = State(position: real, velocity: real)
  {
    function Observe(): (o: Observation)
      ensures |o| == 2 && o[0] == position && o[1] == velocity
    {
      [position, velocity]
    }

    /** Position within the track and speed within the limit. */
    predicate InBounds()
    {
      MinPosition <= position <= MaxPosition && -MaxSpeed <= velocity <= MaxSpeed
    }
  }

  /** Action a pushes with (a − 1)·0.001: left, none or right. */
  function Push(action: int): (f: real)
    ensures action == 0 ==> f == -ForceUnit
    ensures action == 1 ==> f == 0.0
    ensures action == 2 ==> f == ForceUnit
  {
    (action - 1) as real * ForceUnit
  }

  /** One move of the car, `cosine` being `Math.cos(3·position)`: the speed is clipped, then
      the position, and hitting the left wall stops the car. */
  function Next(s: State, action: int, cosine: real): (n: State)
    ensures n.InBounds()
    ensures n.position <= MinPosition ==> n.velocity == 0.0
    ensures n.position > MinPosition ==>
      n.velocity == Util.Clip(s.velocity + (Push(action) + cosine * -Gravity), -MaxSpeed, MaxSpeed)
  {
    var velocity := Util.Clip(s.velocity + (Push(action) + cosine * -Gravity), -MaxSpeed, MaxSpeed);
    var position := Util.Clip(s.position + velocity, MinPosition, MaxPosition);
    State(position, if position <= MinPosition then 0.0 else velocity)
  }

  /** The flag is reached at position 0.5 or more. */
  predicate ReachedFlag(s: State)
  {
    s.position >= GoalPosition
  }

  /** The reward is 0 at the flag and -1 elsewhere. */
  function Reward(s: State): (r: real)
    ensures r == 0.0 <==> ReachedFlag(s)
    ensures r == -1.0 <==> !ReachedFlag(s)
  {
    if ReachedFlag(s) then 0.0 else -1.0
  }

  /** An observation of the car at rest somewhere in the starting range. */
  predicate IsResetObservation(o: Observation)
  {
    |o| == 2 && MinStartingPosition <= o[0] <= MaxStartingPosition && o[1] == 0.0
  }

  /** `processSample` is the identity. */
  function ProcessSample(sample: Sample): (r: Sample)
    ensures r == sample
  {
    sample
  }

  class MountainCar {
    /** `Math.cos`. */
    const cos: real -> real
    var steps: nat
    var done: bool
    var state: State

    ghost predicate Valid()
      reads this
    {
      state.InBounds()
    }

    /** The environment starts done at the origin. */
    constructor (cos: real -> real)
      ensures Valid()
      ensures this.cos == cos
      ensures steps == 0 && done && state == State(0.0, 0.0)
    {
      this.cos := cos;
      steps := 0;
      done := true;
      state := State(0.0, 0.0);
    }

    function Name(): string { "MountainCar" }
    function WinningScore(): real { -140.0 }
    function NumObservationDimensions(): nat { 2 }
    function NumObservationDimensionsProcessed(): nat { 2 }
    function NumActions(): nat { 3 }

    /** Starts at rest somewhere in [-0.6, -0.4]. */
    method Reset(rng: Rng.Rng) returns (observation: Observation)
      modifies this, rng
      ensures Valid()
      ensures steps == 0 && !done
      ensures MinStartingPosition <= state.position <= MaxStartingPosition && state.velocity == 0.0
      ensures observation == state.Observe() && IsResetObservation(observation)
    {
      var position := rng.UniformBetween(MaxStartingPosition, MinStartingPosition);
      steps := 0;
      state := State(position, 0.0);
      done := false;
      observation := state.Observe();
    }

    /** `resetProcessed` is `reset`. */
    method ResetProcessed(rng: Rng.Rng) returns (observation: Observation)
      modifies this, rng
      ensures Valid()
      ensures steps == 0 && !done
      ensures MinStartingPosition <= state.position <= MaxStartingPosition && state.velocity == 0.0
      ensures observation == state.Observe() && IsResetObservation(observation)
    {
      observation := Reset(rng);
    }

    /** Actions outside 0..2 are refused. The returned `done` (1000 steps, or the flag) is
        never stored: `done` keeps its value, so after a reset "Env is done" never occurs. */
    method Step(action: int) returns (result: Result<Sample>)
      requires Valid()
      modifies this
      ensures Valid()
      ensures done == old(done)
      ensures (action < 0 || action >= 3) ==> result == Err(ActionNotInRange) && unchanged(this)
      ensures 0 <= action < 3 && old(done) ==> result == Err(EnvIsDone) && unchanged(this)
      ensures 0 <= action < 3 && !old(done) ==>
        && steps == old(steps) + 1
        && state == Next(old(state), action, cos(3.0 * old(state).position))
        && result == Ok(Sample(state.Observe(), Reward(state), steps >= MaxEpisodeLength || ReachedFlag(state)))
    {
      if action >= 3 || action < 0 {
        return Err(ActionNotInRange);
      }
      if done {
        return Err(EnvIsDone);
      }
      var cosine := cos(3.0 * state.position);
      steps := steps + 1;
      state := Next(state, action, cosine);
      var didReachFlag := ReachedFlag(state);
      var finished := steps >= MaxEpisodeLength || didReachFlag;
      return Ok(Sample(state.Observe(), Reward(state), finished));
    }
  }
}
