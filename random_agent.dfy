/** The baseline agent of `src/agents/random.ts`: every action is drawn uniformly from the
    environment's action range, nothing is learned and nothing is saved. */
module RandomAgent {
  import opened Wrappers
  import opened Core
  import Util
  import Rng
  import Environments

  class Random {
    const numActions: nat

    ghost predicate Valid()
    {
      numActions > 0
    }

    /** Only the environment's number of actions is kept. */
    constructor (env: Environments.Environment)
      ensures Valid()
      ensures numActions == env.NumActions()
    {
      numActions := env.NumActions();
    }

    function Name(): string { "Random" }

    /** One episode: a single reset, then one uniformly drawn action and one step per pass
        until the first sample that is done; the return is the sum of the step rewards. A
        failing step ends the episode with its error after the samples taken so far, none of
        which was done. */
    method RunEpisode(env: Environments.Environment, rng: Rng.Rng)
      returns (result: Result<real>, ghost actions: seq<nat>, ghost samples: seq<Sample>)
      requires Valid() && env.Valid()
      modifies env.Repr(), rng
      ensures env.Valid()
      ensures |actions| == |samples| + (if result.Err? then 1 else 0)
      ensures forall i :: 0 <= i < |actions| ==> actions[i] < numActions
      ensures forall i :: 0 <= i < |samples| ==> |samples[i].observation| == env.NumObservationDimensions()
      ensures result.Err? ==> forall i :: 0 <= i < |samples| ==> !samples[i].done
      ensures result.Ok? ==> EndsAtFirstDone(samples) && result.value == Util.Sum(Rewards(samples))
    {
      var first := env.Reset(rng);
      var done := false;
      var rewards: seq<real> := [];
      ghost var seen: seq<Observation> := [];
      ghost var latest := first;
      actions := [];
      samples := [];

      while !done
        invariant env.Valid()
        invariant Rollout(seen, samples, latest, done) && rewards == Rewards(samples)
        invariant |actions| == |samples|
        invariant forall i :: 0 <= i < |actions| ==> actions[i] < numActions
        invariant forall i :: 0 <= i < |samples| ==> |samples[i].observation| == env.NumObservationDimensions()
        decreases (if done then 0 else 1) + env.Budget()
      {
        var action := rng.SampleIndex(numActions);
        actions := actions + [action];
        var sample := env.Step(action);
        if sample.Err? {
          return Err(sample.error), actions, samples;
        }
        RolloutSnoc(seen, samples, latest, sample.value);
        seen, samples := seen + [latest], samples + [sample.value];
        rewards := rewards + [sample.value.reward];
        latest, done := sample.value.observation, sample.value.done;
      }
      RolloutEnds(seen, samples, latest);
      result := Ok(Util.Sum(rewards));
    }

    /** `save` has nothing to write. */
    method Save()
      ensures unchanged(this)
    {
    }
  }
}
