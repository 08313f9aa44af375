/** The actor-critic agent of `src/agents/actor-critic.ts`: a shared trunk with an actor
    head (action probabilities) and a critic head (a state value), a rollout that collects
    observations and rewards, and two optimiser steps per episode, each with one head frozen.
    The heads' outputs (`actorOutput`, `criticOutput`), the optimisers' proposed updates
    (`actorMinimize`, `criticMinimize`) and the unseen `calculateDiscountedNormalizedRewards`
    helper are oracles. */
module ActorCritic {
  import opened Wrappers
  import opened Core
  import Util
  import Rng
  import Environments

  datatype ActorCriticOptions = ActorCriticOptions(
    alphaActor: real, alphaCritic: real, gamma: real, hiddenWidths: seq<nat>, seed: Option<int>)

  /** The three groups of trainable variables. */
  datatype Weights = Weights(shared: seq<real>, actorHead: seq<real>, criticHead: seq<real>)

  /** The `trainable` flags of the two heads. */
  datatype Heads = Heads(actorTrainable: bool, criticTrainable: bool)

  /** An optimiser step proposes new values for every variable; a frozen head keeps its
      old ones, the shared trunk always takes the new ones. */
  function ApplyTrainable(current: Weights, proposed: Weights, heads: Heads): (w: Weights)
    ensures w.shared == proposed.shared
    ensures w.actorHead == if heads.actorTrainable then proposed.actorHead else current.actorHead
    ensures w.criticHead == if heads.criticTrainable then proposed.criticHead else current.criticHead
  {
    Weights(
      proposed.shared,
      if heads.actorTrainable then proposed.actorHead else current.actorHead,
      if heads.criticTrainable then proposed.criticHead else current.criticHead)
  }

  /** The actor update cannot move the critic head and the critic update cannot move the
      actor head; freezing both heads leaves only the trunk to change. */
  lemma FrozenHeadsAreKept(current: Weights, proposed: Weights)
    ensures ApplyTrainable(current, proposed, Heads(true, false)).criticHead == current.criticHead
    ensures ApplyTrainable(current, proposed, Heads(false, true)).actorHead == current.actorHead
    ensures ApplyTrainable(current, proposed, Heads(false, false))
            == Weights(proposed.shared, current.actorHead, current.criticHead)
  {
  }

  /** `calculateActorLoss`: −Σ logProbability[i]·V(observation[i]). */
  function ActorLoss(logProbabilities: seq<real>, vEstimates: seq<real>): real
    requires |logProbabilities| == |vEstimates|
  {
    -Util.Dot(logProbabilities, vEstimates)
  }

  /** Log-probabilities are at most 0, so non-negative value estimates make the actor
      loss non-negative; the loss of a rollout is the sum of the losses of its parts. */
  lemma ActorLossProperties(logProbabilities: seq<real>, vEstimates: seq<real>, k: nat)
    requires |logProbabilities| == |vEstimates| && k <= |vEstimates|
    ensures (forall i :: 0 <= i < |vEstimates| ==> logProbabilities[i] <= 0.0 && vEstimates[i] >= 0.0) ==>
      ActorLoss(logProbabilities, vEstimates) >= 0.0
    ensures ActorLoss(logProbabilities, vEstimates)
      == ActorLoss(logProbabilities[..k], vEstimates[..k]) + ActorLoss(logProbabilities[k..], vEstimates[k..])
  {
    if forall i :: 0 <= i < |vEstimates| ==> logProbabilities[i] <= 0.0 && vEstimates[i] >= 0.0 {
      Util.DotNonPositive(logProbabilities, vEstimates);
    }
    Util.DotAppend(logProbabilities[..k], vEstimates[..k], logProbabilities[k..], vEstimates[k..]);
    assert logProbabilities[..k] + logProbabilities[k..] == logProbabilities;
    assert vEstimates[..k] + vEstimates[k..] == vEstimates;
  }

  /** `calculateCriticLoss`: the mean squared error between the discounted, normalised
      returns and the value estimates. */
  function CriticLoss(discountedReturns: seq<real>, vEstimates: seq<real>): real
    requires |discountedReturns| == |vEstimates| > 0
  {
    Util.Mse(discountedReturns, vEstimates)
  }

  lemma CriticLossProperties(discountedReturns: seq<real>, vEstimates: seq<real>)
    requires |discountedReturns| == |vEstimates| > 0
    ensures CriticLoss(discountedReturns, vEstimates) >= 0.0
    ensures discountedReturns == vEstimates ==> CriticLoss(discountedReturns, vEstimates) == 0.0
  {
    Util.MseNonNegative(discountedReturns, vEstimates);
  }

  /** The observations `runEpisode` keeps during a rollout: the reset observation and
      then every observation the episode goes on from, i.e. the ones each step started
      from (`seen`) plus the latest one while not done. */
  ghost predicate Kept(kept: seq<Observation>, seen: seq<Observation>, observation: Observation, done: bool, first: Observation)
  {
    && kept == (if done then seen else seen + [observation])
    && |kept| >= 1 && kept[0] == first
  }

  /** One more step keeps the next observation exactly when the episode goes on. */
  lemma KeptSnoc(kept: seq<Observation>, seen: seq<Observation>, observation: Observation, first: Observation, sample: Sample)
    requires Kept(kept, seen, observation, false, first)
    ensures Kept(if sample.done then kept else kept + [sample.observation],
                 seen + [observation], sample.observation, sample.done, first)
  {
  }

  class ActorCritic {
    const options: ActorCriticOptions
    const numActions: nat
    const actorOutput: (Weights, Observation) -> seq<real>
    const criticOutput: (Weights, Observation) -> real
    const actorMinimize: (Weights, seq<Observation>) -> Weights
    const criticMinimize: (Weights, seq<Observation>, seq<real>) -> Weights
    const discountedNormalizedRewards: (seq<real>, real) -> seq<real>
    var weights: Weights
    var heads: Heads
    var steps: int

    ghost predicate Valid()
      reads this
    {
      && numActions > 0
      && (forall w, o :: |actorOutput(w, o)| == numActions)
      && (forall rs, g :: |discountedNormalizedRewards(rs, g)| == |rs|)
    }

    constructor (
      numActions: nat, options: ActorCriticOptions,
      actorOutput: (Weights, Observation) -> seq<real>, criticOutput: (Weights, Observation) -> real,
      actorMinimize: (Weights, seq<Observation>) -> Weights,
      criticMinimize: (Weights, seq<Observation>, seq<real>) -> Weights,
      discountedNormalizedRewards: (seq<real>, real) -> seq<real>,
      initialWeights: Weights)
      requires numActions > 0
      requires forall w, o :: |actorOutput(w, o)| == numActions
      requires forall rs, g :: |discountedNormalizedRewards(rs, g)| == |rs|
      ensures Valid()
      ensures this.options == options && this.numActions == numActions
      ensures this.actorOutput == actorOutput && this.criticOutput == criticOutput
      ensures this.actorMinimize == actorMinimize && this.criticMinimize == criticMinimize
      ensures this.discountedNormalizedRewards == discountedNormalizedRewards
      ensures weights == initialWeights && heads == Heads(true, true) && steps == 0
    {
      this.options := options;
      this.numActions := numActions;
      this.actorOutput := actorOutput;
      this.criticOutput := criticOutput;
      this.actorMinimize := actorMinimize;
      this.criticMinimize := criticMinimize;
      this.discountedNormalizedRewards := discountedNormalizedRewards;
      weights := initialWeights;
      heads := Heads(true, true);
      steps := 0;
    }

    /** The value estimates of a run of observations. */
    function VEstimates(observations: seq<Observation>): (vs: seq<real>)
      reads this
      ensures |vs| == |observations|
      ensures forall i :: 0 <= i < |observations| ==> vs[i] == criticOutput(weights, observations[i])
    {
      var w := weights;
      seq(|observations|, i requires 0 <= i < |observations| => criticOutput(w, observations[i]))
    }

    /** The critic's loss on a finished rollout, which is defined because the rollout
        keeps one observation per reward. */
    function CriticLossOf(observations: seq<Observation>, rewards: seq<real>): (loss: real)
      requires Valid() && |observations| == |rewards| > 0
      reads this
      ensures loss >= 0.0
    {
      var discounted := discountedNormalizedRewards(rewards, options.gamma);
      CriticLossProperties(discounted, VEstimates(observations));
      CriticLoss(discounted, VEstimates(observations))
    }

    /** `getSample`: draw an action from the actor's output and step the environment. */
    method GetSample(env: Environments.Environment, rng: Rng.Rng, observation: Observation)
      returns (action: nat, sample: Result<Sample>)
      requires Valid() && env.Valid()
      modifies env.Repr(), rng
      ensures env.Valid()
      ensures action < numActions
      ensures sample.Ok? ==> env.Budget() <= old(env.Budget())
      ensures sample.Ok? && !sample.value.done ==> env.Budget() < old(env.Budget())
    {
      var output := actorOutput(weights, observation);
      action := rng.Categorical(output);
      sample := env.Step(action);
    }

    /** One rollout step: both heads frozen, one more step counted, one sample drawn. */
    method FrozenStep(env: Environments.Environment, rng: Rng.Rng, observation: Observation)
      returns (action: nat, sample: Result<Sample>)
      requires Valid() && env.Valid()
      modifies this`heads, this`steps, env.Repr(), rng
      ensures Valid() && env.Valid()
      ensures heads == Heads(false, false) && steps == old(steps) + 1
      ensures action < numActions
      ensures sample.Ok? ==> env.Budget() <= old(env.Budget())
      ensures sample.Ok? && !sample.value.done ==> env.Budget() < old(env.Budget())
    {
      heads := Heads(false, false);
      steps := steps + 1;
      action, sample := GetSample(env, rng, observation);
    }

    /** The end of an episode: the actor is trained with the critic head frozen, then the
        critic with the actor head frozen. */
    method Learn(observations: seq<Observation>, rewards: seq<real>)
      modifies this`weights, this`heads
      ensures heads == Heads(false, true)
      ensures var afterActor := ApplyTrainable(old(weights), actorMinimize(old(weights), observations), Heads(true, false));
        weights == ApplyTrainable(afterActor, criticMinimize(afterActor, observations, rewards), Heads(false, true))
    {
      heads := Heads(true, false);
      weights := ApplyTrainable(weights, actorMinimize(weights, observations), heads);
      heads := Heads(false, true);
      weights := ApplyTrainable(weights, criticMinimize(weights, observations, rewards), heads);
    }

    /** The rollout of an episode. Every step freezes both heads and counts one step; an
        observation is kept only while the episode goes on, so the observations that start
        each step line up one-to-one with the rewards, the first of them being the
        observation `reset` returned. */
    method CollectRollout(env: Environments.Environment, rng: Rng.Rng)
      returns (result: Result<seq<real>>, kept: seq<Observation>, ghost first: Observation,
               ghost actions: seq<nat>, ghost samples: seq<Sample>)
      requires Valid() && env.Valid()
      modifies this`heads, this`steps, env.Repr(), rng
      ensures Valid() && env.Valid()
      ensures env.IsResetObservation(first)
      ensures |kept| >= 1 && kept[0] == first
      ensures |actions| == |samples| && ActionsBelow(actions, numActions)
      ensures result.Err? ==> heads == Heads(false, false) && steps == old(steps) + |samples| + 1
      ensures result.Ok? ==>
        && EndsAtFirstDone(samples)
        && |kept| == |samples|
        && (forall i :: 0 <= i < |samples| - 1 ==> kept[i + 1] == samples[i].observation)
        && steps == old(steps) + |samples|
        && heads == Heads(false, false)
        && result.value == Rewards(samples)
    {
      var observation := env.Reset(rng);
      first := observation;
      kept := [observation];
      var done := false;
      var rewards: seq<real> := [];
      ghost var seen: seq<Observation> := [];
      samples := [];
      actions := [];

      while !done
        invariant Valid() && env.Valid()
        invariant Rollout(seen, samples, observation, done) && rewards == Rewards(samples)
        invariant Kept(kept, seen, observation, done, first)
        invariant |actions| == |samples| && ActionsBelow(actions, numActions)
        invariant steps == old(steps) + |samples|
        invariant |samples| > 0 ==> heads == Heads(false, false)
        decreases (if done then 0 else 1) + env.Budget()
      {
        var action, sample := FrozenStep(env, rng, observation);
        if sample.Err? {
          return Err(sample.error), kept, first, actions, samples;
        }
        RolloutSnoc(seen, samples, observation, sample.value);
        KeptSnoc(kept, seen, observation, first, sample.value);
        ActionsBelowSnoc(actions, action, numActions);
        seen, samples := seen + [observation], samples + [sample.value];
        actions := actions + [action];
        if !sample.value.done {
          kept := kept + [sample.value.observation];
        }
        rewards := rewards + [sample.value.reward];
        observation, done := sample.value.observation, sample.value.done;
      }

      RolloutEnds(seen, samples, observation);
      return Ok(rewards), kept, first, actions, samples;
    }

    /** One episode: the rollout, then the actor trained with the critic head frozen and
        the critic with the actor head frozen. Returns the sum of the rewards. */
    method RunEpisode(env: Environments.Environment, rng: Rng.Rng)
      returns (result: Result<real>, ghost first: Observation, ghost observations: seq<Observation>,
               ghost actions: seq<nat>, ghost samples: seq<Sample>)
      requires Valid() && env.Valid()
      modifies this, env.Repr(), rng
      ensures Valid() && env.Valid()
      ensures env.IsResetObservation(first)
      ensures |observations| >= 1 && observations[0] == first
      ensures |actions| == |samples| && ActionsBelow(actions, numActions)
      ensures result.Err? ==> heads == Heads(false, false) && weights == old(weights)
      ensures result.Err? ==> steps == old(steps) + |samples| + 1
      ensures result.Ok? ==>
        && EndsAtFirstDone(samples)
        && |observations| == |samples|
        && (forall i :: 0 <= i < |samples| - 1 ==> observations[i + 1] == samples[i].observation)
        && steps == old(steps) + |samples|
        && heads == Heads(false, true)
        && result.value == Util.Sum(Rewards(samples))
        && var afterActor := ApplyTrainable(old(weights), actorMinimize(old(weights), observations), Heads(true, false));
           weights == ApplyTrainable(afterActor, criticMinimize(afterActor, observations, Rewards(samples)), Heads(false, true))
    {
      var rollout, kept;
      rollout, kept, first, actions, samples := CollectRollout(env, rng);
      observations := kept;
      if rollout.Err? {
        return Err(rollout.error), first, observations, actions, samples;
      }
      Learn(kept, rollout.value);
      return Ok(Util.Sum(rollout.value)), first, observations, actions, samples;
    }
  }
}
