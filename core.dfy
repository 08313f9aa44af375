/** The agent/environment data model of `src/environments/core.ts` and `src/replay-memory.ts`. */
module Core {

  /** A fixed-length numeric vector; its length is the environment's. */
  type Observation = seq<real>

  /** The result of one `step`. */
  datatype Sample = Sample(observation: Observation, reward: real, done: bool)

  /** The unit stored in replay memory. */
  datatype Transition = Transition(
    observation: Observation,
    action: nat,
    reward: real,
    done: bool,
    nextObservation: Observation)

  /** The rewards of a run of samples, in order. */
  function Rewards(samples: seq<Sample>): (rs: seq<real>)
    ensures |rs| == |samples|
    ensures forall i :: 0 <= i < |samples| ==> rs[i] == samples[i].reward
  {
    seq(|samples|, i requires 0 <= i < |samples| => samples[i].reward)
  }

  /** Every action of a run is one of the environment's `numActions` actions. */
  predicate ActionsBelow(actions: seq<nat>, numActions: nat)
  {
    forall i :: 0 <= i < |actions| ==> actions[i] < numActions
  }

  lemma ActionsBelowSnoc(actions: seq<nat>, action: nat, numActions: nat)
    requires ActionsBelow(actions, numActions) && action < numActions
    ensures ActionsBelow(actions + [action], numActions)
  {
  }

  /** An episode: a non-empty run of samples whose first `done` is its last one. */
  ghost predicate EndsAtFirstDone(samples: seq<Sample>)
  {
    && |samples| > 0
    && samples[|samples| - 1].done
    && forall i :: 0 <= i < |samples| - 1 ==> !samples[i].done
  }

  /** A rollout in progress: each step was taken from the observation the previous step
      returned, `observation` is the latest one, `done` is the last sample's flag, and no
      earlier sample was done. */
  ghost predicate Rollout(observations: seq<Observation>, samples: seq<Sample>, observation: Observation, done: bool)
  {
    && |observations| == |samples|
    && (forall i :: 0 <= i < |samples| - 1 ==> observations[i + 1] == samples[i].observation)
    && (|samples| > 0 ==> observation == samples[|samples| - 1].observation)
    && (done <==> |samples| > 0 && samples[|samples| - 1].done)
    && (forall i :: 0 <= i < |samples| - 1 ==> !samples[i].done)
  }

  /** Taking one more step from the latest observation of a rollout that is not done. */
  lemma RolloutSnoc(observations: seq<Observation>, samples: seq<Sample>, observation: Observation, sample: Sample)
    requires Rollout(observations, samples, observation, false)
    ensures Rollout(observations + [observation], samples + [sample], sample.observation, sample.done)
    ensures Rewards(samples + [sample]) == Rewards(samples) + [sample.reward]
  {
  }

  /** A finished rollout is an episode. */
  lemma RolloutEnds(observations: seq<Observation>, samples: seq<Sample>, observation: Observation)
    requires Rollout(observations, samples, observation, true)
    ensures EndsAtFirstDone(samples)
  {
  }
}
