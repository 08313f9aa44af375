/** The `Agent` interface of `src/agents/core.ts`, closed over the four agents the harness
    can build. Each variant wraps one agent object; `runEpisode` dispatches to it. */
module Agents {
  import opened Wrappers
  import Util
  import Core
  import Rng
  import Environments
  import DQN
  import Reinforce
  import ActorCritic
  import RandomAgent

  /** `total` is what an agent returns for `samples`: they form an episode, and `total`
      is the sum of their raw rewards. */
  ghost predicate EpisodeReturn(samples: seq<Core.Sample>, total: real)
  {
    Core.EndsAtFirstDone(samples) && total == Util.Sum(Core.Rewards(samples))
  }

  datatype Agent =
    | DQNAgent(dqn: DQN.DQN)
    | ReinforceAgent(reinforce: Reinforce.Reinforce)
    | ActorCriticAgent(actorCritic: ActorCritic.ActorCritic)
    | RandomAgent(random: RandomAgent.Random)
  {
    /** The objects an episode may change: the agent, and for DQN its replay memory. */
    ghost function Repr(): set<object>
    {
      match this
      case DQNAgent(a) => {a, a.memory}
      case ReinforceAgent(a) => {a}
      case ActorCriticAgent(a) => {a}
      case RandomAgent(a) => {a}
    }

    ghost predicate Valid()
      reads Repr()
    {
      match this
      case DQNAgent(a) => a.Valid()
      case ReinforceAgent(a) => a.Valid()
      case ActorCriticAgent(a) => a.Valid()
      case RandomAgent(a) => a.Valid()
    }

    function Name(): string
    {
      match this
      case DQNAgent(_) => "DQN"
      case ReinforceAgent(_) => "Reinforce"
      case ActorCriticAgent(_) => "ActorCritic"
      case RandomAgent(a) => a.Name()
    }

    /** One episode of whichever agent this is: a non-empty run of environment samples
        that ends at its first `done`, whose raw rewards the agent returns summed. No agent
        takes the warmup flag that the training loop passes, so it is not a parameter
        here. */
    method RunEpisode(env: Environments.Environment, rng: Rng.Rng)
      returns (result: Result<real>, ghost samples: seq<Core.Sample>)
      requires Valid() && env.Valid()
      modifies Repr(), env.Repr(), rng
      ensures Valid() && env.Valid()
      ensures result.Ok? ==> EpisodeReturn(samples, result.value)
    {
      match this
      case DQNAgent(a) =>
        ghost var first, trace;
        result, first, trace := a.RunEpisode(env, rng);
        samples := DQN.BaseSamples(trace);
      case ReinforceAgent(a) =>
        ghost var first, observations, actions;
        result, first, observations, actions, samples := a.RunEpisode(env, rng);
      case ActorCriticAgent(a) =>
        ghost var first, observations, actions;
        result, first, observations, actions, samples := a.RunEpisode(env, rng);
      case RandomAgent(a) =>
        ghost var actions;
        result, actions, samples := a.RunEpisode(env, rng);
    }
  }
}
