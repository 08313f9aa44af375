/** The `Environment` interface of `src/environments/core.ts`, closed over the three
    environments the harness can build. Each variant wraps one environment object. */
module Environments {
  import opened Wrappers
  import opened Core
  import Rng
  import Blackjack
  import CartPole
  import MountainCar

  datatype Environment =
    | BlackjackEnv(blackjack: Blackjack.Blackjack)
    | CartPoleEnv(cartPole: CartPole.CartPole)
    | MountainCarEnv(mountainCar: MountainCar.MountainCar)
  {
    ghost function Repr(): set<object>
    {
      match this
      case BlackjackEnv(e) => {e}
      case CartPoleEnv(e) => {e}
      case MountainCarEnv(e) => {e}
    }

    ghost predicate Valid()
      reads Repr()
    {
      match this
      case BlackjackEnv(e) => e.Valid()
      case CartPoleEnv(e) => e.Valid()
      case MountainCarEnv(e) => e.Valid()
    }

    function Name(): (name: string)
      ensures BlackjackEnv? ==> name == "Blackjack"
      ensures CartPoleEnv? ==> name == "CartPole"
      ensures MountainCarEnv? ==> name == "MountainCar"
    {
      match this
      case BlackjackEnv(e) => e.Name()
      case CartPoleEnv(e) => e.Name()
      case MountainCarEnv(e) => e.Name()
    }

    /** Blackjack declares no winning score. */
    function WinningScore(): (score: Option<real>)
      ensures score.None? <==> BlackjackEnv?
      ensures CartPoleEnv? ==> score == Some(195.0)
      ensures MountainCarEnv? ==> score == Some(-140.0)
    {
      match this
      case BlackjackEnv(_) => None
      case CartPoleEnv(e) => Some(e.WinningScore())
      case MountainCarEnv(e) => Some(e.WinningScore())
    }

    function NumObservationDimensions(): (n: nat)
      ensures n == if BlackjackEnv? then 3 else if CartPoleEnv? then 4 else 2
    {
      match this
      case BlackjackEnv(e) => e.NumObservationDimensions()
      case CartPoleEnv(e) => e.NumObservationDimensions()
      case MountainCarEnv(e) => e.NumObservationDimensions()
    }

    function NumActions(): (n: nat)
      ensures n == if MountainCarEnv? then 3 else 2
    {
      match this
      case BlackjackEnv(e) => e.NumActions()
      case CartPoleEnv(e) => e.NumActions()
      case MountainCarEnv(e) => e.NumActions()
    }

    /** A measure that every successful step not ending the episode strictly lowers:
        the cards left in the Blackjack deck, or the steps left before the step cap. */
    ghost function Budget(): nat
      reads Repr()
    {
      match this
      case BlackjackEnv(e) => |e.deck|
      case CartPoleEnv(e) => if e.steps < CartPole.MaxEpisodeLength then CartPole.MaxEpisodeLength - e.steps else 0
      case MountainCarEnv(e) =>
        if e.steps < MountainCar.MaxEpisodeLength then MountainCar.MaxEpisodeLength - e.steps else 0
    }

    /** What `reset` can return: a fresh two-card deal, a cart-pole state in the reset
        ranges, or a car at rest in the starting range. */
    predicate IsResetObservation(o: Observation)
    {
      match this
      case BlackjackEnv(_) => Blackjack.IsDealtObservation(o)
      case CartPoleEnv(_) => CartPole.IsResetObservation(o)
      case MountainCarEnv(_) => MountainCar.IsResetObservation(o)
    }

    method Reset(rng: Rng.Rng) returns (observation: Observation)
      requires Valid()
      modifies Repr(), rng
      ensures Valid()
      ensures |observation| == NumObservationDimensions()
      ensures IsResetObservation(observation)
    {
      match this
      case BlackjackEnv(e) =>
        observation := e.Reset(rng);
      case CartPoleEnv(e) =>
        observation := e.Reset(rng);
      case MountainCarEnv(e) =>
        observation := e.Reset(rng);
    }

    method Step(action: int) returns (result: Result<Sample>)
      requires Valid()
      modifies Repr()
      ensures Valid()
      ensures result.Ok? ==> |result.value.observation| == NumObservationDimensions()
      ensures result.Ok? ==> Budget() <= old(Budget())
      ensures result.Ok? && !result.value.done ==> Budget() < old(Budget())
    {
      match this
      case BlackjackEnv(e) =>
        result := e.Step(action);
      case CartPoleEnv(e) =>
        result := e.Step(action);
      case MountainCarEnv(e) =>
        result := e.Step(action);
    }
  }
}
