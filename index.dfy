/** The factories of `src/index.ts`: environment names and agent names are mapped to
    objects, and the per-agent options tables are looked up by the environment's own
    name. The options tables themselves are a parameter; agent construction needs network
    oracles and is represented by the agent kind chosen. */
module Index {
  import opened Wrappers
  import Environments
  import Blackjack
  import CartPole
  import MountainCar
  import Training

  const EnvironmentNameNotRecognised := "Environment name not recognised"
  const AgentNameNotRecognised := "Agent name not recognised"

  /** The names `main` falls back to when no command-line argument is given. */
  const DefaultAgentName := "reinforce"
  const DefaultEnvironmentName := "cartpole"

  datatype EnvironmentKind = BlackjackKind | CartPoleKind | MountainCarKind

  datatype AgentKind = ActorCriticKind | DQNKind | RandomKind | ReinforceKind

  /** The switch of `createEnvironment`: exactly three names are recognised. */
  function EnvironmentKindOf(name: string): (r: Result<EnvironmentKind>)
    ensures r.Ok? <==> name == "blackjack" || name == "cart-pole" || name == "mountain-car"
    ensures r == Ok(BlackjackKind) <==> name == "blackjack"
    ensures r == Ok(CartPoleKind) <==> name == "cart-pole"
    ensures r == Ok(MountainCarKind) <==> name == "mountain-car"
    ensures r.Err? ==> r.error == EnvironmentNameNotRecognised
  {
    if name == "blackjack" then Ok(BlackjackKind)
    else if name == "cart-pole" then Ok(CartPoleKind)
    else if name == "mountain-car" then Ok(MountainCarKind)
    else Err(EnvironmentNameNotRecognised)
  }

  /** `createEnvironment`: a fresh environment of the named kind, in its initial state,
      or the error for an unknown name. Blackjack is built without the natural bonus. */
  method CreateEnvironment(name: string, cos: real -> real, sin: real -> real)
    returns (result: Result<Environments.Environment>)
    requires forall t :: -1.0 <= cos(t) <= 1.0
    ensures result.Ok? <==> EnvironmentKindOf(name).Ok?
    ensures result.Err? ==> result.error == EnvironmentNameNotRecognised
    ensures result.Ok? ==> result.value.Valid() && fresh(result.value.Repr())
    ensures result.Ok? && EnvironmentKindOf(name).value == BlackjackKind ==>
      result.value.BlackjackEnv? && !result.value.blackjack.natural && result.value.blackjack.done
    ensures result.Ok? && EnvironmentKindOf(name).value == CartPoleKind ==>
      result.value.CartPoleEnv? && result.value.cartPole.done && result.value.cartPole.cos == cos
    ensures result.Ok? && EnvironmentKindOf(name).value == MountainCarKind ==>
      result.value.MountainCarEnv? && result.value.mountainCar.done && result.value.mountainCar.cos == cos
  {
    var kind := EnvironmentKindOf(name);
    if kind.Err? {
      return Err(kind.error);
    }
    match kind.value
    case BlackjackKind =>
      var e := new Blackjack.Blackjack(false);
      result := Ok(Environments.BlackjackEnv(e));
    case CartPoleKind =>
      var e := new CartPole.CartPole(cos, sin);
      result := Ok(Environments.CartPoleEnv(e));
    case MountainCarKind =>
      var e := new MountainCar.MountainCar(cos);
      result := Ok(Environments.MountainCarEnv(e));
  }

  /** `process.argv[2] ?? "reinforce"` and `process.argv[3] ?? "cartpole"`. */
  function CommandLineNames(argv: seq<string>): (names: (string, string))
    ensures |argv| > 2 ==> names.0 == argv[2]
    ensures |argv| <= 2 ==> names.0 == DefaultAgentName
    ensures |argv| > 3 ==> names.1 == argv[3]
    ensures |argv| <= 3 ==> names.1 == DefaultEnvironmentName
  {
    (if |argv| > 2 then argv[2] else DefaultAgentName,
     if |argv| > 3 then argv[3] else DefaultEnvironmentName)
  }

  /** The default environment name is spelt without the hyphen that `createEnvironment`
      expects, so a run without an environment argument fails at once. */
  lemma DefaultEnvironmentIsRejected(argv: seq<string>)
    requires |argv| <= 3
    ensures EnvironmentKindOf(CommandLineNames(argv).1) == Err(EnvironmentNameNotRecognised)
  {
    assert DefaultEnvironmentName != "cart-pole" by {
      assert |DefaultEnvironmentName| != |"cart-pole"|;
    }
  }

  /** The switch of `createAgentAndGetOptions` over agent names. */
  function AgentKindOf(name: string): (r: Result<AgentKind>)
    ensures r.Ok? <==> name == "actor-critic" || name == "dqn" || name == "random" || name == "reinforce"
    ensures r == Ok(ActorCriticKind) <==> name == "actor-critic"
    ensures r == Ok(DQNKind) <==> name == "dqn"
    ensures r == Ok(RandomKind) <==> name == "random"
    ensures r == Ok(ReinforceKind) <==> name == "reinforce"
    ensures r.Err? ==> r.error == AgentNameNotRecognised
  {
    if name == "actor-critic" then Ok(ActorCriticKind)
    else if name == "dqn" then Ok(DQNKind)
    else if name == "random" then Ok(RandomKind)
    else if name == "reinforce" then Ok(ReinforceKind)
    else Err(AgentNameNotRecognised)
  }

  function OptionsNotSpecified(agentName: string, environmentName: string): string
  {
    "Options not specified for " + agentName + " in " + environmentName
  }

  /** `verifyOptions`: a missing table entry is an error naming the pair; a present one
      passes through. */
  function VerifyOptions<T>(agentOptions: Option<T>, agentName: string, environmentName: string): (r: Result<T>)
    ensures r.Ok? <==> agentOptions.Some?
    ensures r.Ok? ==> r.value == agentOptions.value
    ensures r.Err? ==> r.error == OptionsNotSpecified(agentName, environmentName)
  {
    match agentOptions
    case Some(o) => Ok(o)
    case None => Err(OptionsNotSpecified(agentName, environmentName))
  }

  /** The options table entry of an agent kind for an environment name, if any. */
  function Lookup(table: AgentKind -> map<string, Training.TrainingOptions>, kind: AgentKind, environmentName: string)
    : Option<Training.TrainingOptions>
  {
    if environmentName in table(kind) then Some(table(kind)[environmentName]) else None
  }

  /** `createAgentAndGetOptions`: an unknown agent name is an error; otherwise the agent
      kind's table must have an entry under the environment's name, whose training
      options are returned with the kind. */
  function CreateAgentAndGetOptions(
    agentName: string, environmentName: string, table: AgentKind -> map<string, Training.TrainingOptions>)
    : (r: Result<(AgentKind, Training.TrainingOptions)>)
    ensures AgentKindOf(agentName).Err? ==> r == Err(AgentNameNotRecognised)
    ensures AgentKindOf(agentName).Ok? ==>
      var kind := AgentKindOf(agentName).value;
      && (r.Ok? <==> environmentName in table(kind))
      && (r.Ok? ==> r.value == (kind, table(kind)[environmentName]))
      && (r.Err? ==> r.error == OptionsNotSpecified(agentName, environmentName))
  {
    var kind :- AgentKindOf(agentName);
    var options :- VerifyOptions(Lookup(table, kind, environmentName), agentName, environmentName);
    Ok((kind, options))
  }

  /** The environment names that have an entry in each agent's options table. */
  predicate HasOptions(kind: AgentKind, environmentName: string)
  {
    match kind
    case ActorCriticKind => environmentName == "Blackjack" || environmentName == "CartPole"
    case _ => environmentName == "Blackjack" || environmentName == "CartPole" || environmentName == "MountainCar"
  }

  /** With the shipped tables, the actor-critic agent cannot be trained on MountainCar,
      while every other recognised pair is accepted. */
  lemma ShippedTablesCoverage(table: AgentKind -> map<string, Training.TrainingOptions>, env: Environments.Environment)
    requires forall kind, name :: name in table(kind) <==> HasOptions(kind, name)
    ensures CreateAgentAndGetOptions("actor-critic", env.Name(), table).Ok? <==> !env.MountainCarEnv?
    ensures CreateAgentAndGetOptions("dqn", env.Name(), table).Ok?
    ensures CreateAgentAndGetOptions("random", env.Name(), table).Ok?
    ensures CreateAgentAndGetOptions("reinforce", env.Name(), table).Ok?
  {
    assert HasOptions(ActorCriticKind, env.Name()) <==> !env.MountainCarEnv?;
  }
}
