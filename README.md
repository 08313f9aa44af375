# ts-rl in Dafny

A Dafny model of the reinforcement-learning harness `ts-rl`: the three environments
(Blackjack, CartPole with its older stand-alone variant, MountainCar), the experience
replay buffer, the control logic of the four agents (DQN, REINFORCE, actor-critic and the
random baseline), the training loop with its rolling average and win test, and the
factories of the command-line entry point.

Everything TensorFlow does is an oracle. Network outputs, optimiser steps, `log`, the
square root behind `tf.moments`, and the processing hooks of the environments are
function-typed constants handed to the constructors. `Math.cos` and `Math.sin` are oracles
too; the only fact used about them is that the cosine lies in [-1, 1].

Randomness comes from one `Rng.Rng` object, shared like the process-wide seeded
`Math.random`. Callers rely only on the ranges it guarantees. Exceptions become
`Result.Err` values carrying the source's messages.

Each source file is one module:

| module | file | form |
|---|---|---|
| `Blackjack` | `src/environments/blackjack.ts` | pure scoring functions; Fisher–Yates over an array; class with `deck`, `player`, `dealer`, `done` |
| `CartPole` | `src/environments/cart-pole.ts` | pure Euler step; class with `steps`, `done`, `state` |
| `LegacyCartPole` | `src/cart-pole.ts` | class with `done`, `state`, reusing the `CartPole` physics |
| `MountainCar` | `src/environments/mountain-car.ts` | pure step; class with `steps`, `done`, `state` |
| `Environments` | `src/environments/core.ts` | the `Environment` interface as a datatype over the three classes |
| `ReplayMemory` | `src/replay-memory.ts` | pure `slice` semantics; class whose `transitions` field `store` reassigns |
| `DQN` | `src/agents/dqn.ts` | pure targets, loss and ε schedule; class with `epsilon`, `steps`, both weight vectors and a replay memory |
| `Reinforce` | `src/agents/reinforce.ts` | pure returns-to-go and normalisation; class whose episode loop ends in one optimiser step |
| `ActorCritic` | `src/agents/actor-critic.ts` | class with `weights`, the heads' `trainable` flags and `steps` |
| `RandomAgent` | `src/agents/random.ts` | class with an episode loop |
| `Agents` | `src/agents/core.ts` | the `Agent` interface as a datatype over the four classes |
| `Training` | `src/train.ts`, `src/index.ts` | the episode loops of `train` |
| `Index` | `src/index.ts` | name switches and option lookup |
| `Core`, `Util`, `Rng`, `Wrappers` | shared | samples, transitions, sums, means, clipping, the random source, `Option`/`Result` |

Behaviour the model keeps exactly as written, with the lemmas that pin it down:

- `normalizeRewards` computes `reward - mean / (std + ε)` because of operator precedence.
  That is one constant shift for every element, with no scaling
  (`Reinforce.NormalizeRewardsShiftsOnly`, `Reinforce.NormalizeRewardsMean`).
- MountainCar's `step` computes `done` in a local and never stores it. After a reset,
  "Env is done" can no longer occur (`MountainCar.MountainCar.Step` keeps `done`).
- Blackjack's `step` never writes `done` either. The field is true only before the first
  reset, and any non-zero action, negative ones included, is a hit.
- A replay capacity of 0 keeps every transition, because `slice(-0)` is `slice(0)`. A
  negative capacity drops transitions from the front.
- `main` defaults the environment name to "cartpole", which `createEnvironment` does not
  recognise (`Index.DefaultEnvironmentIsRejected`).
- The actor-critic options table has no MountainCar entry (`Index.ShippedTablesCoverage`).
- The DQN constructor blends the target network with `tau` once instead of copying it.
- The comment on `targetNetworkUpdatePeriod` (src/agents/dqn.ts:17) says that period 1
  keeps the two networks equal at all times. That holds only when `tau` is 1 as well:
  then the networks start equal and stay equal after every learning step
  (`DQN.DQN.RunEpisode`). With any other `tau` a synchronisation leaves the target short
  of the Q-network wherever they differ (`DQN.PartialBlendLags`). The shipped tables use
  period 1 with tau 0.5 and 0.9.
- The shipped DQN tables in `src/options.ts` give no `warmup`, although `DQNOptions`
  declares one. In JavaScript `steps < undefined` and `steps >= undefined` are both false.
  With those tables DQN therefore never counts as warming up, never learns and never
  synchronises its target network. The model takes `warmup` as an integer and does not
  represent the missing value.
- The TD target uses the value of the action that was taken, not the best action.
- The rolling average always covers the last 100 returns, whatever `rollingAveragePeriod`
  says.
- The `train` of `src/index.ts` pushes into arrays where `src/train.ts` rebinds them. Both
  are modelled by `Training.Train`.

## Model

| member | source | states |
|---|---|---|
| `Blackjack.UnshuffledDeckComposition` | src/environments/blackjack.ts:13-15 | the unshuffled deck has 52 cards: four each of 1 to 9 and sixteen 10s |
| `Blackjack.SumHandIsBestCount` | src/environments/blackjack.ts:17-21 | for every way of counting at most the hand's aces as 11 without passing 21, `sumHand` is at least that count and at most 21; it is the raw sum, or the raw sum + 10 when there is an ace |
| `Blackjack.BustIffTotalOver21` | src/environments/blackjack.ts:17-23 | a hand is bust exactly when its raw sum exceeds 21; with a usable ace its value lies in [11, 21] |
| `Blackjack.ScoreHandRange` | src/environments/blackjack.ts:23-25 | the score is 0 when the value exceeds 21 and the value otherwise, so it lies in [0, 21]; a non-empty hand scores 0 exactly when bust |
| `Blackjack.CompareHandsSign` | src/environments/blackjack.ts:27-31 | the comparison is -1, 0 or 1, is 1/0 exactly when the first score is larger/equal, and is antisymmetric |
| `Blackjack.NaturalIsTwentyOne` | src/environments/blackjack.ts:33-34 | a natural is [1, 10] or [10, 1], has a usable ace and is worth 21 |
| `Blackjack.ScoringExamples` | src/environments/blackjack.ts:17-25 | [1, 10] is 21 with a usable ace; [10, 10, 5] is 25, bust, and scores 0 |
| `Blackjack.StandRewardValues` | src/environments/blackjack.ts:93-95 | the stand reward is -1, 0, 1 or 1.5; it is 1.5 exactly for a winning natural with the option on, and 1 for any other win |
| `Blackjack.FisherYates` | src/environments/blackjack.ts:36-43 | the shuffle returns a permutation of its input (same length, same multiset); the input is a value and is left as it was |
| `Blackjack.Floor` | src/environments/blackjack.ts:39 | `Math.floor(Math.random() * n)` is an index below n |
| `Blackjack.Blackjack.constructor` | src/environments/blackjack.ts:60-70 | a new game is done, with an empty deck and empty hands |
| `Blackjack.Blackjack.DrawCard` | src/environments/blackjack.ts:80-87 | an empty deck gives "Not enough cards" and is left alone; otherwise the top card is returned and removed |
| `Blackjack.Blackjack.DrawHand` | src/environments/blackjack.ts:89-91 | with two cards left, the top two form the hand and leave the deck |
| `Blackjack.TwoCardValue` | src/environments/blackjack.ts:17-21 | a two-card hand is worth between 4 and 21, so a fresh deal is never bust |
| `Blackjack.Blackjack.Reset` | src/environments/blackjack.ts:97-103 | after a reset the hands hold two cards each, 48 cards remain, the game is not done, the 52 cards are conserved and the observation is the state: a player value in 4..21, the dealer's up card and a 0/1 ace flag |
| `Blackjack.Blackjack.Hit` | src/environments/blackjack.ts:113-127 | a hit adds exactly the top card to the player's hand and yields (-1, done) when bust, else (0, not done); an empty deck is an error |
| `Blackjack.Blackjack.Stand` | src/environments/blackjack.ts:129-140 | the dealer draws top cards while below 17; on success the dealer has at least 17 and the sample is done with the stand reward; running out of cards is an error |
| `Blackjack.Blackjack.Step` | src/environments/blackjack.ts:105-141 | action ≥ 2 and a finished game are errors that change nothing; any other non-zero action hits, 0 stands; `done` is never written; the deck never grows and shrinks on every step that does not end the game |
| `CartPole.Force` | src/environments/cart-pole.ts:72 | action 1 pushes with +10, every other action with -10 |
| `CartPole.ThetaDenominator` | src/environments/cart-pole.ts:80-81 | the angular-acceleration denominator is positive for every cosine in [-1, 1] |
| `CartPole.Next` | src/environments/cart-pole.ts:86-89 | explicit Euler: the new position and angle advance by the pre-step velocities |
| `CartPole.NextIsMirrorSymmetric` | src/environments/cart-pole.ts:71-89 | pushing the mirrored cart the other way yields the mirrored next state |
| `CartPole.OutOfBoundsIsMirrorSymmetric` | src/environments/cart-pole.ts:93-98 | the failure test is unchanged by mirroring the state |
| `CartPole.ResetStateIsInBounds` | src/environments/cart-pole.ts:51-55 | a state drawn in the reset ranges never fails the position/angle test |
| `CartPole.DrawInitialState` | src/environments/cart-pole.ts:52-55 | the four reset draws land in their ranges |
| `CartPole.CartPole.constructor` | src/environments/cart-pole.ts:25-49 | the environment starts done, at step 0, in the zero state |
| `CartPole.CartPole.Reset` | src/environments/cart-pole.ts:51-61 | a reset sets steps to 0 and done to false, draws a state in the reset ranges and returns it, so the observation lies in those ranges |
| `CartPole.CartPole.Step` | src/environments/cart-pole.ts:63-105 | action ≥ 2 and a finished episode are errors that change nothing; otherwise one more step, the Euler update with force ±10, done exactly at 200 steps or out of bounds, reward 1, and the returned done equals the stored one |
| `LegacyCartPole.LegacyCartPole.constructor` | src/cart-pole.ts:26-43 | construction ends with a reset, so the first step is allowed |
| `LegacyCartPole.LegacyCartPole.Reset` | src/cart-pole.ts:45-54 | a reset clears done and draws a state in the reset ranges |
| `LegacyCartPole.LegacyCartPole.Step` | src/cart-pole.ts:56-93 | only a finished episode is an error; any action is accepted; same Euler update; done is only the position/angle test; reward 1 |
| `MountainCar.Push` | src/environments/mountain-car.ts:75 | actions 0, 1, 2 push with -0.001, 0, +0.001 |
| `MountainCar.Next` | src/environments/mountain-car.ts:72-80 | the new speed lies in [-0.07, 0.07] and the position in [-1.2, 0.6]; at the left wall the speed is 0, elsewhere it is the clipped speed |
| `MountainCar.Reward` | src/environments/mountain-car.ts:84-86 | the reward is 0 exactly at the flag (position ≥ 0.5) and -1 elsewhere |
| `MountainCar.ProcessSample` | src/environments/mountain-car.ts:95-97 | `processSample` returns its sample unchanged |
| `MountainCar.MountainCar.constructor` | src/environments/mountain-car.ts:25-46 | the environment starts done at the origin |
| `MountainCar.MountainCar.Reset` | src/environments/mountain-car.ts:48-58 | a reset puts the car at rest in [-0.6, -0.4] with steps 0 and done false, and returns that position with velocity 0 |
| `MountainCar.MountainCar.ResetProcessed` | src/environments/mountain-car.ts:60-62 | `resetProcessed` has the same effect and result as `reset` |
| `MountainCar.MountainCar.Step` | src/environments/mountain-car.ts:64-93 | actions outside 0..2 and a finished episode are errors that change nothing; otherwise one more step, the clipped move, the flag reward, and a returned done of 1000 steps or the flag, while the stored done never changes |
| `Environments.Environment.Name` | src/environments/core.ts:10 | the names are "Blackjack", "CartPole" and "MountainCar" |
| `Environments.Environment.WinningScore` | src/environments/core.ts:11 | Blackjack has no winning score, CartPole 195 and MountainCar -140 |
| `Environments.Environment.NumObservationDimensions` | src/environments/core.ts:12 | observations have 3, 4 and 2 dimensions |
| `Environments.Environment.NumActions` | src/environments/core.ts:13 | MountainCar has 3 actions, the others 2 |
| `Environments.Environment.Reset` | src/environments/core.ts:14 | a reset returns an observation of the environment's dimension that its own `reset` can produce: a fresh deal, a cart-pole state in the reset ranges, or a car at rest in the starting range |
| `Environments.Environment.Step` | src/environments/core.ts:15 | a successful step returns an observation of the environment's dimension and never raises the remaining budget, which it lowers unless the sample is done |
| `ReplayMemory.StoredKeepsLast` | src/replay-memory.ts:25-27 | with capacity ≥ 1, storing keeps the last `capacity` of buffer + [t], so the size becomes min(size + 1, capacity) and t is last |
| `ReplayMemory.StoredWithZeroCapacityKeepsAll` | src/replay-memory.ts:26 | with capacity 0 nothing is ever evicted |
| `ReplayMemory.StoredWithNegativeCapacityDropsFront` | src/replay-memory.ts:26 | with a negative capacity the oldest `-capacity` entries are dropped from the front |
| `ReplayMemory.StoredElements` | src/replay-memory.ts:26 | whatever the capacity, the buffer holds only old entries and the new one |
| `ReplayMemory.StoredAllKeepsMostRecent` | src/replay-memory.ts:26 | FIFO eviction: after any run of stores the buffer is exactly the most recent `capacity` transitions in insertion order |
| `ReplayMemory.ReplayMemory.constructor` | src/replay-memory.ts:16-19 | a new buffer is empty with the given capacity |
| `ReplayMemory.ReplayMemory.Size` | src/replay-memory.ts:21-23 | the size is the number of stored transitions |
| `ReplayMemory.ReplayMemory.Store` | src/replay-memory.ts:25-27 | storing sets the buffer to `[...buffer, t].slice(-capacity)` |
| `ReplayMemory.ReplayMemory.Sample` | src/replay-memory.ts:29-50 | a sample of n ≤ size has exactly n transitions and is a sub-multiset of the buffer, so no entry is drawn twice; only the random source is modified, so the buffer is left as it was |
| `DQN.BlendExtremes` | src/agents/dqn.ts:85-93 | tau 1 copies the Q-network and tau 0 keeps the target |
| `DQN.BlendIsBetween` | src/agents/dqn.ts:85-93 | for tau in [0, 1] each blended weight lies between the two weights it mixes |
| `DQN.NextEpsilonBounds` | src/agents/dqn.ts:99-104 | the decayed ε is at least the minimum, is the minimum or ε·decay, and does not grow when decay ≤ 1 and ε ≥ max(0, minimum) |
| `DQN.ArgMax` | src/agents/dqn.ts:113 | the greedy action is the first index of a largest Q value |
| `DQN.Targets` | src/agents/dqn.ts:116-139 | one target per transition: the reward of a terminal transition, otherwise reward + γ·targetQ(next)[action taken] |
| `DQN.LossBounds` | src/agents/dqn.ts:141-163 | the loss is the MSE unclipped and at most 1 when clipped, never negative, the MSE itself when that is at most 1, and 0 on perfect predictions |
| `DQN.PartialBlendLags` | src/agents/dqn.ts:17 | with any tau other than 1 a synchronisation leaves the target different from the Q-network wherever the two differed, so period 1 alone does not keep them equal |
| `DQN.MountainCarHookKeepsDone` | src/environments/mountain-car.ts:95-97 | MountainCar's `processSample` keeps `done`, as the DQN requires of its processing hook |
| `DQN.BaseSamples` | src/agents/dqn.ts:189-212 | the environment's own samples of an episode, whose rewards are the base rewards the episode sums |
| `DQN.DQN.constructor` | src/agents/dqn.ts:44-83 | ε starts at its initial value and steps at 0, the replay memory is empty, and the target weights are blended once with tau, so they equal the Q-network's when tau is 1 |
| `DQN.DQN.BatchLossBounds` | src/agents/dqn.ts:141-169 | the loss handed to the optimiser is, on a non-empty batch, the MSE between the targets and the Q-values of the actions taken, clipped when asked: never negative, at most 1 when clipped, 0 on a perfect fit |
| `DQN.DQN.BaseEndsWithProcessed` | src/agents/dqn.ts:189-215 | processing keeps `done`, so the environment's own samples end at their first done exactly when the processed ones do |
| `DQN.DQN.SynchroniseTargetNetwork` | src/agents/dqn.ts:85-93 | the target becomes tau·q + (1 − tau)·target element-wise |
| `DQN.DQN.Act` | src/agents/dqn.ts:95-114 | the action is in range; ε is unchanged during the warmup and decays to max(minimum, ε·decay) afterwards |
| `DQN.DQN.Learn` | src/agents/dqn.ts:165-177 | one optimiser step on the loss of a minibatch drawn from memory against its TD targets; the target is re-blended exactly when steps ≥ warmup and steps + 1 is a multiple of the period; with period 1 and tau 1 the target then equals the Q-network |
| `DQN.DQN.StoreAndLearn` | src/agents/dqn.ts:197-210 | exactly one transition is stored, and learning happens exactly when steps ≥ warmup and the size reaches the minibatch; with period 1 and tau 1 equal networks stay equal |
| `DQN.DQN.EpisodeStep` | src/agents/dqn.ts:186-215 | one pass counts one step and stores one transition carrying the previous observation, the action, and the processed reward, done and next observation; a failed environment step stores nothing; with period 1 and tau 1 equal networks stay equal |
| `DQN.DQN.RecordedStep` | src/agents/dqn.ts:186-215 | one more pass extends the step record, the run of stores and the base rewards by one entry |
| `DQN.DQN.RunEpisode` | src/agents/dqn.ts:179-220 | the first stored observation is `resetProcessed` of a reset observation; the episode ends at the first processed done (and so at the first base done), counts one step per pass, leaves the memory as the run of its stores, and returns the sum of the environment's own rewards, not the processed ones; with period 1 and tau 1 equal networks stay equal |
| `Reinforce.DiscountedRewardStep` | src/agents/reinforce.ts:7-10 | the discounted reward of nothing is 0, otherwise the first reward plus γ times that of the rest |
| `Reinforce.DiscountedRewardsRecurrence` | src/agents/reinforce.ts:12-16 | returns-to-go satisfy out[i] = r[i] + γ·out[i + 1], and the last one is the last reward |
| `Reinforce.UndiscountedRewardsAreSuffixSums` | src/agents/reinforce.ts:12-16 | with γ = 1 the returns-to-go are suffix sums |
| `Reinforce.UnitRewardsExample` | src/agents/reinforce.ts:12-16 | [1, 1, 1] with γ = 1 gives [3, 2, 1] |
| `Reinforce.VarianceNonNegative` | src/agents/reinforce.ts:23 | the variance is never negative, so its square root exists |
| `Reinforce.NormalizeRewardsElements` | src/agents/reinforce.ts:18-25 | every element loses the same amount, mean / (std + 1e-9) |
| `Reinforce.NormalizeRewardsShiftsOnly` | src/agents/reinforce.ts:18-25 | normalising keeps every pairwise difference and so the order |
| `Reinforce.NormalizeZeroMeanIsIdentity` | src/agents/reinforce.ts:22-24 | with mean 0 normalising is the identity |
| `Reinforce.NormalizeRewardsMean` | src/agents/reinforce.ts:18-25 | the new mean is the old one minus the shift |
| `Reinforce.DiscountAndNormalizeRewards` | src/agents/reinforce.ts:27-33 | each output is the discounted sum of its suffix minus one common shift, so outputs keep the returns' differences |
| `Reinforce.CalculateLossProperties` | src/agents/reinforce.ts:80-89 | the loss is additive over a split episode and non-negative when log-probabilities are ≤ 0 and returns ≥ 0 |
| `Reinforce.Reinforce.constructor` | src/agents/reinforce.ts:49-60 | the agent keeps γ, the action count, the oracles and the initial weights |
| `Reinforce.Reinforce.StandardDeviation` | src/agents/reinforce.ts:23 | the standard deviation is non-negative and squares to the variance |
| `Reinforce.Reinforce.Returns` | src/agents/reinforce.ts:84-87 | an episode's training returns have one entry per reward |
| `Reinforce.Reinforce.GetSample` | src/agents/reinforce.ts:62-78 | the action is in range and its log-probability is the log of the policy's output for it |
| `Reinforce.Reinforce.RunEpisode` | src/agents/reinforce.ts:91-113 | one reset, whose observation the first step starts from, then one step per pass from the last observation until the first done, one optimiser step on the whole episode's observations, actions and returns, and the sum of the rewards returned |
| `ActorCritic.ApplyTrainable` | src/agents/actor-critic.ts:164-174 | an optimiser step moves the shared trunk and only the heads that are trainable |
| `ActorCritic.FrozenHeadsAreKept` | src/agents/actor-critic.ts:164-174 | the actor update leaves the critic head alone and the critic update the actor head |
| `ActorCritic.ActorLossProperties` | src/agents/actor-critic.ts:90-115 | the actor loss −Σ logπ·V is additive over a split rollout and non-negative when log-probabilities are ≤ 0 and estimates ≥ 0 |
| `ActorCritic.CriticLossProperties` | src/agents/actor-critic.ts:117-137 | the critic MSE is non-negative and 0 when the estimates match the returns |
| `ActorCritic.ActorCritic.constructor` | src/agents/actor-critic.ts:33-66 | steps start at 0 and both heads are trainable |
| `ActorCritic.ActorCritic.VEstimates` | src/agents/actor-critic.ts:129-131 | one critic estimate per observation |
| `ActorCritic.ActorCritic.CriticLossOf` | src/agents/actor-critic.ts:117-137 | the critic loss of a rollout with one observation per reward is non-negative |
| `ActorCritic.KeptSnoc` | src/agents/actor-critic.ts:157-159 | the next observation is kept exactly when the episode goes on, so the kept list stays the observations each step started from |
| `ActorCritic.ActorCritic.GetSample` | src/agents/actor-critic.ts:68-88 | the action drawn from the actor's output is one of the environment's actions, and the environment takes one step |
| `ActorCritic.ActorCritic.FrozenStep` | src/agents/actor-critic.ts:146-155 | a rollout step freezes both heads, counts exactly one step and draws an in-range action |
| `ActorCritic.ActorCritic.Learn` | src/agents/actor-critic.ts:164-174 | the actor is trained with the critic frozen, then the critic with the actor frozen, ending with only the critic trainable |
| `ActorCritic.ActorCritic.CollectRollout` | src/agents/actor-critic.ts:140-162 | the kept list starts with the reset observation; both heads frozen and one step counted per pass; every action in range; the kept observations line up one-to-one with the rewards until the first done |
| `ActorCritic.ActorCritic.RunEpisode` | src/agents/actor-critic.ts:139-178 | the rollout, starting from the reset observation, with in-range actions and kept observations lined up one-to-one with the rewards; then the two training steps; the sum of raw rewards is returned |
| `RandomAgent.Random.constructor` | src/agents/random.ts:9-12 | the agent keeps the environment's action count |
| `RandomAgent.Random.RunEpisode` | src/agents/random.ts:14-27 | every action is in range, one step per action, the loop ends at the first done, and the return is the sum of all step rewards |
| `RandomAgent.Random.Save` | src/agents/random.ts:29-31 | saving changes nothing |
| `Agents.Agent.RunEpisode` | src/agents/core.ts:5 | every agent's successful episode is a run of environment samples ending at its first done, and the return is the sum of their rewards |
| `Training.Window` | src/train.ts:32 | `returns.slice(-100)` is the last min(k, 100) returns |
| `Training.RollingAverageForgetsOlderReturns` | src/train.ts:32 | once 100 returns are in, older ones no longer affect the average |
| `Training.RollingAverageBounds` | src/train.ts:32 | the average lies within any bounds that hold for every return |
| `Training.RollingAverageOfShortRun` | src/train.ts:32 | up to 100 returns are averaged whole |
| `Training.WonInPrefix` | src/train.ts:35-38 | later episodes do not change whether an earlier one won |
| `Training.RecordedSnoc` | src/train.ts:28-48 | one more episode appends its return and average and is logged exactly when its number is a multiple of the log period or it wins |
| `Training.WarmUp` | src/train.ts:23-25 | exactly `warmupEpisodes` episodes run (none when negative) and their returns are dropped |
| `Training.RecordEpisode` | src/train.ts:29-48 | the return and the new average are appended, the win test is that of the new episode, and earlier wins are unchanged |
| `Training.TrainingEpisode` | src/train.ts:29-48 | one training episode: the agent's return (the reward sum of an episode ending at its first done) is appended, the bookkeeping stays exact, the result is the new episode's win test, and earlier episodes still have not won |
| `Training.TrainingEpisodes` | src/train.ts:28-55 | returns and averages stay in step with the episodes run; true comes at the first win and ends training; false comes after exactly `maxEpisodes` episodes without a win |
| `Training.Train` | src/index.ts:8-58 | `train` (this array-pushing copy and the one in `src/train.ts`): the warmup, then the training episodes with one return and one average per episode; true exactly at the first win, false after `maxEpisodes` episodes without one, and never true for an environment without a winning score |
| `Index.EnvironmentKindOf` | src/index.ts:61-69 | exactly "blackjack", "cart-pole" and "mountain-car" are recognised, each for its own environment |
| `Index.CreateEnvironment` | src/index.ts:60-71 | a recognised name gives a fresh, valid environment of that kind in its initial done state (Blackjack without the natural bonus); any other name is "Environment name not recognised" |
| `Index.CommandLineNames` | src/index.ts:142-143 | the agent name defaults to "reinforce" and the environment name to "cartpole" |
| `Index.DefaultEnvironmentIsRejected` | src/index.ts:143 | without an environment argument the default name is rejected |
| `Index.AgentKindOf` | src/index.ts:99-138 | exactly "actor-critic", "dqn", "random" and "reinforce" are recognised; any other name is "Agent name not recognised" |
| `Index.VerifyOptions` | src/index.ts:73-90 | missing options are the "Options not specified for … in …" error; present ones pass through |
| `Index.CreateAgentAndGetOptions` | src/index.ts:92-139 | an unknown agent name is an error; otherwise the agent's table must have an entry under the environment's name, whose options are returned |
| `Index.ShippedTablesCoverage` | src/options.ts:55-77 | with the shipped tables actor-critic fails only on MountainCar and the other agents accept every environment |
| `Util.Clip` | src/environments/mountain-car.ts:77-79 | `clip` lies within its bounds and is the identity inside them |
| `Util.MeanBounds` | src/train.ts:32 | a mean lies within bounds that hold for every element |
| `Util.MseNonNegative` | src/agents/dqn.ts:161 | the mean squared error is non-negative and 0 on equal lists |
| `Rng.Rng.Uniform` | src/environments/blackjack.ts:39 | `Math.random()` lies in [0, 1) |
| `Rng.Rng.SampleIndex` | src/agents/random.ts:20 | `sampleUniform(n)` is an index below n |
| `Rng.Rng.UniformBetween` | src/environments/mountain-car.ts:49-52 | `sampleUniform(a, b)` lies between its bounds, in either order |
| `Rng.Rng.Categorical` | src/agents/reinforce.ts:68 | `tf.multinomial` yields an index into its distribution |

## Left out

- Networks and optimisers: layer construction, `predict`, `argMax` over a tensor, `gatherND`, `minimize` and `tf.tidy` are oracles or left out; only their shapes are assumed.
- Floating point: numbers are Dafny reals, so NaN, infinities and rounding are not modelled. `Math.PI` is its decimal double value.
- `Math.cos` and `Math.sin` are oracles; only cos ∈ [-1, 1] is assumed.
- Randomness: a linear congruential generator stands in for the seeded `Math.random`. The draws are modelled by their ranges, not their distributions; `src/random.ts` seeding is the `Rng.Rng` constructor.
- `sum`, `mean`, `clip` and `sampleUniform` are not part of this model's source; they get their evident definitions in `Util` and `Rng`. `calculateDiscountedNormalizedRewards` is an oracle that keeps the length.
- `tf.multinomial`: in the actor-critic it is given log-probabilities rather than probabilities. The model states only that the drawn action is in range, not its distribution.
- ActorCritic.ActorLoss: takes the log-probabilities as input, because `calculateActorLoss` re-samples its actions with the network and the seed.
- Reinforce.Reinforce.RunEpisode: the log-probabilities are collected but the optimiser oracle receives the observations, actions and returns rather than the loss.
- ReplayMemory.ReplayMemory.Sample: requires n ≤ size. With more draws than entries the source returns `undefined` entries, which a transition list cannot hold; DQN only samples once the memory holds a minibatch.
- DQN: the replay memory is the shown `ReplayMemory` class, since `BasicReplayMemory` is not part of this model. `resetProcessed` and `processSample` are oracles assumed to keep `done`. `resetProcessed` is applied to the environment's `reset` observation, because Blackjack and CartPole do not define these hooks.
- DQN.DQN.RunEpisode: the processed-reward list the source builds but never reads is omitted.
- DQN.DQN.BatchLoss: an empty minibatch (minibatch size 0) gives a loss of 0, where the source's mean squared error of nothing is NaN.
- DQN.DQN.Act: the contract states the action's range and the ε update, not whether the action was random or greedy; the draw against ε, made with the value before the decay, has no probability in the model.
- The warmup flag that `train` passes to `runEpisode` is not taken by any agent and is dropped.
- Index.CreateAgentAndGetOptions: returns the agent kind with the training options instead of a constructed agent, because construction needs the network oracles. The options tables of `src/options.ts` are a parameter.
- Logging, the log file and `logEpisode` are represented by the list of logged episode numbers; `verifyOptions`'s log line, `main`'s sequencing, the async `save` to a directory and the process arguments beyond `CommandLineNames` are left out.
- The A3C and DDPG agents (their constructors always throw), the browser result viewer and the test specifications are not modelled.
- Episode loops terminate through a ghost budget: the cards left in the deck, or the steps left before the 200- or 1000-step cap. The legacy cart-pole has no cap and is not wired into the `Environment` interface.
- Agents.Agent.RunEpisode: states only what every agent shares, an episode ending at its first done and the sum of its rewards. Each agent's own `RunEpisode` states the rest.
