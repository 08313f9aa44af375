/** The deep Q-network agent of `src/agents/dqn.ts`: ε-greedy acting with a decaying ε,
    experience replay, temporal-difference targets from a target network that is blended
    towards the Q-network, and an optionally clipped mean-squared-error loss.
    A network is a flat vector of weights; `predict` (weights, observation ↦ one value per
    action) and `minimize` (one optimiser step on a loss given as a function of the
    weights) are oracles, as are the environment's processing hooks `resetProcessed` and
    `processSample`. */
module DQN {
  import opened Wrappers
  import opened Core
  import Util
  import Rng
  import ReplayMemory
  import Environments
  import MountainCar

  datatype DQNOptions = DQNOptions(
    hiddenWidths: seq<nat>,
    alpha: real,
    gamma: real,
    epsilonInitial: real,
    epsilonMinimum: real,
    epsilonDecay: real,
    tau: real,
    targetNetworkUpdatePeriod: int,
    shouldClipLoss: bool,
    warmup: int,
    replayMemoryCapacity: int,
    minibatchSize: nat)

  /** The soft update: every target weight moves to tau·q + (1 − tau)·target. */
  function Blend(q: seq<real>, target: seq<real>, tau: real): (r: seq<real>)
    requires |q| == |target|
    ensures |r| == |q|
  {
    seq(|q|, i requires 0 <= i < |q| => tau * q[i] + (1.0 - tau) * target[i])
  }

  /** tau = 1 copies the Q-network; tau = 0 leaves the target as it was. */
  lemma BlendExtremes(q: seq<real>, target: seq<real>)
    requires |q| == |target|
    ensures Blend(q, target, 1.0) == q
    ensures Blend(q, target, 0.0) == target
  {
    assert forall i :: 0 <= i < |q| ==> Blend(q, target, 1.0)[i] == q[i];
    assert forall i :: 0 <= i < |q| ==> Blend(q, target, 0.0)[i] == target[i];
  }

  /** For tau in [0, 1] every blended weight lies between the two weights it mixes. */
  lemma BlendIsBetween(q: seq<real>, target: seq<real>, tau: real, i: int)
    requires |q| == |target| && 0.0 <= tau <= 1.0 && 0 <= i < |q|
    ensures q[i] <= target[i] ==> q[i] <= Blend(q, target, tau)[i] <= target[i]
    ensures target[i] <= q[i] ==> target[i] <= Blend(q, target, tau)[i] <= q[i]
  {
    var b := Blend(q, target, tau)[i];
    assert b - target[i] == tau * (q[i] - target[i]);
    assert q[i] - b == (1.0 - tau) * (q[i] - target[i]);
    if q[i] <= target[i] {
      Util.ProductNonNegative(tau, target[i] - q[i]);
      Util.ProductNonNegative(1.0 - tau, target[i] - q[i]);
    } else {
      Util.ProductNonNegative(tau, q[i] - target[i]);
      Util.ProductNonNegative(1.0 - tau, q[i] - target[i]);
    }
  }

  /** The decay applied on every acting step after the warmup. */
  function NextEpsilon(epsilon: real, minimum: real, decay: real): real
  {
    Util.MaxReal(minimum, epsilon * decay)
  }

  /** ε never drops below its minimum, and with a decay of at most 1 it never grows
      from a non-negative value above the minimum. */
  lemma NextEpsilonBounds(epsilon: real, minimum: real, decay: real)
    ensures NextEpsilon(epsilon, minimum, decay) >= minimum
    ensures NextEpsilon(epsilon, minimum, decay) == minimum
            || NextEpsilon(epsilon, minimum, decay) == epsilon * decay
    ensures decay <= 1.0 && 0.0 <= epsilon && minimum <= epsilon ==>
            NextEpsilon(epsilon, minimum, decay) <= epsilon
  {
    if decay <= 1.0 && 0.0 <= epsilon {
      Util.ProductNonNegative(epsilon, 1.0 - decay);
    }
  }

  /** `argMax`: the first index of a largest element. */
  function ArgMax(xs: seq<real>): (k: nat)
    requires |xs| > 0
    ensures k < |xs|
    ensures forall j :: 0 <= j < |xs| ==> xs[j] <= xs[k]
    ensures forall j :: 0 <= j < k ==> xs[j] < xs[k]
  {
    if |xs| == 1 then 0
    else
      var k := ArgMax(xs[..|xs| - 1]);
      if xs[|xs| - 1] > xs[k] then |xs| - 1 else k
  }

  /** The temporal-difference target of one transition: its reward when it ended the
      episode, otherwise the reward plus the discounted target-network value of the
      action that was taken (not the best action). */
  function TdTarget(t: Transition, gamma: real, nextQ: seq<real>): real
    requires !t.done ==> t.action < |nextQ|
  {
    if t.done then t.reward else t.reward + gamma * nextQ[t.action]
  }

  /** `getTargetsFromTransitions`: one target per transition, in order. */
  function Targets(
    batch: seq<Transition>, gamma: real,
    predict: (seq<real>, Observation) -> seq<real>, weights: seq<real>): (ys: seq<real>)
    requires forall i :: 0 <= i < |batch| && !batch[i].done ==>
               batch[i].action < |predict(weights, batch[i].nextObservation)|
    ensures |ys| == |batch|
    ensures forall i :: 0 <= i < |batch| && batch[i].done ==> ys[i] == batch[i].reward
    ensures forall i :: 0 <= i < |batch| && !batch[i].done ==>
              ys[i] == batch[i].reward + gamma * predict(weights, batch[i].nextObservation)[batch[i].action]
  {
    var ys := seq(|batch|, i requires 0 <= i < |batch| =>
      TdTarget(batch[i], gamma, predict(weights, batch[i].nextObservation)));
    assert forall i :: 0 <= i < |batch| ==> ys[i] == TdTarget(batch[i], gamma, predict(weights, batch[i].nextObservation));
    ys
  }

  /** The Q-network's value of the action each transition took. */
  function Predictions(
    batch: seq<Transition>,
    predict: (seq<real>, Observation) -> seq<real>, weights: seq<real>): (ps: seq<real>)
    requires forall i :: 0 <= i < |batch| ==> batch[i].action < |predict(weights, batch[i].observation)|
    ensures |ps| == |batch|
  {
    seq(|batch|, i requires 0 <= i < |batch| => predict(weights, batch[i].observation)[batch[i].action])
  }

  /** `getLoss`: the mean squared error, clipped to [-1, 1] when asked. */
  function Loss(targets: seq<real>, predictions: seq<real>, shouldClipLoss: bool): real
    requires |targets| == |predictions| > 0
  {
    var loss := Util.Mse(targets, predictions);
    if shouldClipLoss then Util.Clip(loss, -1.0, 1.0) else loss
  }

  /** The loss is never negative, vanishes on perfect predictions, is the plain mean
      squared error without clipping and is at most 1 with it. */
  lemma LossBounds(targets: seq<real>, predictions: seq<real>, shouldClipLoss: bool)
    requires |targets| == |predictions| > 0
    ensures Loss(targets, predictions, shouldClipLoss) >= 0.0
    ensures !shouldClipLoss ==> Loss(targets, predictions, shouldClipLoss) == Util.Mse(targets, predictions)
    ensures shouldClipLoss ==> Loss(targets, predictions, shouldClipLoss) <= 1.0
    ensures shouldClipLoss && Util.Mse(targets, predictions) <= 1.0 ==>
              Loss(targets, predictions, shouldClipLoss) == Util.Mse(targets, predictions)
    ensures targets == predictions ==> Loss(targets, predictions, shouldClipLoss) == 0.0
  {
    Util.MseNonNegative(targets, predictions);
  }

  /** `learn` re-synchronises the target network once the warmup is over and step + 1 is a
      multiple of the update period; JavaScript's `x % 0` is NaN, so period 0 never does. */
  predicate SyncDue(steps: int, warmup: int, period: int)
  {
    steps >= warmup && period != 0 && (steps + 1) % period == 0
  }

  /** Any tau other than 1 leaves the blended target short of the Q-network wherever the
      two differ, so period 1 alone does not make the networks equal. */
  lemma PartialBlendLags(q: seq<real>, target: seq<real>, tau: real, i: int)
    requires |q| == |target| && 0 <= i < |q| && tau != 1.0 && q[i] != target[i]
    ensures Blend(q, target, tau)[i] != q[i]
    ensures Blend(q, target, tau) != q
  {
    var b := Blend(q, target, tau)[i];
    assert b - q[i] == (1.0 - tau) * (target[i] - q[i]);
    Util.ProductNonZero(1.0 - tau, target[i] - q[i]);
  }

  /** MountainCar's `processSample`, which ignores the step count, keeps `done` and so
      meets what a DQN asks of its processing hook. */
  lemma MountainCarHookKeepsDone()
    ensures var hook := (sample: Sample, steps: int) => MountainCar.ProcessSample(sample);
      forall s, k :: hook(s, k).done == s.done
  {
  }

  /** `runEpisode` learns after storing once the warmup is over and the memory holds a
      full minibatch. */
  predicate ShouldLearn(steps: int, warmup: int, size: nat, minibatchSize: nat)
  {
    steps >= warmup && size >= minibatchSize
  }

  /** What one pass of the episode loop did: the environment's sample, its processed form,
      the transition stored, the memory size right after storing, and whether it learned. */
  datatype StepRecord = StepRecord(sample: Sample, processed: Sample, stored: Transition, size: nat, learned: bool)

  function StoredOf(trace: seq<StepRecord>): (ts: seq<Transition>)
    ensures |ts| == |trace| && forall i :: 0 <= i < |trace| ==> ts[i] == trace[i].stored
  {
    seq(|trace|, i requires 0 <= i < |trace| => trace[i].stored)
  }

  function BaseRewards(trace: seq<StepRecord>): (rs: seq<real>)
    ensures |rs| == |trace| && forall i :: 0 <= i < |trace| ==> rs[i] == trace[i].sample.reward
  {
    seq(|trace|, i requires 0 <= i < |trace| => trace[i].sample.reward)
  }

  function BaseSamples(trace: seq<StepRecord>): (bs: seq<Sample>)
    ensures |bs| == |trace| && forall i :: 0 <= i < |trace| ==> bs[i] == trace[i].sample
    ensures Rewards(bs) == BaseRewards(trace)
  {
    var bs := seq(|trace|, i requires 0 <= i < |trace| => trace[i].sample);
    assert Rewards(bs) == BaseRewards(trace);
    bs
  }

  function ProcessedOf(trace: seq<StepRecord>): (ps: seq<Sample>)
    ensures |ps| == |trace| && forall i :: 0 <= i < |trace| ==> ps[i] == trace[i].processed
  {
    seq(|trace|, i requires 0 <= i < |trace| => trace[i].processed)
  }

  /** The loop state of an episode in progress: `observation` is the last processed
      observation (once there is one), `done` is the last processed `done`, and no earlier
      processed sample was done. */
  ghost predicate Ongoing(trace: seq<StepRecord>, done: bool, observation: Observation)
  {
    && (|trace| > 0 ==> observation == trace[|trace| - 1].processed.observation)
    && (done <==> |trace| > 0 && trace[|trace| - 1].processed.done)
    && (forall i :: 0 <= i < |trace| - 1 ==> !trace[i].processed.done)
  }

  class DQN {
    const options: DQNOptions
    const numActions: nat
    const predict: (seq<real>, Observation) -> seq<real>
    const minimize: (seq<real>, seq<real> -> real) -> seq<real>
    const resetProcessed: Observation -> Observation
    const processSample: (Sample, int) -> Sample
    const memory: ReplayMemory.ReplayMemory

    var epsilon: real
    var qWeights: seq<real>
    var targetWeights: seq<real>
    var steps: int

    /** The oracles keep their shapes (one value per action; weights keep their length),
        processing never changes `done`, and every stored action is in range. */
    ghost predicate Valid()
      reads this, memory
    {
      && numActions > 0
      && (forall w, o :: |predict(w, o)| == numActions)
      && (forall w, loss :: |minimize(w, loss)| == |w|)
      && (forall s, k :: processSample(s, k).done == s.done)
      && |qWeights| == |targetWeights|
      && (forall t :: t in memory.transitions ==> t.action < numActions)
    }

    /** ε starts at its initial value and the step counter at 0; the target network is
        blended once with tau rather than copied. */
    constructor (
      numActions: nat, options: DQNOptions,
      predict: (seq<real>, Observation) -> seq<real>,
      minimize: (seq<real>, seq<real> -> real) -> seq<real>,
      resetProcessed: Observation -> Observation, processSample: (Sample, int) -> Sample,
      initialQ: seq<real>, initialTarget: seq<real>)
      requires numActions > 0
      requires forall w, o :: |predict(w, o)| == numActions
      requires forall w, loss :: |minimize(w, loss)| == |w|
      requires forall s, k :: processSample(s, k).done == s.done
      requires |initialQ| == |initialTarget|
      ensures Valid() && fresh(memory)
      ensures this.options == options && this.numActions == numActions
      ensures this.predict == predict && this.minimize == minimize
      ensures this.resetProcessed == resetProcessed && this.processSample == processSample
      ensures memory.capacity == options.replayMemoryCapacity && memory.transitions == []
      ensures epsilon == options.epsilonInitial && steps == 0
      ensures qWeights == initialQ && targetWeights == Blend(initialQ, initialTarget, options.tau)
      ensures options.tau == 1.0 ==> targetWeights == qWeights
    {
      this.options := options;
      this.numActions := numActions;
      this.predict := predict;
      this.minimize := minimize;
      this.resetProcessed := resetProcessed;
      this.processSample := processSample;
      memory := new ReplayMemory.ReplayMemory(options.replayMemoryCapacity);
      epsilon := options.epsilonInitial;
      qWeights := initialQ;
      targetWeights := initialTarget;
      new;
      SynchroniseTargetNetwork();
      BlendExtremes(initialQ, initialTarget);
      steps := 0;
    }

    /** The options under which the comment on `targetNetworkUpdatePeriod` promises the
        same parameters in both networks at all times: period 1, and tau 1 as well. */
    predicate CopiesEveryStep()
    {
      options.targetNetworkUpdatePeriod == 1 && options.tau == 1.0
    }

    /** `getLoss` for one batch and its targets, as the function of the Q-network's weights
        that `optimizer.minimize` is handed. A batch the loss is undefined for (an empty
        one, or an action the network has no output for) gets 0. */
    function BatchLoss(batch: seq<Transition>, targets: seq<real>): seq<real> -> real
    {
      w =>
        if |batch| == |targets| > 0
           && forall i :: 0 <= i < |batch| ==> batch[i].action < |predict(w, batch[i].observation)|
        then Loss(targets, Predictions(batch, predict, w), options.shouldClipLoss)
        else 0.0
    }

    /** On a non-empty batch of in-range actions the loss handed to the optimiser is the
        mean squared error between the targets and the Q-values of the actions taken,
        clipped when asked: never negative, at most 1 when clipped, 0 on a perfect fit. */
    lemma BatchLossBounds(batch: seq<Transition>, targets: seq<real>, w: seq<real>)
      requires |batch| == |targets| > 0
      requires forall i :: 0 <= i < |batch| ==> batch[i].action < |predict(w, batch[i].observation)|
      ensures BatchLoss(batch, targets)(w) == Loss(targets, Predictions(batch, predict, w), options.shouldClipLoss)
      ensures BatchLoss(batch, targets)(w) >= 0.0
      ensures options.shouldClipLoss ==> BatchLoss(batch, targets)(w) <= 1.0
      ensures !options.shouldClipLoss ==> BatchLoss(batch, targets)(w) == Util.Mse(targets, Predictions(batch, predict, w))
      ensures targets == Predictions(batch, predict, w) ==> BatchLoss(batch, targets)(w) == 0.0
    {
      LossBounds(targets, Predictions(batch, predict, w), options.shouldClipLoss);
    }

    method SynchroniseTargetNetwork()
      requires |qWeights| == |targetWeights|
      modifies this`targetWeights
      ensures targetWeights == Blend(qWeights, old(targetWeights), options.tau)
    {
      targetWeights := Blend(qWeights, targetWeights, options.tau);
    }

    /** During the warmup the action is uniformly random and ε stays put. Afterwards ε
        decays first, and the action is random with probability ε (its value before the
        decay), greedy otherwise. */
    method Act(observation: Observation, rng: Rng.Rng) returns (action: nat)
      requires Valid()
      modifies this`epsilon, rng
      ensures action < numActions
      ensures steps < options.warmup ==> epsilon == old(epsilon)
      ensures steps >= options.warmup ==>
        epsilon == NextEpsilon(old(epsilon), options.epsilonMinimum, options.epsilonDecay)
    {
      var isWarmup := steps < options.warmup;
      var shouldActRandom := isWarmup;
      if !isWarmup {
        var u := rng.Uniform();
        shouldActRandom := u < epsilon;
        epsilon := NextEpsilon(epsilon, options.epsilonMinimum, options.epsilonDecay);
      }
      if shouldActRandom {
        action := rng.SampleIndex(numActions);
      } else {
        action := ArgMax(predict(qWeights, observation));
      }
    }

    /** One optimiser step on a sampled minibatch, then the periodic target update. */
    method Learn(rng: Rng.Rng) returns (ghost batch: seq<Transition>)
      requires Valid() && memory.Size() >= options.minibatchSize
      modifies this`qWeights, this`targetWeights, rng
      ensures Valid()
      ensures |batch| == options.minibatchSize && multiset(batch) <= multiset(memory.transitions)
      ensures forall i :: 0 <= i < |batch| ==> batch[i].action < numActions
      ensures qWeights == minimize(old(qWeights), BatchLoss(batch, Targets(batch, options.gamma, predict, old(targetWeights))))
      ensures targetWeights ==
        if SyncDue(steps, options.warmup, options.targetNetworkUpdatePeriod)
        then Blend(qWeights, old(targetWeights), options.tau)
        else old(targetWeights)
      ensures CopiesEveryStep() && steps >= options.warmup ==> targetWeights == qWeights
    {
      var sampled := memory.Sample(options.minibatchSize, rng);
      forall i | 0 <= i < |sampled| ensures sampled[i].action < numActions {
        assert multiset(sampled)[sampled[i]] > 0;
      }
      var targets := Targets(sampled, options.gamma, predict, targetWeights);
      qWeights := minimize(qWeights, BatchLoss(sampled, targets));
      ghost var previousTarget := targetWeights;
      if SyncDue(steps, options.warmup, options.targetNetworkUpdatePeriod) {
        SynchroniseTargetNetwork();
        BlendExtremes(qWeights, previousTarget);
      }
      batch := sampled;
    }

    /** Step i of a trace that started at step count `startSteps` with buffer
        `startTransitions`: the processed sample is the hook applied at step count
        startSteps + i + 1; the stored transition carries its reward, `done` and next
        observation, an in-range action and the previous step's observation; the size is
        that of the buffer after this store; learning happened exactly when due. */
    ghost predicate RecordFits(trace: seq<StepRecord>, i: int, startSteps: int, startTransitions: seq<Transition>)
      requires 0 <= i < |trace|
    {
      && trace[i].processed == processSample(trace[i].sample, startSteps + i + 1)
      && trace[i].stored.reward == trace[i].processed.reward
      && trace[i].stored.done == trace[i].processed.done
      && trace[i].stored.nextObservation == trace[i].processed.observation
      && trace[i].stored.action < numActions
      && (i > 0 ==> trace[i].stored.observation == trace[i - 1].processed.observation)
      && trace[i].size == |ReplayMemory.StoredAll(startTransitions, StoredOf(trace[..i + 1]), memory.capacity)|
      && (trace[i].learned <==> ShouldLearn(startSteps + i + 1, options.warmup, trace[i].size, options.minibatchSize))
    }

    ghost predicate Recorded(trace: seq<StepRecord>, startSteps: int, startTransitions: seq<Transition>)
    {
      forall i :: 0 <= i < |trace| ==> RecordFits(trace, i, startSteps, startTransitions)
    }

    lemma RecordedSnoc(trace: seq<StepRecord>, record: StepRecord, startSteps: int, startTransitions: seq<Transition>)
      requires Recorded(trace, startSteps, startTransitions)
      requires RecordFits(trace + [record], |trace|, startSteps, startTransitions)
      ensures Recorded(trace + [record], startSteps, startTransitions)
    {
      var extended := trace + [record];
      forall i | 0 <= i < |extended| ensures RecordFits(extended, i, startSteps, startTransitions) {
        if i < |trace| {
          assert extended[..i + 1] == trace[..i + 1];
          assert RecordFits(trace, i, startSteps, startTransitions);
        }
      }
    }

    /** Processing keeps `done`, so an episode ends at the first base `done` exactly when it
        ends at the first processed one. */
    lemma BaseEndsWithProcessed(trace: seq<StepRecord>, startSteps: int, startTransitions: seq<Transition>)
      requires Valid() && Recorded(trace, startSteps, startTransitions)
      ensures EndsAtFirstDone(BaseSamples(trace)) <==> EndsAtFirstDone(ProcessedOf(trace))
    {
      forall i | 0 <= i < |trace| ensures trace[i].sample.done == trace[i].processed.done {
        assert RecordFits(trace, i, startSteps, startTransitions);
      }
    }

    /** The bookkeeping of one more pass: a record that `EpisodeStep` vouches for, taken
        at step count startSteps + |trace| + 1 from the last processed observation, extends
        the trace and the run of stores. */
    lemma RecordedStep(
      trace: seq<StepRecord>, record: StepRecord, startSteps: int, startTransitions: seq<Transition>,
      observation: Observation, transitions: seq<Transition>)
      requires Recorded(trace, startSteps, startTransitions)
      requires record.processed == processSample(record.sample, startSteps + |trace| + 1)
      requires record.stored == Transition(observation, record.stored.action, record.processed.reward,
                                           record.processed.done, record.processed.observation)
      requires record.stored.action < numActions
      requires transitions == ReplayMemory.Stored(
                 ReplayMemory.StoredAll(startTransitions, StoredOf(trace), memory.capacity), record.stored, memory.capacity)
      requires record.size == |transitions|
      requires record.learned <==> ShouldLearn(startSteps + |trace| + 1, options.warmup, record.size, options.minibatchSize)
      requires Ongoing(trace, false, observation)
      ensures Recorded(trace + [record], startSteps, startTransitions)
      ensures transitions == ReplayMemory.StoredAll(startTransitions, StoredOf(trace + [record]), memory.capacity)
      ensures Ongoing(trace + [record], record.processed.done, record.processed.observation)
      ensures BaseRewards(trace + [record]) == BaseRewards(trace) + [record.sample.reward]
    {
      ReplayMemory.StoredAllSnoc(startTransitions, StoredOf(trace), record.stored, memory.capacity);
      assert StoredOf(trace + [record]) == StoredOf(trace) + [record.stored];
      assert (trace + [record])[..|trace| + 1] == trace + [record];
      RecordedSnoc(trace, record, startSteps, startTransitions);
    }

    /** One pass of the episode loop from `observation`: count the step, act, step the
        environment, store the processed transition and learn when due. */
    method EpisodeStep(env: Environments.Environment, rng: Rng.Rng, observation: Observation)
      returns (result: Result<StepRecord>)
      requires Valid() && env.Valid()
      modifies this, memory, env.Repr(), rng
      ensures Valid() && env.Valid()
      ensures steps == old(steps) + 1
      ensures CopiesEveryStep() && old(targetWeights) == old(qWeights) ==> targetWeights == qWeights
      ensures result.Err? ==> memory.transitions == old(memory.transitions)
      ensures result.Ok? ==>
        var r := result.value;
        && r.processed == processSample(r.sample, steps)
        && r.stored == Transition(observation, r.stored.action, r.processed.reward, r.processed.done, r.processed.observation)
        && r.stored.action < numActions
        && memory.transitions == ReplayMemory.Stored(old(memory.transitions), r.stored, memory.capacity)
        && r.size == |memory.transitions|
        && (r.learned <==> ShouldLearn(steps, options.warmup, r.size, options.minibatchSize))
        && env.Budget() <= old(env.Budget())
        && (!r.processed.done ==> env.Budget() < old(env.Budget()))
    {
      steps := steps + 1;
      var action := Act(observation, rng);
      var sample := env.Step(action);
      if sample.Err? {
        return Err(sample.error);
      }
      var processedSample := processSample(sample.value, steps);
      var transition := Transition(observation, action, processedSample.reward, processedSample.done, processedSample.observation);
      var learned := StoreAndLearn(transition, rng);
      return Ok(StepRecord(sample.value, processedSample, transition, memory.Size(), learned));
    }

    /** Store one transition, then learn when the warmup is over and the memory holds a
        full minibatch. */
    method StoreAndLearn(transition: Transition, rng: Rng.Rng) returns (learned: bool)
      requires Valid() && transition.action < numActions
      modifies memory, this`qWeights, this`targetWeights, rng
      ensures Valid()
      ensures memory.transitions == ReplayMemory.Stored(old(memory.transitions), transition, memory.capacity)
      ensures learned <==> ShouldLearn(steps, options.warmup, |memory.transitions|, options.minibatchSize)
      ensures CopiesEveryStep() && old(targetWeights) == old(qWeights) ==> targetWeights == qWeights
    {
      ReplayMemory.StoredElements(memory.transitions, transition, memory.capacity);
      memory.Store(transition);
      learned := false;
      if steps >= options.warmup && memory.Size() >= options.minibatchSize {
        var _ := Learn(rng);
        learned := true;
      }
    }

    /** One episode. Each pass increments `steps`, acts, steps the environment, stores
        one transition carrying the processed reward, `done` and next observation, and
        learns when the warmup is over and the memory holds a minibatch. The loop ends at
        the first processed `done`; the return is the sum of the environment's own
        rewards, not the processed ones. */
    method RunEpisode(env: Environments.Environment, rng: Rng.Rng)
      returns (result: Result<real>, ghost first: Observation, ghost trace: seq<StepRecord>)
      requires Valid() && env.Valid()
      modifies this, memory, env.Repr(), rng
      ensures Valid() && env.Valid()
      ensures env.IsResetObservation(first)
      ensures trace != [] ==> trace[0].stored.observation == resetProcessed(first)
      ensures Recorded(trace, old(steps), old(memory.transitions))
      ensures memory.transitions == ReplayMemory.StoredAll(old(memory.transitions), StoredOf(trace), memory.capacity)
      ensures result.Ok? ==>
        && EndsAtFirstDone(ProcessedOf(trace))
        && EndsAtFirstDone(BaseSamples(trace))
        && steps == old(steps) + |trace|
        && result.value == Util.Sum(BaseRewards(trace))
      ensures CopiesEveryStep() && old(targetWeights) == old(qWeights) ==> targetWeights == qWeights
    {
      var resetObservation := env.Reset(rng);
      first := resetObservation;
      var observation := resetProcessed(resetObservation);
      var done := false;
      var baseRewards: seq<real> := [];
      trace := [];
      ghost var startSteps := steps;
      ghost var startTransitions := memory.transitions;

      while !done
        invariant Valid() && env.Valid()
        invariant steps == startSteps + |trace|
        invariant Recorded(trace, startSteps, startTransitions)
        invariant memory.transitions == ReplayMemory.StoredAll(startTransitions, StoredOf(trace), memory.capacity)
        invariant Ongoing(trace, done, observation)
        invariant (if trace == [] then observation else trace[0].stored.observation) == resetProcessed(first)
        invariant baseRewards == BaseRewards(trace)
        invariant CopiesEveryStep() && old(targetWeights) == old(qWeights) ==> targetWeights == qWeights
        decreases (if done then 0 else 1) + env.Budget()
      {
        ghost var before := memory.transitions;
        var step := EpisodeStep(env, rng, observation);
        if step.Err? {
          return Err(step.error), first, trace;
        }
        var record := step.value;
        RecordedStep(trace, record, startSteps, startTransitions, observation, memory.transitions);
        trace := trace + [record];
        baseRewards := baseRewards + [record.sample.reward];
        done := record.processed.done;
        observation := record.processed.observation;
      }
      assert ProcessedOf(trace)[|trace| - 1] == trace[|trace| - 1].processed;
      BaseEndsWithProcessed(trace, startSteps, startTransitions);
      return Ok(Util.Sum(baseRewards)), first, trace;
    }
  }
}
