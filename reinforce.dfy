/** The REINFORCE agent of `src/agents/reinforce.ts`: a policy network sampled once per
    step, rewards turned into discounted returns-to-go and shifted by the "normalisation",
    and one optimiser step per episode on −Σ log π(a|o)·return.
    The network (`predict`: weights, observation ↦ action probabilities), `log`, the
    square root behind `tf.moments` and the optimiser step (`minimize`: weights,
    observations, actions, returns ↦ weights) are oracles. */
module Reinforce {
  import opened Wrappers
  import opened Core
  import Util
  import Rng
  import Environments

  /** The default `epsilon` of `normalizeRewards`. */
  const NormalizationEpsilon: real := 0.000000001

  function Pow(x: real, n: nat): real
  {
    if n == 0 then 1.0 else x * Pow(x, n - 1)
  }

  /** Each reward weighted by γ to the power of its position. */
  function Weighted(rewards: seq<real>, gamma: real): (ws: seq<real>)
    ensures |ws| == |rewards|
  {
    seq(|rewards|, i requires 0 <= i < |rewards| => rewards[i] * Pow(gamma, i))
  }

  /** `calculateDiscountedReward`: Σ rewards[i]·γ^i. */
  function DiscountedReward(rewards: seq<real>, gamma: real): real
  {
    Util.Sum(Weighted(rewards, gamma))
  }

  /** The discounted reward of nothing is 0; otherwise it is the first reward plus γ times
      the discounted reward of the rest. */
  lemma DiscountedRewardStep(rewards: seq<real>, gamma: real)
    ensures rewards == [] ==> DiscountedReward(rewards, gamma) == 0.0
    ensures rewards != [] ==>
      DiscountedReward(rewards, gamma) == rewards[0] + gamma * DiscountedReward(rewards[1..], gamma)
  {
    if rewards != [] {
      var ws := Weighted(rewards, gamma);
      var rest := Weighted(rewards[1..], gamma);
      var scaled := seq(|rest|, i requires 0 <= i < |rest| => gamma * rest[i]);
      assert ws[1..] == scaled by {
        forall k | 0 <= k < |scaled| ensures ws[1..][k] == scaled[k] {
          assert ws[1..][k] == rewards[k + 1] * (gamma * Pow(gamma, k));
        }
      }
      Util.SumScale(rest, gamma);
    }
  }

  /** `calculateDiscountedRewards`: the discounted reward of every suffix (the return-to-go). */
  function DiscountedRewards(rewards: seq<real>, gamma: real): (rs: seq<real>)
    ensures |rs| == |rewards|
  {
    seq(|rewards|, i requires 0 <= i < |rewards| => DiscountedReward(rewards[i..], gamma))
  }

  /** The returns-to-go satisfy out[i] = rewards[i] + γ·out[i + 1], and the last one is the
      last reward. */
  lemma DiscountedRewardsRecurrence(rewards: seq<real>, gamma: real)
    ensures forall i :: 0 <= i < |rewards| - 1 ==>
      DiscountedRewards(rewards, gamma)[i] == rewards[i] + gamma * DiscountedRewards(rewards, gamma)[i + 1]
    ensures |rewards| > 0 ==> DiscountedRewards(rewards, gamma)[|rewards| - 1] == rewards[|rewards| - 1]
  {
    var out := DiscountedRewards(rewards, gamma);
    forall i | 0 <= i < |rewards| - 1 ensures out[i] == rewards[i] + gamma * out[i + 1] {
      DiscountedRewardStep(rewards[i..], gamma);
      assert rewards[i..][1..] == rewards[i + 1..];
    }
    if |rewards| > 0 {
      var last := rewards[|rewards| - 1..];
      DiscountedRewardStep(last, gamma);
      DiscountedRewardStep(last[1..], gamma);
    }
  }

  lemma {:induction false} PowOne(n: nat)
    ensures Pow(1.0, n) == 1.0
  {
    if n > 0 {
      PowOne(n - 1);
    }
  }

  /** Undiscounted, the return-to-go is the plain sum of the suffix. */
  lemma UndiscountedRewardsAreSuffixSums(rewards: seq<real>)
    ensures forall i :: 0 <= i < |rewards| ==> DiscountedRewards(rewards, 1.0)[i] == Util.Sum(rewards[i..])
  {
    forall i | 0 <= i < |rewards| ensures DiscountedRewards(rewards, 1.0)[i] == Util.Sum(rewards[i..]) {
      var suffix := rewards[i..];
      forall k | 0 <= k < |suffix| ensures Weighted(suffix, 1.0)[k] == suffix[k] {
        PowOne(k);
      }
      assert Weighted(suffix, 1.0) == suffix;
    }
  }

  /** Three unit rewards, undiscounted, give the returns 3, 2, 1. */
  lemma UnitRewardsExample()
    ensures DiscountedRewards([1.0, 1.0, 1.0], 1.0) == [3.0, 2.0, 1.0]
  {
    var rs := [1.0, 1.0, 1.0];
    UndiscountedRewardsAreSuffixSums(rs);
    assert rs[0..] == rs && rs[1..] == [1.0, 1.0] && rs[2..] == [1.0];
    assert Util.Sum([1.0]) == 1.0;
    assert Util.Sum([1.0, 1.0]) == 2.0 by {
      assert [1.0, 1.0][1..] == [1.0];
    }
    assert Util.Sum(rs) == 3.0 by {
      assert rs[1..] == [1.0, 1.0];
      assert [1.0, 1.0][1..] == [1.0];
    }
  }

  /** The population variance `tf.moments` reports: the mean squared distance to the mean. */
  function Variance(xs: seq<real>): real
    requires |xs| > 0
  {
    Util.Mse(xs, seq(|xs|, _ => Util.Mean(xs)))
  }

  lemma VarianceNonNegative(xs: seq<real>)
    requires |xs| > 0
    ensures Variance(xs) >= 0.0
  {
    Util.MseNonNegative(xs, seq(|xs|, _ => Util.Mean(xs)));
  }

  /** The single amount `normalizeRewards` subtracts: mean / (std + ε). */
  function NormalizationShift(rewards: seq<real>, std: real): real
    requires |rewards| > 0 && std >= 0.0
  {
    Util.Mean(rewards) / (std + NormalizationEpsilon)
  }

  /** `normalizeRewards` as written: by operator precedence it computes
      reward − mean / (std + ε), one constant shift for every element, with no scaling. */
  function NormalizeRewards(rewards: seq<real>, std: real): (rs: seq<real>)
    requires std >= 0.0
    ensures |rs| == |rewards|
  {
    if rewards == [] then []
    else
      var shift := NormalizationShift(rewards, std);
      seq(|rewards|, i requires 0 <= i < |rewards| => rewards[i] - shift)
  }

  /** Every element moves by the same amount. */
  lemma NormalizeRewardsElements(rewards: seq<real>, std: real)
    requires |rewards| > 0 && std >= 0.0
    ensures forall i :: 0 <= i < |rewards| ==>
      NormalizeRewards(rewards, std)[i] == rewards[i] - NormalizationShift(rewards, std)
  {
  }

  /** Normalising keeps every pairwise difference and therefore the order. */
  lemma NormalizeRewardsShiftsOnly(rewards: seq<real>, std: real)
    requires std >= 0.0
    ensures forall i, j :: 0 <= i < |rewards| && 0 <= j < |rewards| ==>
      NormalizeRewards(rewards, std)[i] - NormalizeRewards(rewards, std)[j] == rewards[i] - rewards[j]
    ensures forall i, j :: 0 <= i < |rewards| && 0 <= j < |rewards| ==>
      (NormalizeRewards(rewards, std)[i] <= NormalizeRewards(rewards, std)[j] <==> rewards[i] <= rewards[j])
  {
    if |rewards| > 0 {
      NormalizeRewardsElements(rewards, std);
    }
  }

  /** A zero mean makes normalising the identity. */
  lemma NormalizeZeroMeanIsIdentity(rewards: seq<real>, std: real)
    requires |rewards| > 0 && std >= 0.0 && Util.Mean(rewards) == 0.0
    ensures NormalizeRewards(rewards, std) == rewards
  {
    assert NormalizationShift(rewards, std) == 0.0;
    NormalizeRewardsElements(rewards, std);
  }

  /** The new mean is the old one less the shift, so it is 0 only when std + ε is 1. */
  lemma NormalizeRewardsMean(rewards: seq<real>, std: real)
    requires |rewards| > 0 && std >= 0.0
    ensures Util.Mean(NormalizeRewards(rewards, std)) == Util.Mean(rewards) - NormalizationShift(rewards, std)
  {
    var shift := NormalizationShift(rewards, std);
    NormalizeRewardsElements(rewards, std);
    assert NormalizeRewards(rewards, std) == seq(|rewards|, i requires 0 <= i < |rewards| => rewards[i] - shift);
    Util.SumShift(rewards, shift);
    var n := |rewards| as real;
    assert (Util.Sum(rewards) - n * shift) / n == Util.Sum(rewards) / n - shift;
  }

  /** `discountAndNormalizeRewards`: the returns-to-go, normalised with their own standard
      deviation `std`. Every return-to-go moves by the same shift, so one entry per reward
      comes out, each being the suffix's discounted sum less that shift, and the returns
      keep their pairwise differences. */
  function DiscountAndNormalizeRewards(rewards: seq<real>, gamma: real, std: real): (rs: seq<real>)
    requires std >= 0.0
    ensures |rs| == |rewards|
    ensures rewards != [] ==> forall i :: 0 <= i < |rewards| ==>
      rs[i] == DiscountedReward(rewards[i..], gamma) - NormalizationShift(DiscountedRewards(rewards, gamma), std)
    ensures forall i, j :: 0 <= i < |rewards| && 0 <= j < |rewards| ==>
      rs[i] - rs[j] == DiscountedReward(rewards[i..], gamma) - DiscountedReward(rewards[j..], gamma)
  {
    var discounted := DiscountedRewards(rewards, gamma);
    NormalizeRewardsShiftsOnly(discounted, std);
    if discounted == [] then []
    else
      NormalizeRewardsElements(discounted, std);
      NormalizeRewards(discounted, std)
  }

  /** `calculateLoss`: −Σ logProbability[i]·return[i]. */
  function CalculateLoss(logProbabilities: seq<real>, normalized: seq<real>): real
    requires |logProbabilities| == |normalized|
  {
    -Util.Dot(logProbabilities, normalized)
  }

  /** Log-probabilities are at most 0, so against non-negative normalized the loss is at
      least 0; the loss is additive over a split episode. */
  lemma CalculateLossProperties(logProbabilities: seq<real>, normalized: seq<real>, k: nat)
    requires |logProbabilities| == |normalized| && k <= |normalized|
    ensures (forall i :: 0 <= i < |normalized| ==> logProbabilities[i] <= 0.0 && normalized[i] >= 0.0) ==>
      CalculateLoss(logProbabilities, normalized) >= 0.0
    ensures CalculateLoss(logProbabilities, normalized)
      == CalculateLoss(logProbabilities[..k], normalized[..k]) + CalculateLoss(logProbabilities[k..], normalized[k..])
  {
    if forall i :: 0 <= i < |normalized| ==> logProbabilities[i] <= 0.0 && normalized[i] >= 0.0 {
      Util.DotNonPositive(logProbabilities, normalized);
    }
    Util.DotAppend(logProbabilities[..k], normalized[..k], logProbabilities[k..], normalized[k..]);
    assert logProbabilities[..k] + logProbabilities[k..] == logProbabilities;
    assert normalized[..k] + normalized[k..] == normalized;
  }

  class Reinforce {
    const gamma: real
    const numActions: nat
    const predict: (seq<real>, Observation) -> seq<real>
    const log: real -> real
    const sqrt: real -> real
    const minimize: (seq<real>, seq<Observation>, seq<nat>, seq<real>) -> seq<real>
    var weights: seq<real>

    /** The network puts out one probability per action, and `sqrt` is a square root. */
    ghost predicate Valid()
      reads this
    {
      && numActions > 0
      && (forall w, o :: |predict(w, o)| == numActions)
      && (forall x :: 0.0 <= x ==> 0.0 <= sqrt(x) && sqrt(x) * sqrt(x) == x)
    }

    constructor (
      numActions: nat, gamma: real,
      predict: (seq<real>, Observation) -> seq<real>, log: real -> real, sqrt: real -> real,
      minimize: (seq<real>, seq<Observation>, seq<nat>, seq<real>) -> seq<real>,
      initialWeights: seq<real>)
      requires numActions > 0
      requires forall w, o :: |predict(w, o)| == numActions
      requires forall x :: 0.0 <= x ==> 0.0 <= sqrt(x) && sqrt(x) * sqrt(x) == x
      ensures Valid()
      ensures this.numActions == numActions && this.gamma == gamma && weights == initialWeights
      ensures this.predict == predict && this.log == log && this.sqrt == sqrt && this.minimize == minimize
    {
      this.numActions := numActions;
      this.gamma := gamma;
      this.predict := predict;
      this.log := log;
      this.sqrt := sqrt;
      this.minimize := minimize;
      weights := initialWeights;
    }

    /** The standard deviation `tf.moments` yields for a non-empty list. */
    function StandardDeviation(xs: seq<real>): (std: real)
      requires Valid() && |xs| > 0
      reads this
      ensures std >= 0.0 && std * std == Variance(xs)
    {
      VarianceNonNegative(xs);
      sqrt(Variance(xs))
    }

    /** The returns an episode's rewards are trained on. */
    function Returns(rewards: seq<real>): (rs: seq<real>)
      requires Valid()
      reads this
      ensures |rs| == |rewards|
    {
      if rewards == [] then []
      else DiscountAndNormalizeRewards(rewards, gamma, StandardDeviation(DiscountedRewards(rewards, gamma)))
    }

    /** `getSample`: draw an action from the policy's output and step the environment. */
    method GetSample(env: Environments.Environment, rng: Rng.Rng, observation: Observation)
      returns (action: nat, logProbability: real, sample: Result<Sample>)
      requires Valid() && env.Valid()
      modifies env.Repr(), rng
      ensures env.Valid()
      ensures action < numActions && logProbability == log(predict(weights, observation)[action])
      ensures sample.Ok? ==> env.Budget() <= old(env.Budget())
      ensures sample.Ok? && !sample.value.done ==> env.Budget() < old(env.Budget())
    {
      var output := predict(weights, observation);
      action := rng.Categorical(output);
      logProbability := log(output[action]);
      sample := env.Step(action);
    }

    /** One episode: reset once, sample and record one reward per step until `done`, then
        one optimiser step on the whole episode. Returns the sum of the rewards. */
    method RunEpisode(env: Environments.Environment, rng: Rng.Rng)
      returns (result: Result<real>, ghost first: Observation, ghost observations: seq<Observation>,
               ghost actions: seq<nat>, ghost samples: seq<Sample>)
      requires Valid() && env.Valid()
      modifies this, env.Repr(), rng
      ensures Valid() && env.Valid()
      ensures env.IsResetObservation(first)
      ensures observations != [] ==> observations[0] == first
      ensures |observations| == |actions| == |samples|
      ensures forall i :: 0 <= i < |actions| ==> actions[i] < numActions
      ensures forall i :: 0 <= i < |samples| - 1 ==> observations[i + 1] == samples[i].observation
      ensures result.Err? ==> weights == old(weights)
      ensures result.Ok? ==>
        && EndsAtFirstDone(samples)
        && result.value == Util.Sum(Rewards(samples))
        && weights == minimize(old(weights), observations, actions, Returns(Rewards(samples)))
    {
      var observation := env.Reset(rng);
      first := observation;
      var done := false;
      var rewards: seq<real> := [];
      var logProbabilities: seq<real> := [];
      var seen: seq<Observation> := [];
      var taken: seq<nat> := [];
      samples := [];

      while !done
        invariant Valid() && env.Valid() && weights == old(weights)
        invariant Rollout(seen, samples, observation, done)
        invariant (if seen == [] then observation else seen[0]) == first
        invariant |taken| == |samples| && |logProbabilities| == |samples|
        invariant forall i :: 0 <= i < |taken| ==> taken[i] < numActions
        invariant rewards == Rewards(samples)
        decreases (if done then 0 else 1) + env.Budget()
      {
        var action, logProbability, sample := GetSample(env, rng, observation);
        if sample.Err? {
          return Err(sample.error), first, seen, taken, samples;
        }
        RolloutSnoc(seen, samples, observation, sample.value);
        seen := seen + [observation];
        taken := taken + [action];
        samples := samples + [sample.value];
        observation := sample.value.observation;
        done := sample.value.done;
        rewards := rewards + [sample.value.reward];
        logProbabilities := logProbabilities + [logProbability];
      }

      RolloutEnds(seen, samples, observation);
      weights := minimize(weights, seen, taken, Returns(rewards));
      return Ok(Util.Sum(rewards)), first, seen, taken, samples;
    }
  }
}
