/** The training loop of `src/train.ts`: warmup episodes whose returns are discarded, then
    up to `maxEpisodes` episodes with a rolling average over the last 100 returns, logging
    on a fixed period, and an early stop at the first win. Logging writes a file and is
    represented here by the list of episodes it happens on. */
module Training {
  import opened Wrappers
  import Util
  import Core
  import ReplayMemory
  import Rng
  import Environments
  import Agents

  /** The rolling average always covers the last 100 returns, whatever the
      `rollingAveragePeriod` option says. */
  const RollingWindow: nat := 100

  datatype TrainingOptions = TrainingOptions(
    maxEpisodes: int,
    rollingAveragePeriod: int,
    logPeriod: int,
    logDirectory: string,
    seed: int,
    warmupEpisodes: int)

  /** `returns.slice(-100)`: the last 100 returns, or all of them when there are fewer. */
  function Window(episodeReturns: seq<real>): (w: seq<real>)
    ensures w == ReplayMemory.Last(episodeReturns, RollingWindow)
    ensures |w| == if |episodeReturns| <= RollingWindow then |episodeReturns| else RollingWindow
  {
    ReplayMemory.Slice(episodeReturns, -(RollingWindow as int))
  }

  function RollingAverage(episodeReturns: seq<real>): real
    requires |episodeReturns| > 0
  {
    Util.Mean(Window(episodeReturns))
  }

  /** Once 100 returns are in, anything older no longer affects the average. */
  lemma RollingAverageForgetsOlderReturns(older: seq<real>, recent: seq<real>)
    requires |recent| >= RollingWindow
    ensures RollingAverage(older + recent) == RollingAverage(recent)
  {
    var all := older + recent;
    assert Window(all) == all[|all| - RollingWindow..];
    assert all[|all| - RollingWindow..] == recent[|recent| - RollingWindow..];
  }

  /** The average lies within any bounds that hold for every return in the window. */
  lemma RollingAverageBounds(episodeReturns: seq<real>, lo: real, hi: real)
    requires |episodeReturns| > 0
    requires forall i :: 0 <= i < |episodeReturns| ==> lo <= episodeReturns[i] <= hi
    ensures lo <= RollingAverage(episodeReturns) <= hi
  {
    var w := Window(episodeReturns);
    forall k | 0 <= k < |w| ensures lo <= w[k] <= hi {
      assert w[k] == episodeReturns[|episodeReturns| - |w| + k];
    }
    Util.MeanBounds(w, lo, hi);
  }

  /** Fewer than 100 returns are averaged whole. */
  lemma RollingAverageOfShortRun(episodeReturns: seq<real>)
    requires 0 < |episodeReturns| <= RollingWindow
    ensures RollingAverage(episodeReturns) == Util.Sum(episodeReturns) / |episodeReturns| as real
  {
  }

  /** `didWin`: a winning score is declared, enough episodes have run, and the average
      reaches the score. */
  predicate DidWin(winningScore: Option<real>, episode: int, rollingAveragePeriod: int, average: real)
  {
    winningScore.Some? && episode >= rollingAveragePeriod && average >= winningScore.value
  }

  /** Whether training episode `episode` (counted from 1) won, given the returns so far. */
  predicate WonIn(winningScore: Option<real>, rollingAveragePeriod: int, episodeReturns: seq<real>, episode: int)
    requires 1 <= episode <= |episodeReturns|
  {
    DidWin(winningScore, episode, rollingAveragePeriod, RollingAverage(episodeReturns[..episode]))
  }

  /** An episode is logged when its number is a multiple of `logPeriod` or when it wins.
      JavaScript's `x % 0` is NaN, so a zero period logs only wins; for positive episode
      numbers JavaScript's and Euclidean remainders agree whatever the sign of the period. */
  predicate ShouldLog(episode: int, logPeriod: int, didWin: bool)
  {
    (logPeriod != 0 && episode % logPeriod == 0) || didWin
  }

  /** Training episodes do not change whether earlier ones won: the average of episode e
      depends only on the first e returns. */
  lemma WonInPrefix(winningScore: Option<real>, period: int, episodeReturns: seq<real>, ret: real, episode: int)
    requires 1 <= episode <= |episodeReturns|
    ensures WonIn(winningScore, period, episodeReturns + [ret], episode) <==> WonIn(winningScore, period, episodeReturns, episode)
  {
    assert (episodeReturns + [ret])[..episode] == episodeReturns[..episode];
  }

  function NonNegative(n: int): nat
  {
    if n < 0 then 0 else n
  }

  /** The bookkeeping after a run of training episodes: one rolling average per return,
      each over the returns up to its episode, and the logged episodes exactly those that
      `ShouldLog` picks. */
  ghost predicate Recorded(
    winningScore: Option<real>, period: int, logPeriod: int,
    episodeReturns: seq<real>, rollingAverages: seq<real>, logged: seq<int>)
  {
    && |rollingAverages| == |episodeReturns|
    && (forall k :: 0 <= k < |episodeReturns| ==> rollingAverages[k] == RollingAverage(episodeReturns[..k + 1]))
    && (forall e :: e in logged <==>
          1 <= e <= |episodeReturns| && ShouldLog(e, logPeriod, WonIn(winningScore, period, episodeReturns, e)))
  }

  /** One more episode extends the bookkeeping by its return, its average and, when it is
      logged, its number; whether earlier episodes won is unchanged. */
  lemma {:induction false} RecordedSnoc(
    winningScore: Option<real>, period: int, logPeriod: int,
    episodeReturns: seq<real>, rollingAverages: seq<real>, logged: seq<int>, ret: real)
    requires Recorded(winningScore, period, logPeriod, episodeReturns, rollingAverages, logged)
    ensures var next := episodeReturns + [ret];
      var episode := |next|;
      && Recorded(winningScore, period, logPeriod, next, rollingAverages + [RollingAverage(next)],
           if ShouldLog(episode, logPeriod, DidWin(winningScore, episode, period, RollingAverage(next)))
           then logged + [episode] else logged)
      && WonIn(winningScore, period, next, episode) == DidWin(winningScore, episode, period, RollingAverage(next))
      && forall e :: 1 <= e <= |episodeReturns| ==>
           (WonIn(winningScore, period, next, e) <==> WonIn(winningScore, period, episodeReturns, e))
  {
    var next := episodeReturns + [ret];
    var episode := |next|;
    var averages := rollingAverages + [RollingAverage(next)];
    forall e | 1 <= e <= |episodeReturns|
      ensures WonIn(winningScore, period, next, e) <==> WonIn(winningScore, period, episodeReturns, e)
    {
      WonInPrefix(winningScore, period, episodeReturns, ret, e);
    }
    forall k | 0 <= k < |next|
      ensures averages[k] == RollingAverage(next[..k + 1])
    {
      if k < |episodeReturns| {
        assert next[..k + 1] == episodeReturns[..k + 1];
      } else {
        assert next[..k + 1] == next;
      }
    }
    assert next[..episode] == next;
    var won := DidWin(winningScore, episode, period, RollingAverage(next));
    assert WonIn(winningScore, period, next, episode) == won;
    var nextLogged := if ShouldLog(episode, logPeriod, won) then logged + [episode] else logged;
    forall e
      ensures e in nextLogged <==> 1 <= e <= episode && ShouldLog(e, logPeriod, WonIn(winningScore, period, next, e))
    {
      if e == episode {
        assert e !in logged;
      }
    }
  }

  /** The warmup: `warmupEpisodes` episodes whose returns are dropped. */
  method WarmUp(env: Environments.Environment, agent: Agents.Agent, rng: Rng.Rng, warmupEpisodes: int)
    returns (result: Result<nat>)
    requires env.Valid() && agent.Valid()
    modifies env.Repr(), agent.Repr(), rng
    ensures env.Valid() && agent.Valid()
    ensures result.Ok? ==> result.value == NonNegative(warmupEpisodes)
  {
    var episode := 1;
    while episode <= warmupEpisodes
      invariant env.Valid() && agent.Valid()
      invariant 1 <= episode <= NonNegative(warmupEpisodes) + 1
      decreases warmupEpisodes - episode
    {
      var discarded, _ := agent.RunEpisode(env, rng);
      if discarded.Err? {
        return Err(discarded.error);
      }
      episode := episode + 1;
    }
    return Ok(episode - 1);
  }

  /** The bookkeeping of training episode `episode` once its return is known: the return
      and the new rolling average are appended, the win test is taken, and the episode is
      logged when `ShouldLog` says so. Whether earlier episodes won is unchanged. */
  method RecordEpisode(
    winningScore: Option<real>, period: int, logPeriod: int, episode: int, ret: real,
    episodeReturns: seq<real>, ghost rollingAverages: seq<real>, ghost logged: seq<int>)
    returns (didWin: bool, nextReturns: seq<real>, ghost nextAverages: seq<real>, ghost nextLogged: seq<int>)
    requires episode == |episodeReturns| + 1
    requires Recorded(winningScore, period, logPeriod, episodeReturns, rollingAverages, logged)
    ensures nextReturns == episodeReturns + [ret]
    ensures Recorded(winningScore, period, logPeriod, nextReturns, nextAverages, nextLogged)
    ensures didWin == WonIn(winningScore, period, nextReturns, episode)
    ensures forall e :: 1 <= e < episode ==>
      (WonIn(winningScore, period, nextReturns, e) <==> WonIn(winningScore, period, episodeReturns, e))
  {
    RecordedSnoc(winningScore, period, logPeriod, episodeReturns, rollingAverages, logged, ret);
    nextReturns := episodeReturns + [ret];
    var average := RollingAverage(nextReturns);
    nextAverages := rollingAverages + [average];
    didWin := DidWin(winningScore, episode, period, average);
    nextLogged := if ShouldLog(episode, logPeriod, didWin) then logged + [episode] else logged;
  }

  /** One training episode: the agent plays an episode, and its return is recorded. */
  method TrainingEpisode(
    env: Environments.Environment, agent: Agents.Agent, rng: Rng.Rng,
    winningScore: Option<real>, period: int, logPeriod: int, episode: int,
    episodeReturns: seq<real>, ghost rollingAverages: seq<real>, ghost logged: seq<int>)
    returns (result: Result<bool>, ret: real, nextReturns: seq<real>, ghost nextAverages: seq<real>,
             ghost nextLogged: seq<int>, ghost samples: seq<Core.Sample>)
    requires env.Valid() && agent.Valid()
    requires episode == |episodeReturns| + 1
    requires Recorded(winningScore, period, logPeriod, episodeReturns, rollingAverages, logged)
    requires forall e :: 1 <= e < episode ==> !WonIn(winningScore, period, episodeReturns, e)
    modifies env.Repr(), agent.Repr(), rng
    ensures env.Valid() && agent.Valid()
    ensures result.Ok? ==>
      && nextReturns == episodeReturns + [ret]
      && Agents.EpisodeReturn(samples, ret)
      && Recorded(winningScore, period, logPeriod, nextReturns, nextAverages, nextLogged)
      && result.value == WonIn(winningScore, period, nextReturns, episode)
      && forall e :: 1 <= e < episode ==> !WonIn(winningScore, period, nextReturns, e)
  {
    var played;
    played, samples := agent.RunEpisode(env, rng);
    if played.Err? {
      return Err(played.error), 0.0, episodeReturns, rollingAverages, logged, samples;
    }
    ret := played.value;
    var didWin;
    didWin, nextReturns, nextAverages, nextLogged :=
      RecordEpisode(winningScore, period, logPeriod, episode, ret, episodeReturns, rollingAverages, logged);
    result := Ok(didWin);
  }

  /** The training episodes of `train`, after the warmup: each appends its return and
      the new rolling average, so both lists always have one entry per episode run. The
      result is true at the first winning episode, after which nothing more runs, and false
      after exactly `maxEpisodes` episodes without a win; an environment without a winning
      score never wins. An episode that fails ends training with its error. */
  method TrainingEpisodes(env: Environments.Environment, agent: Agents.Agent, rng: Rng.Rng, options: TrainingOptions)
    returns (result: Result<bool>, ghost episodeReturns: seq<real>,
             ghost rollingAverages: seq<real>, ghost logged: seq<int>)
    requires env.Valid() && agent.Valid()
    modifies env.Repr(), agent.Repr(), rng
    ensures env.Valid() && agent.Valid()
    ensures |episodeReturns| <= NonNegative(options.maxEpisodes)
    ensures Recorded(env.WinningScore(), options.rollingAveragePeriod, options.logPeriod,
                     episodeReturns, rollingAverages, logged)
    ensures forall e :: 1 <= e < |episodeReturns| ==> !WonIn(env.WinningScore(), options.rollingAveragePeriod, episodeReturns, e)
    ensures result == Ok(true) ==>
      |episodeReturns| >= 1 && WonIn(env.WinningScore(), options.rollingAveragePeriod, episodeReturns, |episodeReturns|)
    ensures result == Ok(false) ==>
      && |episodeReturns| == NonNegative(options.maxEpisodes)
      && forall e :: 1 <= e <= |episodeReturns| ==> !WonIn(env.WinningScore(), options.rollingAveragePeriod, episodeReturns, e)
  {
    var score := env.WinningScore();
    var period := options.rollingAveragePeriod;
    var trained: seq<real> := [];
    episodeReturns := [];
    rollingAverages := [];
    logged := [];

    var episode := 1;
    while episode <= options.maxEpisodes
      invariant env.Valid() && agent.Valid()
      invariant 1 <= episode <= NonNegative(options.maxEpisodes) + 1
      invariant episode == |trained| + 1 && trained == episodeReturns
      invariant Recorded(score, period, options.logPeriod, episodeReturns, rollingAverages, logged)
      invariant forall e :: 1 <= e < episode ==> !WonIn(score, period, episodeReturns, e)
      decreases options.maxEpisodes - episode
    {
      var played, _, next, nextAverages, nextLogged, _ :=
        TrainingEpisode(env, agent, rng, score, period, options.logPeriod, episode, trained, rollingAverages, logged);
      if played.Err? {
        return Err(played.error), episodeReturns, rollingAverages, logged;
      }
      var didWin := played.value;
      trained, rollingAverages, logged := next, nextAverages, nextLogged;
      episodeReturns := trained;
      if didWin {
        return Ok(true), episodeReturns, rollingAverages, logged;
      }
      episode := episode + 1;
    }
    result := Ok(false);
  }

  /** `train`: the warmup, whose returns are dropped, then the training episodes. */
  method Train(env: Environments.Environment, agent: Agents.Agent, rng: Rng.Rng, options: TrainingOptions)
    returns (result: Result<bool>, ghost warmupsRun: nat, ghost episodeReturns: seq<real>,
             ghost rollingAverages: seq<real>, ghost logged: seq<int>)
    requires env.Valid() && agent.Valid()
    modifies env.Repr(), agent.Repr(), rng
    ensures env.Valid() && agent.Valid()
    ensures result.Ok? ==> warmupsRun == NonNegative(options.warmupEpisodes)
    ensures |episodeReturns| <= NonNegative(options.maxEpisodes)
    ensures Recorded(env.WinningScore(), options.rollingAveragePeriod, options.logPeriod,
                     episodeReturns, rollingAverages, logged)
    ensures forall e :: 1 <= e < |episodeReturns| ==> !WonIn(env.WinningScore(), options.rollingAveragePeriod, episodeReturns, e)
    ensures result == Ok(true) ==>
      |episodeReturns| >= 1 && WonIn(env.WinningScore(), options.rollingAveragePeriod, episodeReturns, |episodeReturns|)
    ensures result == Ok(false) ==>
      && |episodeReturns| == NonNegative(options.maxEpisodes)
      && forall e :: 1 <= e <= |episodeReturns| ==> !WonIn(env.WinningScore(), options.rollingAveragePeriod, episodeReturns, e)
    ensures env.WinningScore().None? ==> result != Ok(true)
  {
    episodeReturns, rollingAverages, logged := [], [], [];
    var warm := WarmUp(env, agent, rng, options.warmupEpisodes);
    if warm.Err? {
      return Err(warm.error), 0, episodeReturns, rollingAverages, logged;
    }
    warmupsRun := warm.value;
    result, episodeReturns, rollingAverages, logged := TrainingEpisodes(env, agent, rng, options);
  }
}
