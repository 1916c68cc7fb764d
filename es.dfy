/** The ES algorithm object: its setup, the coordinator's collection loop
    (`ES._collect_results`) and the bookkeeping part of one training
    iteration (`ES.step`). A round calls `do_rollouts` once per worker, in
    worker order. */
module Algorithm {
  import opened Wrappers
  import opened Workers
  import opened Batches
  import opened Config
  import Slicing

  /** What `_collect_results` returns: the bundles and the two counters. */
  datatype Collection = Collection(results: seq<Bundle>, numEpisodes: nat, numTimesteps: nat)

  /** The bookkeeping part of the dictionary `step` returns. A mean numpy
      reports as NaN (over an empty list) is `None`. */
  datatype Report = Report(
    episodeRewardMean: Option<real>,
    episodeLenMean: Option<real>,
    timestepsThisIter: nat,
    episodesThisIter: nat,
    episodesSoFar: int)

  /** Why `step` raises: a worker's `do_rollouts` raised, or the iteration
      collected no perturbation pair, so the array of return pairs is
      one-dimensional and selecting its columns fails. */
  datatype StepError = RolloutFailed(cause: RolloutError) | EmptyBatch

  /** `np.mean` of a non-empty list. */
  function Mean(xs: seq<real>): real
    requires |xs| > 0
  {
    Sum(xs) / (|xs| as real)
  }

  /** `np.mean`, with `None` for the NaN of an empty list. */
  function MeanOf(xs: seq<real>): Option<real> {
    if |xs| == 0 then None else Some(Mean(xs))
  }

  /** A list of lengths as reals. */
  function AsReals(xs: seq<nat>): (r: seq<real>)
    ensures |r| == |xs|
  {
    seq(|xs|, i requires 0 <= i < |xs| => xs[i] as real)
  }

  /** Bounds on every element bound the sum. */
  lemma {:induction false} SumBetween(xs: seq<real>, lo: real, hi: real)
    requires forall i :: 0 <= i < |xs| ==> lo <= xs[i] <= hi
    ensures (|xs| as real) * lo <= Sum(xs) <= (|xs| as real) * hi
  {
    if |xs| > 0 {
      SumBetween(xs[1..], lo, hi);
    }
  }

  /** The mean of the evaluation returns, which `step` appends to the reward
      list, lies between the smallest and the largest of them. */
  lemma MeanBetween(xs: seq<real>, lo: real, hi: real)
    requires |xs| > 0
    requires forall i :: 0 <= i < |xs| ==> lo <= xs[i] <= hi
    ensures lo <= Mean(xs) <= hi
  {
    SumBetween(xs, lo, hi);
    var n := |xs| as real;
    assert n * lo <= Sum(xs) <= n * hi;
    assert Sum(xs) / n >= lo by {
      assert Sum(xs) >= n * lo;
    }
    assert Sum(xs) / n <= hi by {
      assert Sum(xs) <= n * hi;
    }
  }

  /** `reward_list[-report_length:]`. With a positive length it is the last
      `report_length` rewards (all of them when fewer exist); because `-0` is
      `0` in Python, a length of zero selects the whole list; a negative
      length drops that many rewards from the front. */
  function RecentRewards(rewards: seq<real>, reportLength: int): (r: seq<real>)
    ensures reportLength > 0 && reportLength <= |rewards| ==> r == rewards[|rewards| - reportLength..]
    ensures reportLength > |rewards| ==> r == rewards
    ensures reportLength == 0 ==> r == rewards
    ensures reportLength < 0 && -reportLength <= |rewards| ==> r == rewards[-reportLength..]
    ensures reportLength < 0 && -reportLength > |rewards| ==> r == []
  {
    Slicing.Slice(rewards, -reportLength, |rewards|)
  }

  /** The inner loop of `_collect_results` over the bundles of one round:
      each bundle is appended to the results, and its episodes (two per
      pair) and timesteps (the sum of each pair) are added to the counters,
      which therefore keep counting exactly the collected bundles. */
  method Tally(results: seq<Bundle>, numEpisodes: nat, numTimesteps: nat, bundles: seq<Bundle>)
    returns (newResults: seq<Bundle>, newEpisodes: nat, newTimesteps: nat)
    requires numEpisodes == EpisodeCount(results) && numTimesteps == TimestepCount(results)
    ensures newResults == results + bundles
    ensures newEpisodes == EpisodeCount(newResults) == numEpisodes + EpisodeCount(bundles)
    ensures newTimesteps == TimestepCount(newResults) == numTimesteps + TimestepCount(bundles)
  {
    newResults, newEpisodes, newTimesteps := results, numEpisodes, numTimesteps;
    for i := 0 to |bundles|
      invariant newResults == results + bundles[..i]
      invariant newEpisodes == EpisodeCount(newResults) && newTimesteps == TimestepCount(newResults)
    {
      var b := bundles[i];
      CountsAppendOne(newResults, b);
      ExtendPrefix(results, bundles, i);
      newResults := newResults + [b];
      newEpisodes := newEpisodes + PairEpisodes(b.noisyLengths);
      newTimesteps := newTimesteps + PairTimesteps(b.noisyLengths);
    }
    assert bundles[..|bundles|] == bundles;
    CountsAppend(results, bundles);
  }

  /** The loop of `ES.step` over the collected bundles: every list of every
      bundle is appended, bundle after bundle, to the matching accumulated
      list (the sign-return pairs are not). */
  method MergeResults(results: seq<Bundle>) returns (m: Batch)
    ensures m == Merge(results)
  {
    var allNoiseIndices: seq<int>, allTrainingReturns: seq<seq<real>>, allTrainingLengths: seq<seq<nat>> := [], [], [];
    var allEvalReturns: seq<real>, allEvalLengths: seq<nat> := [], [];
    for i := 0 to |results|
      invariant Batch(allNoiseIndices, allTrainingReturns, allTrainingLengths, allEvalReturns, allEvalLengths)
                == Merge(results[..i])
    {
      assert results[..i + 1][..i] == results[..i];
      allEvalReturns := allEvalReturns + results[i].evalReturns;
      allEvalLengths := allEvalLengths + results[i].evalLengths;
      allNoiseIndices := allNoiseIndices + results[i].noiseIndices;
      allTrainingReturns := allTrainingReturns + results[i].noisyReturns;
      allTrainingLengths := allTrainingLengths + results[i].noisyLengths;
    }
    assert results[..|results|] == results;
    m := Batch(allNoiseIndices, allTrainingReturns, allTrainingLengths, allEvalReturns, allEvalLengths);
  }

  /** Every `do_rollouts` call of every round is allowed to stop. */
  ghost predicate AllHalt(workers: seq<Worker>, oracles: (nat, nat) -> Oracle) {
    forall k: nat, i: nat :: i < |workers| ==> Halts(oracles(k, i), workers[i].evalProb)
  }

  /** Every episode of every round lasts at least one step. */
  ghost predicate AllProductive(workers: seq<Worker>, oracles: (nat, nat) -> Oracle) {
    forall k: nat, i: nat :: i < |workers| ==> Productive(oracles(k, i))
  }

  /** `outcomes` records what the workers return: whenever worker `i`'s
      table is wide enough, `outcomes(k, i)` is the bundle of its
      `do_rollouts` call in round `k`, made with the oracle `oracles(k, i)`. */
  ghost predicate Describes(outcomes: Outcomes, workers: seq<Worker>, theta: seq<real>, oracles: (nat, nat) -> Oracle)
    requires AllHalt(workers, oracles)
  {
    forall k: nat, i: nat {:trigger Rollouts(workers[i], theta, oracles(k, i))} ::
      i < |workers| && |theta| <= |workers[i].noise| ==> outcomes(k, i) == Rollouts(workers[i], theta, oracles(k, i))
  }

  /** One table the workers' results fill in; a call that raises, or a
      worker that does not exist, stands as an empty bundle. */
  ghost function WorkerOutcomes(workers: seq<Worker>, theta: seq<real>, oracles: (nat, nat) -> Oracle): (outcomes: Outcomes)
    requires AllHalt(workers, oracles)
    ensures Describes(outcomes, workers, theta, oracles)
  {
    (k: nat, i: nat) =>
      if i < |workers| && |theta| <= |workers[i].noise| then Rollouts(workers[i], theta, oracles(k, i))
      else Bundle([], [], [], [], [], [])
  }

  /** When every worker's table is wide enough, the workers' bundles are
      well-formed and hold a pair, and their episodes last at least one step
      when the environment's do. */
  lemma DescribedSound(outcomes: Outcomes, workers: seq<Worker>, theta: seq<real>, oracles: (nat, nat) -> Oracle)
    requires AllHalt(workers, oracles) && Describes(outcomes, workers, theta, oracles)
    requires forall i :: 0 <= i < |workers| ==> |theta| <= |workers[i].noise|
    ensures Sound(outcomes, |workers|)
    ensures AllProductive(workers, oracles) ==> Lively(outcomes, |workers|)
  {
    forall k: nat, i: nat | i < |workers|
      ensures WellFormed(outcomes(k, i)) && |outcomes(k, i).noiseIndices| >= 1
      ensures AllProductive(workers, oracles) ==> PositiveLengths(outcomes(k, i))
    {
      var b := Rollouts(workers[i], theta, oracles(k, i));
      assert outcomes(k, i) == b;
      if AllProductive(workers, oracles) {
        assert Productive(oracles(k, i));
      }
    }
  }

  class ES {
    const config: ConfigDict
    const noise: seq<real>
    const workers: seq<Worker>
    var episodesSoFar: int
    var rewardList: seq<real>
    var agentStepsSampled: int
    var envStepsSampled: int
    var agentStepsTrained: int
    var envStepsTrained: int

    /** After setup: at least one worker, and every worker holds the shared
        table and the configured evaluation probability and noise scale. */
    ghost predicate Valid() {
      && |workers| == config.numWorkers
      && |workers| > 0
      && forall i :: 0 <= i < |workers| ==> workers[i] == Worker(noise, config.evalProb, config.noiseStdev)
    }

    /** The part of `ES.setup` after validation: one worker per
        `num_workers`, fresh counters and an empty reward list. */
    constructor (config: ConfigDict, noise: seq<real>)
      requires ValidateConfig(config).Pass?
      ensures Valid()
      ensures this.config == config && this.noise == noise
      ensures episodesSoFar == 0 && rewardList == []
      ensures agentStepsSampled == 0 && envStepsSampled == 0
      ensures agentStepsTrained == 0 && envStepsTrained == 0
    {
      this.config := config;
      this.noise := noise;
      this.workers := seq(config.numWorkers, _ => Worker(noise, config.evalProb, config.noiseStdev));
      episodesSoFar := 0;
      rewardList := [];
      agentStepsSampled, envStepsSampled := 0, 0;
      agentStepsTrained, envStepsTrained := 0, 0;
    }

    /** `ES.setup`: refuses a configuration `validate_config` rejects, with
        that error, and otherwise builds the algorithm object around the
        given noise table. */
    static method Setup(config: ConfigDict, noise: seq<real>) returns (r: Result<ES, ConfigError>)
      ensures r.Success? <==> ValidateConfig(config).Pass?
      ensures r.Failure? ==> ValidateConfig(config) == Fail(r.error)
      ensures r.Success? ==> fresh(r.value) && r.value.Valid()
      ensures r.Success? ==> r.value.config == config && r.value.noise == noise
      ensures r.Success? ==> r.value.episodesSoFar == 0 && r.value.rewardList == []
    {
      var check := ValidateConfig(config);
      if check.Fail? {
        return Failure(check.error);
      }
      var es := new ES(config, noise);
      r := Success(es);
    }

    /** One round of `_collect_results`: a `do_rollouts` call on every
        worker, gathered in worker order. The first call that raises ends the
        round with its error; this happens exactly when the table is
        narrower than the parameter vector. */
    method RunRound(theta: seq<real>, oracles: (nat, nat) -> Oracle, k: nat, ghost outcomes: Outcomes)
      returns (r: Result<seq<Bundle>, RolloutError>)
      requires Valid()
      requires AllHalt(workers, oracles) && Describes(outcomes, workers, theta, oracles)
      ensures r.Failure? <==> |theta| > |noise|
      ensures r.Success? ==> r.value == Round(outcomes, |workers|, k)
    {
      ghost var round := Round(outcomes, |workers|, k);
      var bundles: seq<Bundle> := [];
      var i := 0;
      while i < |workers|
        invariant 0 <= i <= |workers|
        invariant i > 0 ==> |theta| <= |noise|
        invariant bundles == round[..i]
      {
        var bundle := DoRollouts(workers[i], theta, oracles(k, i));
        if bundle.Failure? {
          return Failure(bundle.error);
        }
        assert bundle.value == round[i];
        ExtendPrefix([], round, i);
        bundles := bundles + [bundle.value];
        i := i + 1;
      }
      assert round[..i] == round;
      r := Success(bundles);
    }

    /** `ES._collect_results`: whole rounds until both quotas are met. It
        raises (on the first round) exactly when the table is narrower than
        the parameter vector and the quotas are not met from the start.
        Otherwise the bundles are those of the first `rounds` rounds, a
        multiple of the worker count; the quotas hold; the counters are two
        episodes per pair and the sum of all pair lengths; and no earlier
        round boundary met the quotas. */
    method CollectResults(theta: seq<real>, minEpisodes: int, minTimesteps: int, oracles: (nat, nat) -> Oracle,
                          ghost outcomes: Outcomes)
      returns (r: Result<Collection, RolloutError>, rounds: nat)
      requires Valid()
      requires AllHalt(workers, oracles) && AllProductive(workers, oracles)
      requires Describes(outcomes, workers, theta, oracles)
      ensures r.Failure? <==> |theta| > |noise| && !QuotaMet(0, 0, minEpisodes, minTimesteps)
      ensures r.Success? ==> rounds == 0 || |theta| <= |noise|
      ensures r.Success? && rounds > 0 ==> Sound(outcomes, |workers|)
      ensures r.Success? ==> r.value.results == Rounds(outcomes, |workers|, rounds)
      ensures r.Success? ==> |r.value.results| == rounds * |workers|
      ensures r.Success? ==> QuotaMet(r.value.numEpisodes, r.value.numTimesteps, minEpisodes, minTimesteps)
      ensures r.Success? ==> r.value.numEpisodes == EpisodeCount(r.value.results) == 2 * PairCount(r.value.results)
      ensures r.Success? ==> r.value.numTimesteps == TimestepCount(r.value.results)
      ensures r.Success? ==> forall b :: b in r.value.results ==> WellFormed(b) && |b.noiseIndices| >= 1
      ensures r.Success? ==> forall j :: 0 <= j < rounds ==>
                MissedAt(outcomes, |workers|, minEpisodes, minTimesteps, j)
    {
      if |theta| <= |noise| {
        DescribedSound(outcomes, workers, theta, oracles);
      }
      var numEpisodes: nat, numTimesteps: nat := 0, 0;
      var results: seq<Bundle> := [];
      rounds := 0;
      while numEpisodes < minEpisodes || numTimesteps < minTimesteps
        invariant rounds > 0 ==> |theta| <= |noise|
        invariant results == Rounds(outcomes, |workers|, rounds)
        invariant numEpisodes == EpisodeCount(results) && numTimesteps == TimestepCount(results)
        invariant forall j :: 0 <= j < rounds ==> MissedAt(outcomes, |workers|, minEpisodes, minTimesteps, j)
        decreases (if numEpisodes < minEpisodes then minEpisodes - numEpisodes else 0)
                + (if numTimesteps < minTimesteps then minTimesteps - numTimesteps else 0)
      {
        var round := RunRound(theta, oracles, rounds, outcomes);
        if round.Failure? {
          return Failure(round.error), rounds;
        }
        assert MissedAt(outcomes, |workers|, minEpisodes, minTimesteps, rounds);
        assert forall j :: 0 <= j < rounds + 1 ==> MissedAt(outcomes, |workers|, minEpisodes, minTimesteps, j);
        results, numEpisodes, numTimesteps := Tally(results, numEpisodes, numTimesteps, round.value);
        RoundAddsAtLeast(outcomes, |workers|, rounds);
        rounds := rounds + 1;
      }
      RoundsShape(outcomes, |workers|, rounds);
      r := Success(Collection(results, numEpisodes, numTimesteps));
    }

    /** The part of `ES.step` after collection, on the collected bundles and
        counters: advance the sampled and trained step counters by the
        timesteps, concatenate the bundles (whose parallel lists then have
        equal lengths), advance `episodes_so_far` by the episodes, and append
        the mean evaluation return to the reward list only when an
        evaluation run happened. It raises when no pair was collected,
        because the return processing cannot index an empty batch; the
        counters have then moved by zero. */
    method Account(results: seq<Bundle>, numEpisodes: nat, numTimesteps: nat) returns (r: Result<Report, StepError>)
      requires forall i :: 0 <= i < |results| ==> WellFormed(results[i])
      requires numEpisodes == EpisodeCount(results) && numTimesteps == TimestepCount(results)
      modifies this
      ensures r.Failure? <==> PairCount(results) == 0
      ensures r.Failure? ==>
        && r.error == EmptyBatch
        && episodesSoFar == old(episodesSoFar) && rewardList == old(rewardList)
        && agentStepsSampled == old(agentStepsSampled) && envStepsSampled == old(envStepsSampled)
        && agentStepsTrained == old(agentStepsTrained) && envStepsTrained == old(envStepsTrained)
      ensures r.Success? ==>
        var m := Merge(results);
        && |m.noiseIndices| == PairCount(results) > 0
        && |m.evalReturns| == |m.evalLengths|
        && |m.noiseIndices| == |m.trainingReturns| == |m.trainingLengths|
        && numEpisodes == 2 * |m.noiseIndices|
        && episodesSoFar == old(episodesSoFar) + numEpisodes
        && agentStepsSampled == old(agentStepsSampled) + numTimesteps
        && envStepsSampled == old(envStepsSampled) + numTimesteps
        && agentStepsTrained == old(agentStepsTrained) + numTimesteps
        && envStepsTrained == old(envStepsTrained) + numTimesteps
        && rewardList == old(rewardList) + (if |m.evalReturns| > 0 then [Mean(m.evalReturns)] else [])
        && r.value.episodesThisIter == numEpisodes
        && r.value.timestepsThisIter == numTimesteps
        && r.value.episodesSoFar == episodesSoFar
        && r.value.episodeRewardMean == MeanOf(RecentRewards(rewardList, config.reportLength))
        && r.value.episodeLenMean == MeanOf(AsReals(m.evalLengths))
    {
      agentStepsSampled := agentStepsSampled + numTimesteps;
      envStepsSampled := envStepsSampled + numTimesteps;

      var all := MergeResults(results);
      MergeShapes(results);
      EpisodesAreTwicePairs(results);

      episodesSoFar := episodesSoFar + numEpisodes;
      if |all.noiseIndices| == 0 {
        // Nothing was collected, so every counter moved by zero; the return
        // processing then fails on the empty batch.
        return Failure(EmptyBatch);
      }
      agentStepsTrained := agentStepsTrained + numTimesteps;
      envStepsTrained := envStepsTrained + numTimesteps;
      if |all.evalReturns| > 0 {
        rewardList := rewardList + [Mean(all.evalReturns)];
      }
      r := Success(Report(
        MeanOf(RecentRewards(rewardList, config.reportLength)),
        MeanOf(AsReals(all.evalLengths)),
        PairTimesteps(all.trainingLengths),
        PairEpisodes(all.trainingLengths),
        episodesSoFar));
    }

    /** `ES.step`'s bookkeeping: collect with the configured quotas, then
        account for the collected bundles. It raises when a worker raises,
        and when the quotas are met from the start: then no round runs, no
        pair is collected, and the return processing cannot index the empty
        batch. A failed step changes no counter and no reward. */
    method Step(theta: seq<real>, oracles: (nat, nat) -> Oracle, ghost outcomes: Outcomes)
      returns (r: Result<Report, StepError>, rounds: nat)
      requires Valid()
      requires AllHalt(workers, oracles) && AllProductive(workers, oracles)
      requires Describes(outcomes, workers, theta, oracles)
      modifies this
      ensures r.Failure? <==> |theta| > |noise| || QuotaMet(0, 0, config.episodesPerBatch, config.trainBatchSize)
      ensures r == Failure(EmptyBatch) <==> QuotaMet(0, 0, config.episodesPerBatch, config.trainBatchSize)
      ensures r == Failure(RolloutFailed(WindowExceedsTable)) <==>
                |theta| > |noise| && !QuotaMet(0, 0, config.episodesPerBatch, config.trainBatchSize)
      ensures r.Failure? ==>
        && episodesSoFar == old(episodesSoFar) && rewardList == old(rewardList)
        && agentStepsSampled == old(agentStepsSampled) && envStepsSampled == old(envStepsSampled)
        && agentStepsTrained == old(agentStepsTrained) && envStepsTrained == old(envStepsTrained)
      ensures r.Success? ==> rounds > 0 && |theta| <= |noise|
      ensures r.Success? ==>
        var rs := Rounds(outcomes, |workers|, rounds);
        var m := Merge(rs);
        && QuotaMet(EpisodeCount(rs), TimestepCount(rs), config.episodesPerBatch, config.trainBatchSize)
        && |m.noiseIndices| > 0
        && |m.evalReturns| == |m.evalLengths|
        && |m.noiseIndices| == |m.trainingReturns| == |m.trainingLengths|
        && episodesSoFar == old(episodesSoFar) + EpisodeCount(rs)
        && EpisodeCount(rs) == 2 * |m.noiseIndices|
        && agentStepsSampled == old(agentStepsSampled) + TimestepCount(rs)
        && envStepsSampled == old(envStepsSampled) + TimestepCount(rs)
        && agentStepsTrained == old(agentStepsTrained) + TimestepCount(rs)
        && envStepsTrained == old(envStepsTrained) + TimestepCount(rs)
        && rewardList == old(rewardList) + (if |m.evalReturns| > 0 then [Mean(m.evalReturns)] else [])
        && r.value.episodesThisIter == EpisodeCount(rs)
        && r.value.timestepsThisIter == TimestepCount(rs)
        && r.value.episodesSoFar == episodesSoFar
        && r.value.episodeRewardMean == MeanOf(RecentRewards(rewardList, config.reportLength))
        && r.value.episodeLenMean == MeanOf(AsReals(m.evalLengths))
    {
      var collected;
      collected, rounds := CollectResults(theta, config.episodesPerBatch, config.trainBatchSize, oracles, outcomes);
      if collected.Failure? {
        assert collected.error.WindowExceedsTable?;
        return Failure(RolloutFailed(collected.error)), rounds;
      }
      CollectedBatch(outcomes, |workers|, config.episodesPerBatch, config.trainBatchSize, rounds);
      var results := collected.value.results;
      assert forall i :: 0 <= i < |results| ==> results[i] in results;
      r := Account(results, collected.value.numEpisodes, collected.value.numTimesteps);
    }
  }
}
