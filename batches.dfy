/** The coordinator's bookkeeping over worker bundles: how episodes and
    timesteps are counted, what one synchronous round of `do_rollouts` calls
    returns, and how `ES.step` concatenates the bundles of an iteration. */
module Batches {
  import opened Workers

  /** `sum(len(pair) for pair in lengths)`. */
  function PairEpisodes(lengths: seq<seq<nat>>): nat {
    if |lengths| == 0 then 0 else |lengths[0]| + PairEpisodes(lengths[1..])
  }

  /** `sum(pair)`. */
  function PairSum(pair: seq<nat>): nat {
    if |pair| == 0 then 0 else pair[0] + PairSum(pair[1..])
  }

  /** `sum(sum(pair) for pair in lengths)`. */
  function PairTimesteps(lengths: seq<seq<nat>>): nat {
    if |lengths| == 0 then 0 else PairSum(lengths[0]) + PairTimesteps(lengths[1..])
  }

  /** The episodes counted for a list of bundles, one bundle at a time. */
  function EpisodeCount(rs: seq<Bundle>): nat {
    if |rs| == 0 then 0 else EpisodeCount(rs[..|rs| - 1]) + PairEpisodes(rs[|rs| - 1].noisyLengths)
  }

  /** The timesteps counted for a list of bundles, one bundle at a time. */
  function TimestepCount(rs: seq<Bundle>): nat {
    if |rs| == 0 then 0 else TimestepCount(rs[..|rs| - 1]) + PairTimesteps(rs[|rs| - 1].noisyLengths)
  }

  /** The number of perturbation pairs in a list of bundles. */
  function PairCount(rs: seq<Bundle>): nat {
    if |rs| == 0 then 0 else PairCount(rs[..|rs| - 1]) + |rs[|rs| - 1].noiseIndices|
  }

  /** Extending a prefix of `s` by its next element. */
  lemma ExtendPrefix<T>(before: seq<T>, s: seq<T>, i: nat)
    requires i < |s|
    ensures before + s[..i] + [s[i]] == before + s[..i + 1]
  {
    assert s[..i + 1] == s[..i] + [s[i]];
  }

  /** Appending one bundle adds its episodes, timesteps and pairs. */
  lemma CountsAppendOne(rs: seq<Bundle>, b: Bundle)
    ensures EpisodeCount(rs + [b]) == EpisodeCount(rs) + PairEpisodes(b.noisyLengths)
    ensures TimestepCount(rs + [b]) == TimestepCount(rs) + PairTimesteps(b.noisyLengths)
    ensures PairCount(rs + [b]) == PairCount(rs) + |b.noiseIndices|
  {
    assert (rs + [b])[..|rs|] == rs;
  }

  /** Both quotas of `_collect_results` are met: the negation of its loop guard. */
  predicate QuotaMet(numEpisodes: int, numTimesteps: int, minEpisodes: int, minTimesteps: int) {
    numEpisodes >= minEpisodes && numTimesteps >= minTimesteps
  }

  /** What each `do_rollouts` call of the collection loop returns: the
      bundle of worker `i` in round `k` is `outcomes(k, i)`. */
  type Outcomes = (nat, nat) -> Bundle

  /** Every bundle of the first `n` workers is well-formed and holds at
      least one pair, as `do_rollouts` guarantees. */
  ghost predicate Sound(outcomes: Outcomes, n: nat) {
    forall k: nat, i: nat :: i < n ==> WellFormed(outcomes(k, i)) && |outcomes(k, i).noiseIndices| >= 1
  }

  /** Every episode of every bundle of the first `n` workers lasts at least
      one step. */
  ghost predicate Lively(outcomes: Outcomes, n: nat) {
    forall k: nat, i: nat :: i < n ==> PositiveLengths(outcomes(k, i))
  }

  /** The bundles of round `k` gathered from `n` workers, in worker order. */
  function Round(outcomes: Outcomes, n: nat, k: nat): (rs: seq<Bundle>)
    ensures |rs| == n
    ensures forall i :: 0 <= i < n ==> rs[i] == outcomes(k, i)
  {
    seq(n, i requires 0 <= i < n => outcomes(k, i))
  }

  /** The bundles of the first `k` rounds, in the order they are appended. */
  function Rounds(outcomes: Outcomes, n: nat, k: nat): (rs: seq<Bundle>)
  {
    if k == 0 then [] else Rounds(outcomes, n, k - 1) + Round(outcomes, n, k - 1)
  }

  /** `_collect_results` only ever appends whole rounds: one bundle per
      worker per round. */
  lemma {:induction false} RoundsLength(outcomes: Outcomes, n: nat, k: nat)
    ensures |Rounds(outcomes, n, k)| == k * n
  {
    if k > 0 {
      RoundsLength(outcomes, n, k - 1);
      assert k * n == (k - 1) * n + n;
    }
  }

  /** Every bundle the rounds produce is well-formed and holds a pair. */
  lemma {:induction false} RoundsWellFormed(outcomes: Outcomes, n: nat, k: nat)
    requires Sound(outcomes, n)
    ensures forall b :: b in Rounds(outcomes, n, k) ==> WellFormed(b) && |b.noiseIndices| >= 1
  {
    if k > 0 {
      RoundsWellFormed(outcomes, n, k - 1);
      var round := Round(outcomes, n, k - 1);
      forall b | b in round
        ensures WellFormed(b) && |b.noiseIndices| >= 1
      {
        var i :| 0 <= i < |round| && round[i] == b;
        assert b == outcomes(k - 1, i);
      }
    }
  }

  /** A well-formed list of pairs counts two episodes per pair. */
  lemma {:induction false} PairEpisodesOfPairs(lengths: seq<seq<nat>>)
    requires forall j :: 0 <= j < |lengths| ==> |lengths[j]| == 2
    ensures PairEpisodes(lengths) == 2 * |lengths|
  {
    if |lengths| > 0 {
      PairEpisodesOfPairs(lengths[1..]);
    }
  }

  /** A pair's sum is the sum of its two legs. */
  lemma PairSumOfPair(pair: seq<nat>)
    requires |pair| == 2
    ensures PairSum(pair) == pair[0] + pair[1]
  {
    assert PairSum(pair[1..]) == pair[1] + PairSum(pair[1..][1..]);
    assert pair[1..][1..] == [];
  }

  /** Pairs of episodes that last at least one step count at least two
      timesteps per pair. */
  lemma {:induction false} PairTimestepsOfPositive(lengths: seq<seq<nat>>)
    requires forall j :: 0 <= j < |lengths| ==> |lengths[j]| == 2
    requires forall j :: 0 <= j < |lengths| ==> forall t :: 0 <= t < |lengths[j]| ==> lengths[j][t] >= 1
    ensures PairTimesteps(lengths) >= 2 * |lengths|
  {
    if |lengths| > 0 {
      PairSumOfPair(lengths[0]);
      PairTimestepsOfPositive(lengths[1..]);
    }
  }

  /** `sum(len(pair) ...)` distributes over concatenation. */
  lemma {:induction false} PairEpisodesAppend(a: seq<seq<nat>>, b: seq<seq<nat>>)
    ensures PairEpisodes(a + b) == PairEpisodes(a) + PairEpisodes(b)
  {
    if |a| > 0 {
      assert (a + b)[1..] == a[1..] + b;
      PairEpisodesAppend(a[1..], b);
    } else {
      assert a + b == b;
    }
  }

  /** `sum(sum(pair) ...)` distributes over concatenation. */
  lemma {:induction false} PairTimestepsAppend(a: seq<seq<nat>>, b: seq<seq<nat>>)
    ensures PairTimesteps(a + b) == PairTimesteps(a) + PairTimesteps(b)
  {
    if |a| > 0 {
      assert (a + b)[1..] == a[1..] + b;
      PairTimestepsAppend(a[1..], b);
    } else {
      assert a + b == b;
    }
  }

  /** Episode and timestep counts add up over concatenated lists of bundles. */
  lemma {:induction false} CountsAppend(a: seq<Bundle>, b: seq<Bundle>)
    ensures EpisodeCount(a + b) == EpisodeCount(a) + EpisodeCount(b)
    ensures TimestepCount(a + b) == TimestepCount(a) + TimestepCount(b)
    ensures PairCount(a + b) == PairCount(a) + PairCount(b)
    decreases |b|
  {
    if |b| == 0 {
      assert a + b == a;
    } else {
      assert (a + b)[..|a + b| - 1] == a + b[..|b| - 1];
      CountsAppend(a, b[..|b| - 1]);
    }
  }

  /** With every bundle well-formed, the coordinator's episode count is twice
      the number of perturbation pairs. */
  lemma {:induction false} EpisodesAreTwicePairs(rs: seq<Bundle>)
    requires forall i :: 0 <= i < |rs| ==> WellFormed(rs[i])
    ensures EpisodeCount(rs) == 2 * PairCount(rs)
  {
    if |rs| > 0 {
      EpisodesAreTwicePairs(rs[..|rs| - 1]);
      PairEpisodesOfPairs(rs[|rs| - 1].noisyLengths);
    }
  }

  /** What `_collect_results` returns after `k` rounds of sound bundles:
      whole rounds, every bundle well-formed with a pair, and two episodes
      counted per pair. */
  lemma RoundsShape(outcomes: Outcomes, n: nat, k: nat)
    requires k > 0 ==> Sound(outcomes, n)
    ensures |Rounds(outcomes, n, k)| == k * n
    ensures forall b :: b in Rounds(outcomes, n, k) ==> WellFormed(b) && |b.noiseIndices| >= 1
    ensures EpisodeCount(Rounds(outcomes, n, k)) == 2 * PairCount(Rounds(outcomes, n, k))
  {
    RoundsLength(outcomes, n, k);
    if k > 0 {
      RoundsWellFormed(outcomes, n, k);
    }
    EpisodesAreTwicePairs(Rounds(outcomes, n, k));
  }

  /** Every bundle of a round holds at least one pair, so a prefix of `m`
      bundles of a round counts at least `2 m` episodes, and at least `2 m`
      timesteps when episodes are never empty. */
  lemma {:induction false} RoundPrefixCounts(outcomes: Outcomes, n: nat, k: nat, m: nat)
    requires Sound(outcomes, n)
    requires m <= n
    ensures EpisodeCount(Round(outcomes, n, k)[..m]) >= 2 * m
    ensures Lively(outcomes, n) ==> TimestepCount(Round(outcomes, n, k)[..m]) >= 2 * m
  {
    if m > 0 {
      var rs := Round(outcomes, n, k);
      RoundPrefixCounts(outcomes, n, k, m - 1);
      assert rs[..m][..m - 1] == rs[..m - 1];
      var b := rs[m - 1];
      assert b == outcomes(k, m - 1);
      PairEpisodesOfPairs(b.noisyLengths);
      if Lively(outcomes, n) {
        assert PositiveLengths(b);
        PairTimestepsOfPositive(b.noisyLengths);
      }
    }
  }

  /** Each round adds at least two episodes per worker (every bundle holds a
      pair), and, when episodes are never empty, at least two timesteps per
      worker. */
  lemma RoundAddsAtLeast(outcomes: Outcomes, n: nat, k: nat)
    requires Sound(outcomes, n)
    ensures EpisodeCount(Rounds(outcomes, n, k + 1)) >= EpisodeCount(Rounds(outcomes, n, k)) + 2 * n
    ensures Lively(outcomes, n) ==>
              TimestepCount(Rounds(outcomes, n, k + 1)) >= TimestepCount(Rounds(outcomes, n, k)) + 2 * n
  {
    var round := Round(outcomes, n, k);
    CountsAppend(Rounds(outcomes, n, k), round);
    RoundPrefixCounts(outcomes, n, k, n);
    assert round[..n] == round;
  }

  /** After `k` rounds with at least one worker, at least `2 k` episodes (and
      `2 k` timesteps for non-empty episodes) have been counted. */
  lemma {:induction false} RoundsLowerBound(outcomes: Outcomes, n: nat, k: nat)
    requires n > 0
    requires Sound(outcomes, n) && Lively(outcomes, n)
    ensures EpisodeCount(Rounds(outcomes, n, k)) >= 2 * k
    ensures TimestepCount(Rounds(outcomes, n, k)) >= 2 * k
  {
    if k > 0 {
      var j := k - 1;
      RoundsLowerBound(outcomes, n, j);
      RoundAddsAtLeast(outcomes, n, j);
      assert Rounds(outcomes, n, j + 1) == Rounds(outcomes, n, k);
    }
  }

  /** With at least one worker and non-empty episodes, some number of rounds
      meets both quotas, so the collection loop always ends. */
  lemma QuotaEventuallyMet(outcomes: Outcomes, n: nat, minEpisodes: int, minTimesteps: int)
    requires n > 0
    requires Sound(outcomes, n) && Lively(outcomes, n)
    ensures exists k: nat :: QuotaMet(EpisodeCount(Rounds(outcomes, n, k)),
                                      TimestepCount(Rounds(outcomes, n, k)), minEpisodes, minTimesteps)
  {
    var k: nat := if minEpisodes > minTimesteps then (if minEpisodes > 0 then minEpisodes else 0)
                  else (if minTimesteps > 0 then minTimesteps else 0);
    RoundsLowerBound(outcomes, n, k);
  }

  /** The counters after the first `j` rounds fall short of a quota: the
      loop of `_collect_results` does not stop at that round boundary. */
  predicate MissedAt(outcomes: Outcomes, n: nat, minEpisodes: int, minTimesteps: int, j: nat) {
    !QuotaMet(EpisodeCount(Rounds(outcomes, n, j)), TimestepCount(Rounds(outcomes, n, j)), minEpisodes, minTimesteps)
  }

  /** The counters never decrease from one round boundary to a later one. */
  lemma {:induction false} RoundsMonotone(outcomes: Outcomes, n: nat, j: nat, k: nat)
    requires j <= k
    ensures EpisodeCount(Rounds(outcomes, n, j)) <= EpisodeCount(Rounds(outcomes, n, k))
    ensures TimestepCount(Rounds(outcomes, n, j)) <= TimestepCount(Rounds(outcomes, n, k))
  {
    if j < k {
      RoundsMonotone(outcomes, n, j, k - 1);
      CountsAppend(Rounds(outcomes, n, k - 1), Round(outcomes, n, k - 1));
    }
  }

  /** Where the collection loop stopped after `k` rounds (no earlier round
      boundary met the quotas, the `k`-th does): it ran no round exactly when
      the quotas were met from the start, and the results hold no pair
      exactly when it ran no round. */
  lemma RoundsEmptyExactlyWhenQuotaMetAtStart(outcomes: Outcomes, n: nat, minEpisodes: int, minTimesteps: int, k: nat)
    requires n > 0
    requires k > 0 ==> Sound(outcomes, n)
    requires forall j :: 0 <= j < k ==> MissedAt(outcomes, n, minEpisodes, minTimesteps, j)
    requires QuotaMet(EpisodeCount(Rounds(outcomes, n, k)), TimestepCount(Rounds(outcomes, n, k)), minEpisodes, minTimesteps)
    ensures k == 0 <==> QuotaMet(0, 0, minEpisodes, minTimesteps)
    ensures PairCount(Rounds(outcomes, n, k)) == 0 <==> k == 0
  {
    assert Rounds(outcomes, n, 0) == [];
    if k > 0 {
      assert MissedAt(outcomes, n, minEpisodes, minTimesteps, 0);
      RoundAddsAtLeast(outcomes, n, 0);
      RoundsMonotone(outcomes, n, 1, k);
      RoundsShape(outcomes, n, k);
    }
  }

  /** The lists `ES.step` accumulates over the bundles of an iteration. The
      sign-return pairs are not merged. */
  datatype Batch = Batch(
    noiseIndices: seq<int>,
    trainingReturns: seq<seq<real>>,
    trainingLengths: seq<seq<nat>>,
    evalReturns: seq<real>,
    evalLengths: seq<nat>)

  /** Appends one bundle's lists to the accumulated ones. */
  function Absorb(m: Batch, b: Bundle): Batch {
    Batch(m.noiseIndices + b.noiseIndices,
          m.trainingReturns + b.noisyReturns,
          m.trainingLengths + b.noisyLengths,
          m.evalReturns + b.evalReturns,
          m.evalLengths + b.evalLengths)
  }

  /** The concatenation, bundle after bundle, of every list of the bundles. */
  function Merge(rs: seq<Bundle>): Batch {
    if |rs| == 0 then Batch([], [], [], [], [])
    else Absorb(Merge(rs[..|rs| - 1]), rs[|rs| - 1])
  }

  /** The two equal-length checks of `ES.step` hold whenever every bundle is
      well-formed, and the merged length pairs carry exactly the episodes and
      timesteps the collection loop counted. */
  lemma {:induction false} MergeShapes(rs: seq<Bundle>)
    requires forall i :: 0 <= i < |rs| ==> WellFormed(rs[i])
    ensures var m := Merge(rs);
            && |m.evalReturns| == |m.evalLengths|
            && |m.noiseIndices| == |m.trainingReturns| == |m.trainingLengths| == PairCount(rs)
            && PairEpisodes(m.trainingLengths) == EpisodeCount(rs)
            && PairTimesteps(m.trainingLengths) == TimestepCount(rs)
  {
    if |rs| > 0 {
      var prev := rs[..|rs| - 1];
      MergeShapes(prev);
      PairEpisodesAppend(Merge(prev).trainingLengths, rs[|rs| - 1].noisyLengths);
      PairTimestepsAppend(Merge(prev).trainingLengths, rs[|rs| - 1].noisyLengths);
    }
  }

  /** The batch `ES.step` merges from the rounds the collection loop stopped
      after: it passes both equal-length checks, counts two episodes per
      pair, carries the counted timesteps, and holds no pair exactly when the
      quotas were met from the start, in which case nothing was counted. */
  lemma CollectedBatch(outcomes: Outcomes, n: nat, minEpisodes: int, minTimesteps: int, k: nat)
    requires n > 0
    requires k > 0 ==> Sound(outcomes, n)
    requires forall j :: 0 <= j < k ==> MissedAt(outcomes, n, minEpisodes, minTimesteps, j)
    requires QuotaMet(EpisodeCount(Rounds(outcomes, n, k)), TimestepCount(Rounds(outcomes, n, k)), minEpisodes, minTimesteps)
    ensures var rs := Rounds(outcomes, n, k);
            var m := Merge(rs);
            && |m.evalReturns| == |m.evalLengths|
            && |m.noiseIndices| == |m.trainingReturns| == |m.trainingLengths|
            && EpisodeCount(rs) == 2 * |m.noiseIndices|
            && PairEpisodes(m.trainingLengths) == EpisodeCount(rs)
            && PairTimesteps(m.trainingLengths) == TimestepCount(rs)
            && (|m.noiseIndices| == 0 <==> QuotaMet(0, 0, minEpisodes, minTimesteps))
            && (|m.noiseIndices| == 0 ==> k == 0 && TimestepCount(rs) == 0)
  {
    var rs := Rounds(outcomes, n, k);
    RoundsShape(outcomes, n, k);
    assert forall i :: 0 <= i < |rs| ==> rs[i] in rs;
    MergeShapes(rs);
    RoundsEmptyExactlyWhenQuotaMetAtStart(outcomes, n, minEpisodes, minTimesteps, k);
  }
}
