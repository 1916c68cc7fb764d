/** One worker's batch loop (`Worker.do_rollouts`): it repeats evaluation runs
    and antithetic perturbation runs until at least one perturbation pair has
    been recorded and the minimum task runtime has elapsed.

    Everything the worker cannot see is an `Oracle`: the uniform draw that
    chooses between evaluation and perturbation, the random integer behind
    `sample_index`, the clock, and the episodes that the environment and
    policy produce. Each is indexed by the loop iteration that consults it. */
module Workers {
  import opened Wrappers
  import NoiseTable

  /** The part of a worker that `do_rollouts` reads: its copy of the shared
      noise table and the two settings taken from its configuration. */
  datatype Worker = Worker(noise: seq<real>, evalProb: real, noiseStdev: real)

  /** What one rollout returns: the per-step rewards and the episode length. */
  datatype Episode = Episode(rewards: seq<real>, length: nat)

  /** Which rollout of an iteration: an unperturbed evaluation run, or the
      positive or negative leg of an antithetic pair. */
  datatype Leg = Eval | Pos | Neg

  /** The nondeterminism of one `do_rollouts` call.
      - `coin(k)`: the value of `np.random.uniform()` at iteration `k`
        (any real: the model does not restrict it to `[0, 1)`, and no proof
        relies on that range);
      - `draw(k)`: the random integer behind `sample_index` at iteration `k`;
      - `clock(k)`: whether `min_task_runtime` has elapsed when the loop
        guard is evaluated for the `k`-th time;
      - `rollout(k, leg, weights)`: the episode produced at iteration `k`
        for that leg, with the policy's weights set to `weights`. */
  datatype Oracle = Oracle(
    coin: nat -> real,
    draw: nat -> nat,
    clock: nat -> bool,
    rollout: (nat, Leg, seq<real>) -> Episode)

  /** The `Result` record a worker hands back: parallel lists of noise
      indices, return pairs, sign-return pairs and length pairs, plus the
      evaluation returns and lengths. */
  datatype Bundle = Bundle(
    noiseIndices: seq<int>,
    noisyReturns: seq<seq<real>>,
    signNoisyReturns: seq<seq<real>>,
    noisyLengths: seq<seq<nat>>,
    evalReturns: seq<real>,
    evalLengths: seq<nat>)

  /** `sample_index` raised: the policy has more parameters than the table. */
  datatype RolloutError = WindowExceedsTable

  /** The shape every bundle has: the four perturbation lists are parallel,
      the two evaluation lists are parallel, and every entry of a pair list
      is a pair. */
  predicate WellFormed(b: Bundle) {
    && |b.noisyReturns| == |b.noiseIndices|
    && |b.signNoisyReturns| == |b.noiseIndices|
    && |b.noisyLengths| == |b.noiseIndices|
    && |b.evalReturns| == |b.evalLengths|
    && (forall j :: 0 <= j < |b.noiseIndices| ==>
          |b.noisyReturns[j]| == 2 && |b.signNoisyReturns[j]| == 2 && |b.noisyLengths[j]| == 2)
  }

  /** Every recorded noise index starts a window of `dim` values inside a
      table of `size` values. */
  predicate IndicesInRange(b: Bundle, size: nat, dim: nat) {
    forall j :: 0 <= j < |b.noiseIndices| ==> 0 <= b.noiseIndices[j] && b.noiseIndices[j] + dim <= size
  }

  /** Every recorded perturbation episode lasted at least one step. */
  predicate PositiveLengths(b: Bundle) {
    forall j :: 0 <= j < |b.noisyLengths| ==>
      forall t :: 0 <= t < |b.noisyLengths[j]| ==> b.noisyLengths[j][t] >= 1
  }

  /** Every episode the environment produces has at least one step. */
  ghost predicate Productive(o: Oracle) {
    forall k: nat, leg: Leg, ws: seq<real> :: o.rollout(k, leg, ws).length >= 1
  }

  /** `rewards.sum()`. */
  function Sum(xs: seq<real>): real {
    if |xs| == 0 then 0.0 else xs[0] + Sum(xs[1..])
  }

  /** `np.sign`. */
  function Sign(x: real): real {
    if x > 0.0 then 1.0 else if x < 0.0 then -1.0 else 0.0
  }

  /** `np.sign(rewards).sum()`: the number of positive rewards minus the
      number of negative ones, so never more than the number of rewards in
      absolute value. */
  function SignSum(xs: seq<real>): (r: real)
    ensures -(|xs| as real) <= r <= |xs| as real
  {
    if |xs| == 0 then 0.0 else Sign(xs[0]) + SignSum(xs[1..])
  }

  /** `c * v` on a flat weight vector. */
  function Scale(c: real, v: seq<real>): (r: seq<real>)
    ensures |r| == |v|
  {
    seq(|v|, i requires 0 <= i < |v| => c * v[i])
  }

  /** `a + b` on flat weight vectors of equal length. */
  function Add(a: seq<real>, b: seq<real>): (r: seq<real>)
    requires |a| == |b|
    ensures |r| == |a|
  {
    seq(|a|, i requires 0 <= i < |a| => a[i] + b[i])
  }

  /** `a - b` on flat weight vectors of equal length. */
  function Sub(a: seq<real>, b: seq<real>): (r: seq<real>)
    requires |a| == |b|
    ensures |r| == |a|
  {
    seq(|a|, i requires 0 <= i < |a| => a[i] - b[i])
  }

  /** `noise_stdev * noise.get(index, num_params)`: the perturbation a noise
      index stands for, which the coordinator can rebuild from the index. */
  function Perturbation(w: Worker, index: nat, dim: nat): (p: seq<real>)
    requires index + dim <= |w.noise|
    ensures |p| == dim
  {
    Scale(w.noiseStdev, NoiseTable.Get(w.noise, index, dim))
  }

  /** Iteration `j` was a perturbation run at noise index `index`, and the
      recorded return pair and length pair are those of the episodes run
      with the weights `params + perturbation` and `params - perturbation`. */
  ghost predicate PairFrom(w: Worker, params: seq<real>, o: Oracle, j: nat, index: int, rets: seq<real>, lens: seq<nat>)
  {
    && o.coin(j) >= w.evalProb
    && 0 <= index && index + |params| <= |w.noise|
    && var perturbation := Perturbation(w, index, |params|);
       var pos := o.rollout(j, Pos, Add(params, perturbation));
       var neg := o.rollout(j, Neg, Sub(params, perturbation));
       rets == [Sum(pos.rewards), Sum(neg.rewards)] && lens == [pos.length, neg.length]
  }

  /** The number of perturbation iterations among the first `k`: those whose
      uniform draw is not below `evalProb`. */
  function PairsBefore(o: Oracle, evalProb: real, k: nat): (n: nat)
    ensures n <= k
  {
    if k == 0 then 0
    else PairsBefore(o, evalProb, k - 1) + (if o.coin(k - 1) < evalProb then 0 else 1)
  }

  /** The loop guard is false before iteration `k`: a pair has been recorded
      and the clock says the minimum runtime has elapsed. */
  predicate IsExit(o: Oracle, evalProb: real, k: nat) {
    PairsBefore(o, evalProb, k) > 0 && o.clock(k)
  }

  /** The oracle lets the loop stop at some iteration. Without this the
      worker runs forever (for instance when every uniform draw falls below
      `eval_prob`). */
  ghost predicate Halts(o: Oracle, evalProb: real) {
    exists k: nat :: IsExit(o, evalProb, k)
  }

  /** The first iteration before which the loop guard is false. */
  ghost function FirstExit(o: Oracle, evalProb: real): (k: nat)
    requires Halts(o, evalProb)
    ensures IsExit(o, evalProb, k)
    ensures forall j :: 0 <= j < k ==> !IsExit(o, evalProb, j)
  {
    var stop: nat :| IsExit(o, evalProb, stop);
    SearchExit(o, evalProb, 0, stop)
  }

  /** Linear search for the first exit in `[k, stop]`. */
  ghost function SearchExit(o: Oracle, evalProb: real, k: nat, stop: nat): (e: nat)
    requires k <= stop && IsExit(o, evalProb, stop)
    requires forall j :: 0 <= j < k ==> !IsExit(o, evalProb, j)
    ensures k <= e <= stop && IsExit(o, evalProb, e)
    ensures forall j :: 0 <= j < e ==> !IsExit(o, evalProb, j)
    decreases stop - k
  {
    if IsExit(o, evalProb, k) then k else SearchExit(o, evalProb, k + 1, stop)
  }

  /** One pass of the loop body on the lists built so far, at iteration
      `j`: an evaluation run appends one return and one length; a
      perturbation run appends one index, one return pair, one sign-return
      pair and one length pair. Either way it only appends. */
  function Iteration(w: Worker, params: seq<real>, o: Oracle, prev: Bundle, j: nat): (b: Bundle)
    requires |params| <= |w.noise|
    ensures prev.noiseIndices <= b.noiseIndices && prev.noisyReturns <= b.noisyReturns
    ensures prev.signNoisyReturns <= b.signNoisyReturns && prev.noisyLengths <= b.noisyLengths
    ensures prev.evalReturns <= b.evalReturns && prev.evalLengths <= b.evalLengths
  {
    if o.coin(j) < w.evalProb then
      var ep := o.rollout(j, Eval, params);
      prev.(evalReturns := prev.evalReturns + [Sum(ep.rewards)],
            evalLengths := prev.evalLengths + [ep.length])
    else
      var index := NoiseTable.SampleIndex(w.noise, |params|, o.draw(j)).value;
      var perturbation := Perturbation(w, index, |params|);
      var pos := o.rollout(j, Pos, Add(params, perturbation));
      var neg := o.rollout(j, Neg, Sub(params, perturbation));
      prev.(noiseIndices := prev.noiseIndices + [index],
            noisyReturns := prev.noisyReturns + [[Sum(pos.rewards), Sum(neg.rewards)]],
            signNoisyReturns := prev.signNoisyReturns + [[SignSum(pos.rewards), SignSum(neg.rewards)]],
            noisyLengths := prev.noisyLengths + [[pos.length, neg.length]])
  }

  /** The bundle the loop has built after `k` iterations, when the table is
      wide enough for the policy's parameters (otherwise the first
      perturbation iteration raises). */
  function Collected(w: Worker, params: seq<real>, o: Oracle, k: nat): (b: Bundle)
    requires |params| <= |w.noise|
    ensures WellFormed(b)
    ensures |b.noiseIndices| == PairsBefore(o, w.evalProb, k)
    ensures |b.evalReturns| == k - PairsBefore(o, w.evalProb, k)
    ensures IndicesInRange(b, |w.noise|, |params|)
    ensures Productive(o) ==> PositiveLengths(b)
    decreases k
  {
    if k == 0 then Bundle([], [], [], [], [], [])
    else Iteration(w, params, o, Collected(w, params, o, k - 1), k - 1)
  }

  /** What a successful `do_rollouts` call returns: the bundle at the first
      iteration where the loop may stop. */
  ghost function Rollouts(w: Worker, params: seq<real>, o: Oracle): (b: Bundle)
    requires |params| <= |w.noise|
    requires Halts(o, w.evalProb)
    ensures WellFormed(b)
    ensures |b.noiseIndices| >= 1
    ensures IndicesInRange(b, |w.noise|, |params|)
    ensures Productive(o) ==> PositiveLengths(b)
  {
    Collected(w, params, o, FirstExit(o, w.evalProb))
  }

  /** The loop only ever appends: the bundle after `j` iterations is a
      prefix, list by list, of the bundle after `k >= j` iterations. */
  lemma {:induction false} CollectedGrows(w: Worker, params: seq<real>, o: Oracle, j: nat, k: nat)
    requires |params| <= |w.noise|
    requires j <= k
    ensures var a, b := Collected(w, params, o, j), Collected(w, params, o, k);
            && a.noiseIndices <= b.noiseIndices
            && a.noisyReturns <= b.noisyReturns
            && a.signNoisyReturns <= b.signNoisyReturns
            && a.noisyLengths <= b.noisyLengths
            && a.evalReturns <= b.evalReturns
            && a.evalLengths <= b.evalLengths
    decreases k - j
  {
    if j < k {
      CollectedGrows(w, params, o, j, k - 1);
      var a, m, b := Collected(w, params, o, j), Collected(w, params, o, k - 1), Collected(w, params, o, k);
      PrefixTransitive(a.noiseIndices, m.noiseIndices, b.noiseIndices);
      PrefixTransitive(a.noisyReturns, m.noisyReturns, b.noisyReturns);
      PrefixTransitive(a.signNoisyReturns, m.signNoisyReturns, b.signNoisyReturns);
      PrefixTransitive(a.noisyLengths, m.noisyLengths, b.noisyLengths);
      PrefixTransitive(a.evalReturns, m.evalReturns, b.evalReturns);
      PrefixTransitive(a.evalLengths, m.evalLengths, b.evalLengths);
    }
  }

  lemma PrefixTransitive<T>(a: seq<T>, b: seq<T>, c: seq<T>)
    requires a <= b && b <= c
    ensures a <= c
  {
  }

  /** Pair `p` of `b` replays: some perturbation iteration before `k`
      produced its return pair and length pair from the weights `params`
      plus and minus the perturbation rebuilt from its recorded noise index. */
  ghost predicate ReplaysAt(w: Worker, params: seq<real>, o: Oracle, b: Bundle, p: nat, k: nat)
    requires p < |b.noiseIndices| && p < |b.noisyReturns| && p < |b.noisyLengths|
  {
    exists j: nat :: j < k && PairFrom(w, params, o, j, b.noiseIndices[p], b.noisyReturns[p], b.noisyLengths[p])
  }

  /** Every recorded pair of `b` replays from an iteration before `k`. */
  ghost predicate Replays(w: Worker, params: seq<real>, o: Oracle, b: Bundle, k: nat) {
    forall p: nat :: p < |b.noiseIndices| && p < |b.noisyReturns| && p < |b.noisyLengths| ==>
      ReplaysAt(w, params, o, b, p, k)
  }

  /** One loop body keeps every recorded pair replayable: the old pairs keep
      their iterations and a new pair comes from iteration `j` itself. */
  lemma IterationReplays(w: Worker, params: seq<real>, o: Oracle, prev: Bundle, j: nat)
    requires |params| <= |w.noise|
    requires WellFormed(prev)
    requires Replays(w, params, o, prev, j)
    ensures Replays(w, params, o, Iteration(w, params, o, prev, j), j + 1)
  {
    var b, k := Iteration(w, params, o, prev, j), j + 1;
    forall p: nat | p < |b.noiseIndices| && p < |b.noisyReturns| && p < |b.noisyLengths|
      ensures ReplaysAt(w, params, o, b, p, k)
    {
      if p < |prev.noiseIndices| {
        assert ReplaysAt(w, params, o, prev, p, j);
        var i: nat :| i < j && PairFrom(w, params, o, i, prev.noiseIndices[p], prev.noisyReturns[p], prev.noisyLengths[p]);
        assert b.noiseIndices[p] == prev.noiseIndices[p];
        assert b.noisyReturns[p] == prev.noisyReturns[p];
        assert b.noisyLengths[p] == prev.noisyLengths[p];
        assert PairFrom(w, params, o, i, b.noiseIndices[p], b.noisyReturns[p], b.noisyLengths[p]);
      } else {
        assert PairFrom(w, params, o, j, b.noiseIndices[p], b.noisyReturns[p], b.noisyLengths[p]);
      }
    }
  }

  /** After `k` iterations every recorded pair replays from an earlier
      iteration. */
  lemma {:induction false} CollectedPairsReplay(w: Worker, params: seq<real>, o: Oracle, k: nat)
    requires |params| <= |w.noise|
    ensures Replays(w, params, o, Collected(w, params, o, k), k)
  {
    if k > 0 {
      CollectedPairsReplay(w, params, o, k - 1);
      IterationReplays(w, params, o, Collected(w, params, o, k - 1), k - 1);
    }
  }

  /** What the coordinator relies on when it rebuilds each perturbation from
      its index: every pair a `do_rollouts` call returns was produced, at an
      iteration before the loop stopped, with exactly that perturbation
      added to and subtracted from `params`. */
  lemma RecordedPairsReplay(w: Worker, params: seq<real>, o: Oracle)
    requires |params| <= |w.noise|
    requires Halts(o, w.evalProb)
    ensures Replays(w, params, o, Rollouts(w, params, o), FirstExit(o, w.evalProb))
  {
    CollectedPairsReplay(w, params, o, FirstExit(o, w.evalProb));
  }

  /** Every recorded noise index reconstructs a full perturbation window:
      the coordinator can rebuild each perturbation from its index alone. */
  lemma RecordedWindowsAreFull(w: Worker, params: seq<real>, o: Oracle)
    requires |params| <= |w.noise|
    requires Halts(o, w.evalProb)
    ensures var b := Rollouts(w, params, o);
            forall j :: 0 <= j < |b.noiseIndices| ==>
              |NoiseTable.Get(w.noise, b.noiseIndices[j], |params|)| == |params|
  {
  }

  /** `Worker.do_rollouts`: runs iterations until a pair exists and the clock
      allows stopping. It raises exactly when the table is narrower than the
      parameter vector; otherwise it returns the bundle `Rollouts` describes,
      whose lists are parallel and which holds at least one pair. */
  method DoRollouts(w: Worker, params: seq<real>, o: Oracle) returns (r: Result<Bundle, RolloutError>)
    requires Halts(o, w.evalProb)
    ensures r.Failure? <==> |params| > |w.noise|
    ensures r.Success? ==> r.value == Rollouts(w, params, o)
    ensures r.Success? ==> WellFormed(r.value) && |r.value.noiseIndices| >= 1
  {
    var noiseIndices: seq<int>, noisyReturns: seq<seq<real>>, signReturns: seq<seq<real>>, lengths: seq<seq<nat>> := [], [], [], [];
    var evalReturns: seq<real>, evalLengths: seq<nat> := [], [];
    ghost var stop := FirstExit(o, w.evalProb);
    var k: nat := 0;
    while |noiseIndices| == 0 || !o.clock(k)
      invariant k <= stop
      invariant |noiseIndices| == PairsBefore(o, w.evalProb, k)
      invariant |params| > |w.noise| ==> noiseIndices == []
      invariant |params| <= |w.noise| ==>
        Bundle(noiseIndices, noisyReturns, signReturns, lengths, evalReturns, evalLengths) == Collected(w, params, o, k)
      decreases stop - k
    {
      if o.coin(k) < w.evalProb {
        // An evaluation run with the unperturbed weights.
        var ep := o.rollout(k, Eval, params);
        evalReturns := evalReturns + [Sum(ep.rewards)];
        evalLengths := evalLengths + [ep.length];
      } else {
        var index := NoiseTable.SampleIndex(w.noise, |params|, o.draw(k));
        if index.None? {
          return Failure(WindowExceedsTable);
        }
        var perturbation := Perturbation(w, index.value, |params|);
        var pos := o.rollout(k, Pos, Add(params, perturbation));
        var neg := o.rollout(k, Neg, Sub(params, perturbation));
        noiseIndices := noiseIndices + [index.value];
        noisyReturns := noisyReturns + [[Sum(pos.rewards), Sum(neg.rewards)]];
        signReturns := signReturns + [[SignSum(pos.rewards), SignSum(neg.rewards)]];
        lengths := lengths + [[pos.length, neg.length]];
      }
      k := k + 1;
    }
    assert IsExit(o, w.evalProb, k);
    assert k == stop;
    r := Success(Bundle(noiseIndices, noisyReturns, signReturns, lengths, evalReturns, evalLengths));
  }
}
