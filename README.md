# Evolution Strategies (ES) bookkeeping in RLlib, modelled in Dafny

This project models the sequential core of RLlib's Evolution Strategies
algorithm (`rllib/algorithms/es/es.py`): everything around it that is
distributed plumbing, numerics or an external collaborator is abstracted away.

- **Shared noise table** (`NoiseTable`, `Slicing`). `SharedNoiseTable.get`
  is a Python slice `noise[i : i + dim]`, modelled with Python's clamping
  semantics. `sample_index` draws a start in `[0, len(noise) - dim]`; the
  random integer is a parameter, and numpy's refusal of an empty range
  (`dim > len(noise)`) is `None`.
- **Worker batch loop** (`Workers`). `Worker.do_rollouts` is a `while` loop
  (`DoRollouts`). Each evaluation run appends to the two evaluation lists;
  each perturbation run appends one index, one return pair, one sign-return
  pair and one length pair. The uniform draw, the random index, the clock
  and the episodes the environment produces come from an `Oracle`, indexed
  by loop iteration. The loop is proved against `Collected`/`Rollouts`, the
  bundle after `k` iterations and at the first iteration where the guard is
  false.
- **Collection loop** (`Batches`, `Algorithm.ES.CollectResults`).
  `_collect_results` runs whole rounds: one `do_rollouts` call per worker,
  in worker order. It counts two episodes per pair and both legs' lengths as
  timesteps, and stops once both quotas are met. The bundles of round `k`
  are `Round(outcomes, n, k)`. The bundles of the first `k` rounds are
  `Rounds(outcomes, n, k)`, where `outcomes(k, i)` is what worker `i`
  returns in round `k`.
- **Merge and counters of `ES.step`** (`Algorithm.MergeResults`,
  `Algorithm.ES.Account`, `Algorithm.ES.Step`). The loop over the collected
  bundles concatenates their lists. `Account` also advances the four step
  counters and `episodes_so_far`. It appends the mean evaluation return when
  there is one, and reports the means. The return processing after the merge
  is left out, except that it raises on a batch with no pair. This happens
  exactly when the quotas are met before any round runs.
- **Configuration** (`Config`). `ESConfig()` defaults, the partial setter
  `ESConfig.training(...)` as a class whose method writes only what it is
  given, and `ES.validate_config` with its four errors.

## Model

| member | source | states |
|---|---|---|
| Slicing.Bound | rllib/algorithms/es/es.py:184 | A slice bound is clamped into `[0, n]`, and a negative bound counts from the end. |
| Slicing.Slice | rllib/algorithms/es/es.py:184 | A slice never fails. In range it is `s[start..stop]`, otherwise it is the clamped window, and it is empty when the bounds cross. |
| NoiseTable.Get | rllib/algorithms/es/es.py:183-184 | The window is never longer than the table. It is exactly `noise[i..i+dim]`, of length `dim`, whenever `0 <= i` and `i + dim <= len(noise)`. |
| NoiseTable.SampleIndex | rllib/algorithms/es/es.py:186-187 | A start exists exactly when `dim <= len(noise)`, and every start leaves room for `dim` values. |
| NoiseTable.SampleIndexReachesEvery | rllib/algorithms/es/es.py:186-187 | Every admissible start `i` with `i + dim <= len(noise)` can be drawn. |
| NoiseTable.SampledWindowIsFull | rllib/algorithms/es/es.py:183-187 | `get` at a sampled start returns a full `dim`-long window equal to the table's slice. |
| NoiseTable.GetTruncatesPastEnd | rllib/algorithms/es/es.py:183-184 | A window running past the end comes back shorter than `dim`, as the table's tail. |
| Workers.SignSum | rllib/algorithms/es/es.py:298-300 | `np.sign(rewards).sum()` lies between minus and plus the number of rewards. |
| Workers.PairsBefore | rllib/algorithms/es/es.py:274-301 | The number of perturbation iterations among the first `k` is at most `k`. |
| Workers.FirstExit | rllib/algorithms/es/es.py:270-272 | The first iteration where the guard is false: a pair exists and the clock allows stopping, and it is false at no earlier iteration. |
| Workers.Iteration | rllib/algorithms/es/es.py:274-301 | One loop body only appends: every list before it is a prefix of the same list after it. |
| Workers.Collected | rllib/algorithms/es/es.py:265-301 | After `k` iterations the four perturbation lists are parallel and the evaluation lists are parallel. Every entry is a pair. There is one index per perturbation iteration and one evaluation entry per other iteration. Every index starts an in-table window, and every length is positive when episodes are. |
| Workers.Rollouts | rllib/algorithms/es/es.py:261-310 | The returned bundle is well-formed, holds at least one noise index, and has every index in range. |
| Workers.CollectedGrows | rllib/algorithms/es/es.py:274-301 | The lists only grow: the bundle after `j` iterations is, list by list, a prefix of the bundle after any `k >= j`. |
| Workers.IterationReplays | rllib/algorithms/es/es.py:282-301 | One loop body keeps every recorded pair replayable. Old pairs keep their iterations. A new pair's returns and lengths are those of the rollouts at `params` plus and minus `noise_stdev * get(index, num_params)`, where `index` is the noise index recorded with it. |
| Workers.CollectedPairsReplay | rllib/algorithms/es/es.py:274-301 | After `k` iterations, every recorded return pair and length pair comes from a perturbation iteration before `k`. That iteration ran the rollouts at `params` plus and minus the perturbation rebuilt from the pair's recorded noise index. |
| Workers.RecordedPairsReplay | rllib/algorithms/es/es.py:282-301 | The same for the bundle `do_rollouts` returns. Rebuilding each perturbation from its index, as the coordinator does at line 462, gives back exactly the weights the worker ran. |
| Workers.RecordedWindowsAreFull | rllib/algorithms/es/es.py:282-296 | Every recorded noise index rebuilds a full `num_params`-long perturbation window. |
| Workers.DoRollouts | rllib/algorithms/es/es.py:261-310 | It raises exactly when the table is narrower than the parameter vector. Otherwise it returns the bundle `Rollouts` describes, well-formed and with at least one pair. |
| Batches.CountsAppendOne | rllib/algorithms/es/es.py:545-551 | Appending one result adds `sum(len(pair))` episodes, `sum(sum(pair))` timesteps and its pairs. |
| Batches.RoundsLength | rllib/algorithms/es/es.py:532-553 | After `k` rounds there are `k * num_workers` results. |
| Batches.RoundsWellFormed | rllib/algorithms/es/es.py:545-551 | Every collected result is well-formed and holds a pair when every worker's result does. |
| Batches.PairEpisodesOfPairs | rllib/algorithms/es/es.py:550 | With every entry a pair, `sum(len(pair))` is twice the number of pairs. |
| Batches.PairSumOfPair | rllib/algorithms/es/es.py:551 | A pair's sum is its two legs' lengths added. |
| Batches.PairTimestepsOfPositive | rllib/algorithms/es/es.py:551 | Pairs of non-empty episodes count at least two timesteps per pair. |
| Batches.PairEpisodesAppend | rllib/algorithms/es/es.py:436-438 | The episode count of concatenated length lists is the sum of their counts. |
| Batches.PairTimestepsAppend | rllib/algorithms/es/es.py:436-438 | The timestep count of concatenated length lists is the sum of their counts. |
| Batches.CountsAppend | rllib/algorithms/es/es.py:545-551 | The episode, timestep and pair counts add up over concatenated result lists. |
| Batches.EpisodesAreTwicePairs | rllib/algorithms/es/es.py:550 | With well-formed results, `num_episodes` is twice the total number of pairs. |
| Batches.RoundsShape | rllib/algorithms/es/es.py:532-553 | After `k` sound rounds the results are whole rounds, each well-formed with a pair, counting two episodes per pair. |
| Batches.RoundPrefixCounts | rllib/algorithms/es/es.py:545-551 | The first `m` bundles of a round count at least `2 m` episodes, and at least `2 m` timesteps when episodes are non-empty. |
| Batches.RoundAddsAtLeast | rllib/algorithms/es/es.py:541-551 | Each round adds at least `2 * num_workers` episodes, and as many timesteps when episodes are non-empty. |
| Batches.RoundsLowerBound | rllib/algorithms/es/es.py:535-551 | With at least one worker, `k` rounds count at least `2 k` episodes and `2 k` timesteps. |
| Batches.QuotaEventuallyMet | rllib/algorithms/es/es.py:535 | With at least one worker and non-empty episodes, some number of rounds meets both quotas, so the loop ends. |
| Batches.RoundsMonotone | rllib/algorithms/es/es.py:545-551 | The counters never decrease from one round boundary to a later one. |
| Batches.RoundsEmptyExactlyWhenQuotaMetAtStart | rllib/algorithms/es/es.py:535-553 | Suppose the loop stopped after `k` rounds. Then `k` is zero exactly when the quotas were met from the start, and the results hold no pair exactly when `k` is zero. |
| Batches.CollectedBatch | rllib/algorithms/es/es.py:432-461 | The batch merged from the collected rounds passes both equal-length checks. It counts two episodes per pair and carries the counted timesteps. It holds no pair exactly when the quotas were met from the start, and then nothing was counted. |
| Batches.MergeShapes | rllib/algorithms/es/es.py:432-445 | After the merge, the two evaluation lists have equal length. The index, return and length lists have equal length, equal to the number of pairs. The merged lengths carry exactly the counted episodes and timesteps. |
| Config.ValidateConfig | rllib/algorithms/es/es.py:336-350 | Acceptance exactly when all four checks pass, and each error exactly when its check is the first to fail. |
| Config.ApplyNothing | rllib/algorithms/es/es.py:146-167 | `training()` without ES arguments changes no setting. |
| Config.ApplyIdempotent | rllib/algorithms/es/es.py:146-167 | Repeating a `training(...)` call changes nothing more. |
| Config.ApplyThen | rllib/algorithms/es/es.py:146-167 | Two chained calls act as one call where the later given arguments win. |
| Config.ApplyGivenWins | rllib/algorithms/es/es.py:146-165 | Each of the eight settings takes its argument when one is given and keeps its value when the argument is `None`. |
| Config.ESConfig.constructor | rllib/algorithms/es/es.py:77-104 | The documented ES defaults and the overridden inherited defaults. |
| Config.ESConfig.Training | rllib/algorithms/es/es.py:146-167 | Exactly the settings whose argument is non-`None` change. Every other field keeps its value, and the same object is returned. |
| Algorithm.MeanBetween | rllib/algorithms/es/es.py:481-482 | The mean appended to the reward list lies between the smallest and the largest evaluation return. |
| Algorithm.RecentRewards | rllib/algorithms/es/es.py:497 | `reward_list[-report_length:]` is the last `report_length` rewards, or all of them when fewer exist. A zero length selects the whole list; a negative length drops rewards from the front. |
| Algorithm.Tally | rllib/algorithms/es/es.py:545-551 | The inner loop appends the round's bundles and keeps both counters equal to the counts of all collected results. |
| Algorithm.MergeResults | rllib/algorithms/es/es.py:432-438 | The loop yields `Merge` of the results, the bundle-by-bundle concatenation whose shape `MergeShapes` states. |
| Algorithm.DescribedSound | rllib/algorithms/es/es.py:270-272 | When the table is wide enough, every round's bundles are well-formed with a pair, with non-empty episodes when every episode has a step. |
| Algorithm.ES.constructor | rllib/algorithms/es/es.py:388-394 | One worker per `num_workers`, each holding the shared table, `episodes_so_far` zero and an empty reward list. The four step counters, which belong to the `Algorithm` base class, start at zero. |
| Algorithm.ES.Setup | rllib/algorithms/es/es.py:353-395 | Setup fails with `validate_config`'s error exactly when that check fails. Otherwise it yields a fresh, valid algorithm with zero episodes and an empty reward list. |
| Algorithm.ES.RunRound | rllib/algorithms/es/es.py:541-545 | A round fails exactly when the table is narrower than the parameters, and otherwise returns one bundle per worker, in order. |
| Algorithm.ES.CollectResults | rllib/algorithms/es/es.py:532-553 | It raises exactly when the table is too narrow and the quotas are not met from the start. Otherwise it returns the first `rounds` whole rounds (`rounds * num_workers` results, every one well-formed with a pair) and both quotas are met. `num_episodes = 2 * pairs` and `num_timesteps` is the sum of all pair lengths. No earlier round boundary met the quotas. |
| Algorithm.ES.Account | rllib/algorithms/es/es.py:421-505 | It raises exactly when no pair was collected, since line 461 cannot index an empty batch, and then every counter has moved by zero. Otherwise the merged lists pass both equal-length checks. `episodes_so_far` grows by exactly `num_episodes`, which is twice the number of pairs, and the four step counters grow by `num_timesteps`. The reward list grows by one mean exactly when an evaluation return exists. The report carries the iteration's episodes and timesteps, the recent-reward mean and the evaluation-length mean. |
| Algorithm.ES.Step | rllib/algorithms/es/es.py:407-505 | It raises when a worker raises (the table is too narrow and the quotas are not met from the start). It also raises with an empty batch exactly when the quotas are met from the start. A failure changes no counter and no reward. Otherwise every round's bundles hold a pair, the batch is non-empty, and the counters, reward list and report are as for `Account`, on the collected rounds. |

## Left out

- Ray actors, the object store, `cleanup` and the distributed round. A round is one `do_rollouts` call per worker, one after another, in worker order.
- `create_shared_noise`: the table is an arbitrary sequence of reals given to `Setup`.
- The environment, the policy, `rollout`, `set_flat_weights`, the preprocessor and `compute_single_action`. Each episode is an opaque oracle value chosen from the iteration, the leg and the weights.
- `time.time()`, `np.random.uniform()` and `np.random.randint`. These are oracle values indexed by loop iteration.
- `compute_centered_ranks`, `batched_weighted_sum`, the Adam optimizer, the `g` scaling and the weight/gradient norms. These are float numerics in files that are not part of this model, so `Step` does not update `theta`. Of this processing, only its failure on a batch with no pair (line 461) is modelled.
- The `Algorithm` base class is not part of this model. Its `_counters` dictionary is modelled as four integer fields of `ES` that start at zero.
- Filters, `FilterManager`, seeding, logging, `get_policy`, weight getters and setters, and state save and restore.
- Floating point: `float32` values are modelled as mathematical reals. The NaN that `np.mean` returns for an empty list is `None`.
- `merge_trainer_configs`, `to_dict` and `Algorithm.validate_config`, which `ES.validate_config` calls first. `Setup` takes the merged configuration dictionary directly.
- Workers.DoRollouts: requires that the oracle lets the loop stop (`Halts`). The source loops forever otherwise, for instance when `eval_prob >= 1` makes every iteration an evaluation run.
- Algorithm.ES.CollectResults: requires that every `do_rollouts` call halts and that every episode has at least one step (`AllProductive`). Without a step per episode the timestep quota need never be met.
- Algorithm.ES.Step: has the same two requirements as `CollectResults`, which it calls: every `do_rollouts` call halts (`AllHalt`) and every episode has at least one step (`AllProductive`). Runs with zero-step episodes that the source could still finish are therefore not covered. One example is `train_batch_size <= 0`.
- The inherited `AlgorithmConfig.training(**kwargs)` call that `training` makes first is not part of this model.
- Config.ESConfig.Training: writes every managed field, putting a field's own value back when its argument is `None`. The observable state is the same as the source's conditional writes.
- NoiseTable.Get: follows the code's slice, which truncates a window that runs past the end rather than raising.
