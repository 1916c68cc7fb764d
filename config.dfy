/** ES configuration: the `ESConfig` builder with its defaults and its partial
    `training(...)` setter, and the checks `ES.validate_config` applies to the
    configuration dictionary an algorithm is set up from. */
module Config {
  import opened Wrappers

  /** The entries of `evaluation_config` that ES checks. */
  datatype EvaluationConfig = EvaluationConfig(numEnvsPerWorker: int, observationFilter: string)

  /** The entries of the configuration dictionary that this model reads. */
  datatype ConfigDict = ConfigDict(
    numGpus: real,
    numWorkers: int,
    evaluationConfig: EvaluationConfig,
    evalProb: real,
    noiseStdev: real,
    episodesPerBatch: int,
    trainBatchSize: int,
    reportLength: int)

  /** The four `ValueError`s of `ES.validate_config`. */
  datatype ConfigError =
    | MultipleGpus          // `num_gpus` > 1
    | NoWorkers             // `num_workers` <= 0
    | EvalEnvsPerWorker     // `evaluation_config.num_envs_per_worker` != 1
    | EvalObservationFilter // `evaluation_config.observation_filter` != "NoFilter"

  /** `ES.validate_config`: the checks run in source order and the first one
      that fails decides the error. */
  function ValidateConfig(c: ConfigDict): (r: Outcome<ConfigError>)
    ensures r.Pass? <==>
      && c.numGpus <= 1.0
      && c.numWorkers > 0
      && c.evaluationConfig.numEnvsPerWorker == 1
      && c.evaluationConfig.observationFilter == "NoFilter"
    ensures r == Fail(MultipleGpus) <==> c.numGpus > 1.0
    ensures r == Fail(NoWorkers) <==> c.numGpus <= 1.0 && c.numWorkers <= 0
    ensures r == Fail(EvalEnvsPerWorker) <==>
      c.numGpus <= 1.0 && c.numWorkers > 0 && c.evaluationConfig.numEnvsPerWorker != 1
    ensures r == Fail(EvalObservationFilter) <==>
      && c.numGpus <= 1.0 && c.numWorkers > 0 && c.evaluationConfig.numEnvsPerWorker == 1
      && c.evaluationConfig.observationFilter != "NoFilter"
  {
    if c.numGpus > 1.0 then Fail(MultipleGpus)
    else if c.numWorkers <= 0 then Fail(NoWorkers)
    else if c.evaluationConfig.numEnvsPerWorker != 1 then Fail(EvalEnvsPerWorker)
    else if c.evaluationConfig.observationFilter != "NoFilter" then Fail(EvalObservationFilter)
    else Pass
  }

  /** The ES-specific settings `training(...)` can change. */
  datatype TrainingSettings = TrainingSettings(
    actionNoiseStd: real,
    l2Coeff: real,
    noiseStdev: real,
    episodesPerBatch: int,
    evalProb: real,
    stepsize: real,
    noiseSize: int,
    reportLength: int)

  /** The keyword arguments of `training(...)`; `None` leaves a setting alone. */
  datatype TrainingArgs = TrainingArgs(
    actionNoiseStd: Option<real>,
    l2Coeff: Option<real>,
    noiseStdev: Option<real>,
    episodesPerBatch: Option<int>,
    evalProb: Option<real>,
    stepsize: Option<real>,
    noiseSize: Option<int>,
    reportLength: Option<int>)

  /** A call of `training()` with no ES-specific argument. */
  const NoArgs := TrainingArgs(None, None, None, None, None, None, None, None)

  /** One argument applied to one setting. */
  function Pick<T>(arg: Option<T>, current: T): T {
    if arg.Some? then arg.value else current
  }

  /** The settings after `training(...)`: each setting whose argument is given
      takes that argument; every other setting keeps its value. */
  function Apply(s: TrainingSettings, a: TrainingArgs): TrainingSettings {
    TrainingSettings(
      Pick(a.actionNoiseStd, s.actionNoiseStd),
      Pick(a.l2Coeff, s.l2Coeff),
      Pick(a.noiseStdev, s.noiseStdev),
      Pick(a.episodesPerBatch, s.episodesPerBatch),
      Pick(a.evalProb, s.evalProb),
      Pick(a.stepsize, s.stepsize),
      Pick(a.noiseSize, s.noiseSize),
      Pick(a.reportLength, s.reportLength))
  }

  /** The arguments of two chained calls combined: the later call's given
      arguments win. */
  function Then(a: TrainingArgs, b: TrainingArgs): TrainingArgs {
    TrainingArgs(
      if b.actionNoiseStd.Some? then b.actionNoiseStd else a.actionNoiseStd,
      if b.l2Coeff.Some? then b.l2Coeff else a.l2Coeff,
      if b.noiseStdev.Some? then b.noiseStdev else a.noiseStdev,
      if b.episodesPerBatch.Some? then b.episodesPerBatch else a.episodesPerBatch,
      if b.evalProb.Some? then b.evalProb else a.evalProb,
      if b.stepsize.Some? then b.stepsize else a.stepsize,
      if b.noiseSize.Some? then b.noiseSize else a.noiseSize,
      if b.reportLength.Some? then b.reportLength else a.reportLength)
  }

  /** A call without arguments changes nothing. */
  lemma ApplyNothing(s: TrainingSettings)
    ensures Apply(s, NoArgs) == s
  {
  }

  /** Repeating a call changes nothing more. */
  lemma ApplyIdempotent(s: TrainingSettings, a: TrainingArgs)
    ensures Apply(Apply(s, a), a) == Apply(s, a)
  {
  }

  /** Two chained calls act as one call with the later arguments winning. */
  lemma ApplyThen(s: TrainingSettings, a: TrainingArgs, b: TrainingArgs)
    ensures Apply(Apply(s, a), b) == Apply(s, Then(a, b))
  {
  }

  /** Every given argument lands in its setting, and every setting whose
      argument is `None` keeps its value, whatever the other arguments are. */
  lemma ApplyGivenWins(s: TrainingSettings, a: TrainingArgs)
    ensures Apply(s, a).actionNoiseStd == if a.actionNoiseStd.Some? then a.actionNoiseStd.value else s.actionNoiseStd
    ensures Apply(s, a).l2Coeff == if a.l2Coeff.Some? then a.l2Coeff.value else s.l2Coeff
    ensures Apply(s, a).noiseStdev == if a.noiseStdev.Some? then a.noiseStdev.value else s.noiseStdev
    ensures Apply(s, a).episodesPerBatch == if a.episodesPerBatch.Some? then a.episodesPerBatch.value else s.episodesPerBatch
    ensures Apply(s, a).evalProb == if a.evalProb.Some? then a.evalProb.value else s.evalProb
    ensures Apply(s, a).stepsize == if a.stepsize.Some? then a.stepsize.value else s.stepsize
    ensures Apply(s, a).noiseSize == if a.noiseSize.Some? then a.noiseSize.value else s.noiseSize
    ensures Apply(s, a).reportLength == if a.reportLength.Some? then a.reportLength.value else s.reportLength
  {
  }

  /** `ESConfig`: the ES settings with their defaults, plus the inherited
      settings whose defaults ES overrides. */
  class ESConfig {
    var actionNoiseStd: real
    var l2Coeff: real
    var noiseStdev: real
    var episodesPerBatch: int
    var evalProb: real
    var stepsize: real
    var noiseSize: int
    var reportLength: int
    var trainBatchSize: int
    var numWorkers: int
    var observationFilter: string
    var evaluationConfig: EvaluationConfig

    /** The settings `training(...)` manages. */
    function Settings(): TrainingSettings
      reads this
    {
      TrainingSettings(actionNoiseStd, l2Coeff, noiseStdev, episodesPerBatch,
                       evalProb, stepsize, noiseSize, reportLength)
    }

    /** `ESConfig()`: the documented defaults. */
    constructor ()
      ensures Settings() == TrainingSettings(0.01, 0.005, 0.02, 1000, 0.03, 0.01, 250000000, 10)
      ensures trainBatchSize == 10000 && numWorkers == 10
      ensures observationFilter == "MeanStdFilter"
      ensures evaluationConfig == EvaluationConfig(1, "NoFilter")
    {
      actionNoiseStd := 0.01;
      l2Coeff := 0.005;
      noiseStdev := 0.02;
      episodesPerBatch := 1000;
      evalProb := 0.03;
      stepsize := 0.01;
      noiseSize := 250000000;
      reportLength := 10;
      trainBatchSize := 10000;
      numWorkers := 10;
      observationFilter := "MeanStdFilter";
      evaluationConfig := EvaluationConfig(1, "NoFilter");
    }

    /** `ESConfig.training(...)`: overwrites exactly the settings whose
        argument is given, leaves every other field as it was, and returns
        the same object so that calls can be chained. */
    method Training(actionNoiseStd: Option<real>, l2Coeff: Option<real>, noiseStdev: Option<real>,
                    episodesPerBatch: Option<int>, evalProb: Option<real>, stepsize: Option<real>,
                    noiseSize: Option<int>, reportLength: Option<int>) returns (r: ESConfig)
      modifies this`actionNoiseStd, this`l2Coeff, this`noiseStdev, this`episodesPerBatch, this`evalProb, this`stepsize, this`noiseSize, this`reportLength
      ensures r == this
      ensures Settings() == Apply(old(Settings()), TrainingArgs(actionNoiseStd, l2Coeff, noiseStdev,
                episodesPerBatch, evalProb, stepsize, noiseSize, reportLength))
      ensures trainBatchSize == old(trainBatchSize) && numWorkers == old(numWorkers)
      ensures observationFilter == old(observationFilter) && evaluationConfig == old(evaluationConfig)
    {
      // Each `if arg is not None: self.x = arg` of the source: a setting whose
      // argument is `None` is written back with its own value.
      this.actionNoiseStd := Pick(actionNoiseStd, this.actionNoiseStd);
      this.l2Coeff := Pick(l2Coeff, this.l2Coeff);
      this.noiseStdev := Pick(noiseStdev, this.noiseStdev);
      this.episodesPerBatch := Pick(episodesPerBatch, this.episodesPerBatch);
      this.evalProb := Pick(evalProb, this.evalProb);
      this.stepsize := Pick(stepsize, this.stepsize);
      this.noiseSize := Pick(noiseSize, this.noiseSize);
      this.reportLength := Pick(reportLength, this.reportLength);
      r := this;
    }
  }
}
