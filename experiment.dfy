/** The training script's `main` as a whole: the batch configuration is
    derived and checked before anything is trained, and only an accepted
    configuration reaches the epoch loop. */
module Experiment {
  import opened Wrappers
  import opened BatchConfig
  import opened EpochLoop

  /** The arguments of `main` that the model uses. */
  datatype Args = Args(
    batchSize: int,
    miniBatchSize: int,
    sampleBatches: bool,
    augment: bool,
    noiseMultiplier: real,
    epochs: int,
    maxEpsilon: Option<real>,
    earlyStop: bool)

  function BatchParamsOf(a: Args): BatchParams {
    BatchParams(a.batchSize, a.miniBatchSize, a.sampleBatches, a.augment)
  }

  function LoopConfigOf(a: Args): LoopConfig {
    LoopConfig(a.epochs, a.noiseMultiplier, a.maxEpsilon, a.earlyStop)
  }

  /** A run of `main` on a training set of `trainSize` records: a refused
      configuration aborts with its error before the first epoch; an accepted
      one runs the epoch loop. */
  method RunMain(args: Args, trainSize: nat, accs: seq<real>, eps: seq<real>)
    returns (r: Result<Outcome, ConfigError>)
    requires Inputs(LoopConfigOf(args), accs, eps)
    ensures r.Failure? <==> Setup(BatchParamsOf(args), trainSize).Failure?
    ensures r.Failure? ==> r.error == Setup(BatchParamsOf(args), trainSize).error
    ensures r.Success? ==> r.value == Run(LoopConfigOf(args), accs, eps)
  {
    var setup := Setup(BatchParamsOf(args), trainSize);
    if setup.Failure? {
      return Failure(setup.error);
    }
    var outcome := Train(LoopConfigOf(args), accs, eps);
    return Success(outcome);
  }
}
