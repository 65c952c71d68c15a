/** The batch configuration that the training script derives from its
    arguments before it trains: the logical batch (`batch_size`) is made of
    `n_acc_steps` physical mini-batches (`mini_batch_size`) whose gradients are
    accumulated, Poisson batch sampling is refused for any configuration it does
    not support, and the privacy engine is told the sampling rate of one
    logical batch. */
module BatchConfig {
  import opened Wrappers

  /** The arguments of `main` that the batch configuration depends on. */
  datatype BatchParams = BatchParams(
    batchSize: int,       // logical batch size (`batch_size`)
    miniBatchSize: int,   // physical batch size (`mini_batch_size`)
    sampleBatches: bool,  // Poisson batch sampling (`sample_batches`)
    augment: bool)        // data augmentation (`augment`)

  /** Why a configuration is refused before training starts. */
  datatype ConfigError =
    | ZeroMiniBatch            // `bs % mini_batch_size` divides by zero
    | NotAMultiple             // the logical batch is not a whole number of mini-batches
    | AccumulationWithPoisson  // Poisson sampling with a step count other than one
    | AugmentWithPoisson       // Poisson sampling with data augmentation
    | EmptyTrainingSet         // refused before training: by the shuffling data loader, or by `bs / len(train_data)`

  /** What the script goes on to use: the number of accumulation steps handed
      to `train` and the sampling rate handed to the privacy engine. */
  datatype Plan = Plan(accSteps: int, sampleRate: real)

  /** The assertions that decide `n_acc_steps`. Python's `%` and `//` round
      towards minus infinity and Dafny's are Euclidean; the two agree on whether
      the remainder is zero and, when it is, on the quotient, which is all the
      script uses. */
  function AccumulationSteps(p: BatchParams): (r: Result<int, ConfigError>)
    ensures r.Success? ==> r.value * p.miniBatchSize == p.batchSize
    ensures r.Success? && p.sampleBatches ==> r.value == 1 && !p.augment
    ensures r.Success? && p.sampleBatches ==> p.batchSize == p.miniBatchSize
    ensures r == Failure(ZeroMiniBatch) <==> p.miniBatchSize == 0
    ensures r == Failure(AccumulationWithPoisson) ==> p.sampleBatches && p.batchSize != p.miniBatchSize
    ensures r == Failure(AugmentWithPoisson) ==> p.sampleBatches && p.augment
    ensures r.Failure? ==> r.error != EmptyTrainingSet
  {
    if p.miniBatchSize == 0 then Failure(ZeroMiniBatch)
    else if p.batchSize % p.miniBatchSize != 0 then Failure(NotAMultiple)
    else
      var n := p.batchSize / p.miniBatchSize;
      if p.sampleBatches && n != 1 then Failure(AccumulationWithPoisson)
      else if p.sampleBatches && p.augment then Failure(AugmentWithPoisson)
      else Success(n)
  }

  /** An integer quotient is unique: a divisor that goes into `n` exactly `k`
      times leaves remainder zero and quotient `k`. */
  lemma ExactQuotient(n: int, d: int, k: int)
    requires d != 0 && k * d == n
    ensures n % d == 0 && n / d == k
  {
    var q, m := n / d, n % d;
    assert m == (k - q) * d;
    MultipleBelowDivisor(k - q, d);
  }

  /** The only multiple of `d` in `[0, |d|)` is zero. */
  lemma MultipleBelowDivisor(j: int, d: int)
    requires d != 0 && 0 <= j * d < (if d > 0 then d else -d)
    ensures j == 0
  {
  }

  /** The converse of AccumulationSteps' contract: whenever the logical batch is
      exactly `k` mini-batches and Poisson sampling, if asked for, has one step
      and no augmentation, the configuration is accepted with `k` steps. Together
      with AccumulationSteps' ensures this says a configuration is accepted if
      and only if its logical batch is a whole number of mini-batches (and the
      Poisson restrictions hold). */
  lemma AcceptsEveryExactMultiple(p: BatchParams, k: int)
    requires p.miniBatchSize != 0 && k * p.miniBatchSize == p.batchSize
    requires p.sampleBatches ==> k == 1 && !p.augment
    ensures AccumulationSteps(p) == Success(k)
  {
    ExactQuotient(p.batchSize, p.miniBatchSize, k);
  }

  /** A logical batch that is not a whole number of mini-batches is refused. */
  lemma RejectsInexactMultiples(p: BatchParams)
    requires p.miniBatchSize != 0
    requires forall k: int :: k * p.miniBatchSize != p.batchSize
    ensures AccumulationSteps(p) == Failure(NotAMultiple)
  {
    var q := p.batchSize / p.miniBatchSize;
    assert p.batchSize == q * p.miniBatchSize + p.batchSize % p.miniBatchSize;
    assert q * p.miniBatchSize != p.batchSize;
  }

  /** The not-a-multiple error is reported only for a logical batch that is no
      integer multiple of the mini-batch. */
  lemma NotAMultipleIsInexact(p: BatchParams, k: int)
    requires AccumulationSteps(p) == Failure(NotAMultiple)
    ensures k * p.miniBatchSize != p.batchSize
  {
    if k * p.miniBatchSize == p.batchSize {
      if p.sampleBatches && (k != 1 || p.augment) {
        PoissonErrors(p, k);
      } else {
        AcceptsEveryExactMultiple(p, k);
      }
    }
  }

  /** Poisson sampling with gradient accumulation or with augmentation is
      refused, whatever the batch sizes. */
  lemma PoissonRestrictions(p: BatchParams)
    requires p.sampleBatches
    requires p.batchSize != p.miniBatchSize || p.augment
    ensures AccumulationSteps(p).Failure?
  {
  }

  /** Which error a Poisson violation gets when the logical batch is exactly
      `k` mini-batches: a step count other than one fails the first Poisson
      assertion,
      otherwise augmentation fails the second. */
  lemma PoissonErrors(p: BatchParams, k: int)
    requires p.miniBatchSize != 0 && k * p.miniBatchSize == p.batchSize && p.sampleBatches
    ensures k != 1 ==> AccumulationSteps(p) == Failure(AccumulationWithPoisson)
    ensures k == 1 && p.augment ==> AccumulationSteps(p) == Failure(AugmentWithPoisson)
  {
    ExactQuotient(p.batchSize, p.miniBatchSize, k);
  }

  /** The whole derivation in the order of the script: the assertions first,
      then the sampling rate `bs / len(train_data)`. An empty training set is
      refused before training, after the assertions: the shuffling data loader
      built after them rejects it, and the division would fail on it too. */
  function Setup(p: BatchParams, trainSize: nat): (r: Result<Plan, ConfigError>)
    ensures AccumulationSteps(p).Failure? ==> r == Failure(AccumulationSteps(p).error)
    ensures AccumulationSteps(p).Success? && trainSize == 0 ==> r == Failure(EmptyTrainingSet)
    ensures r.Success? <==> AccumulationSteps(p).Success? && trainSize > 0
    ensures r.Success? ==> AccumulationSteps(p) == Success(r.value.accSteps)
    ensures r.Success? ==> r.value.sampleRate * (trainSize as real) == p.batchSize as real
  {
    match AccumulationSteps(p)
    case Failure(e) => Failure(e)
    case Success(n) =>
      if trainSize == 0 then Failure(EmptyTrainingSet)
      else Success(Plan(n, p.batchSize as real / trainSize as real))
  }

  /** The sampling rate is that of the logical batch: it is the physical
      mini-batch's rate times the number of accumulation steps, so it differs
      from the mini-batch's rate whenever the step count is not one. */
  lemma SampleRateIsLogical(p: BatchParams, trainSize: nat)
    requires Setup(p, trainSize).Success?
    ensures var plan := Setup(p, trainSize).value;
            plan.sampleRate == (plan.accSteps as real) * (p.miniBatchSize as real / trainSize as real)
    ensures var plan := Setup(p, trainSize).value;
            plan.accSteps != 1 && p.miniBatchSize != 0 ==>
              plan.sampleRate != p.miniBatchSize as real / trainSize as real
  {
  }
}
