/** The epoch loop of the training script: one iteration per epoch, stopping
    early when the privacy budget is spent or when the test accuracy has not
    improved for `PlateauPatience` consecutive epochs. Training, testing and the
    privacy accountant are outside the model: epoch `e` reports test accuracy
    `accs[e]` and cumulative privacy loss `eps[e]`. Logging and checkpointing
    are recorded as a trace of events. */
module EpochLoop {
  import opened Wrappers

  /** Consecutive non-improving epochs after which training stops. */
  const PlateauPatience: nat := 20

  /** The arguments of `main` that steer the loop. */
  datatype LoopConfig = LoopConfig(
    epochs: int,                // `epochs`; `range(0, epochs)` is empty when it is not positive
    noiseMultiplier: real,      // `noise_multiplier`; privacy is accounted only when positive
    maxEpsilon: Option<real>,   // `max_epsilon`, the privacy budget, if any
    earlyStop: bool)            // `early_stop`, which enables the plateau rule

  datatype StopReason = Completed | BudgetExhausted | Plateau

  /** What the loop does to the outside world: one record sent to the
      experiment tracker, or one checkpoint written. A checkpoint stores the
      number of finished epochs, the epoch's test accuracy, the best accuracy so
      far and whether it is also copied as the best checkpoint. */
  datatype Event =
    | Logged(epoch: nat, testAcc: real, epsilon: Option<real>)
    | Saved(epoch: nat, testAcc: real, bestAcc: real, isBest: bool)

  /** How a run ended: why, at which epoch (the epoch count when it ran to
      the end), how many epochs it trained, and the events it produced. */
  datatype Outcome = Outcome(reason: StopReason, stopEpoch: nat, epochsTrained: nat, events: seq<Event>)

  function EpochCount(cfg: LoopConfig): nat {
    if cfg.epochs < 0 then 0 else cfg.epochs
  }

  /** Every epoch the loop can reach has a test accuracy and a privacy loss. */
  predicate Inputs(cfg: LoopConfig, accs: seq<real>, eps: seq<real>) {
    EpochCount(cfg) <= |accs| && EpochCount(cfg) <= |eps|
  }

  // ---------------------------------------------------------------------------
  // The loop's state after the plateau checks of epochs 0 .. k-1

  /** `best_acc`: starts at 0 and takes every strictly better accuracy. */
  function BestAcc(accs: seq<real>, k: nat): real
    requires k <= |accs|
  {
    if k == 0 then 0.0
    else if accs[k - 1] > BestAcc(accs, k - 1) then accs[k - 1]
    else BestAcc(accs, k - 1)
  }

  /** Epoch `e` strictly improves on the best accuracy seen before it. */
  predicate Improves(accs: seq<real>, e: nat)
    requires e < |accs|
  {
    accs[e] > BestAcc(accs, e)
  }

  /** `flat_count`: reset on a strict improvement, otherwise one more. */
  function FlatCount(accs: seq<real>, k: nat): nat
    requires k <= |accs|
  {
    if k == 0 then 0
    else if Improves(accs, k - 1) then 0
    else FlatCount(accs, k - 1) + 1
  }

  // ---------------------------------------------------------------------------
  // The two stopping rules

  /** The privacy budget is exhausted at epoch `e`. */
  predicate BudgetStop(cfg: LoopConfig, eps: seq<real>, e: nat)
    requires e < |eps|
  {
    cfg.noiseMultiplier > 0.0 && cfg.maxEpsilon.Some? && eps[e] >= cfg.maxEpsilon.value
  }

  /** Epoch `e` does not improve and brings the plateau to its limit. */
  predicate PlateauStop(cfg: LoopConfig, accs: seq<real>, e: nat)
    requires e < |accs|
  {
    cfg.earlyStop && !Improves(accs, e) && FlatCount(accs, e + 1) >= PlateauPatience
  }

  predicate Stops(cfg: LoopConfig, accs: seq<real>, eps: seq<real>, e: nat)
    requires e < |accs| && e < |eps|
  {
    BudgetStop(cfg, eps, e) || PlateauStop(cfg, accs, e)
  }

  /** The first epoch from `from` on at which a stopping rule fires, or the
      epoch count when none does. */
  function FirstStop(cfg: LoopConfig, accs: seq<real>, eps: seq<real>, from: nat): (r: nat)
    requires Inputs(cfg, accs, eps) && from <= EpochCount(cfg)
    ensures from <= r <= EpochCount(cfg)
    ensures r < EpochCount(cfg) ==> Stops(cfg, accs, eps, r)
    ensures forall e :: from <= e < r ==> !Stops(cfg, accs, eps, e)
    decreases EpochCount(cfg) - from
  {
    if from == EpochCount(cfg) then from
    else if Stops(cfg, accs, eps, from) then from
    else FirstStop(cfg, accs, eps, from + 1)
  }

  // ---------------------------------------------------------------------------
  // The events of a run

  /** ε as logged: computed only when noise is added, `None` otherwise. */
  function LoggedEpsilon(cfg: LoopConfig, eps: seq<real>, e: nat): Option<real>
    requires e < |eps|
  {
    if cfg.noiseMultiplier > 0.0 then Some(eps[e]) else None
  }

  function LogEvent(cfg: LoopConfig, accs: seq<real>, eps: seq<real>, e: nat): Event
    requires e < |accs| && e < |eps|
  {
    Logged(e, accs[e], LoggedEpsilon(cfg, eps, e))
  }

  /** The checkpoint of epoch `e`, always flagged as the best one. */
  function SaveEvent(accs: seq<real>, e: nat): Event
    requires e < |accs|
  {
    Saved(e + 1, accs[e], BestAcc(accs, e + 1), true)
  }

  /** The events of `n` epochs that ran to completion. */
  function Trace(cfg: LoopConfig, accs: seq<real>, eps: seq<real>, n: nat): seq<Event>
    requires n <= |accs| && n <= |eps|
  {
    if n == 0 then []
    else Trace(cfg, accs, eps, n - 1) + [LogEvent(cfg, accs, eps, n - 1), SaveEvent(accs, n - 1)]
  }

  /** The run that the loop performs, stated through the first stopping epoch:
      every epoch before it logs and checkpoints; a budget stop adds nothing; a
      plateau stop adds the stopping epoch's log record. */
  function Run(cfg: LoopConfig, accs: seq<real>, eps: seq<real>): (o: Outcome)
    requires Inputs(cfg, accs, eps)
    ensures o.stopEpoch <= o.epochsTrained <= EpochCount(cfg)
    ensures o.epochsTrained == if o.reason == Completed then o.stopEpoch else o.stopEpoch + 1
    ensures o.reason == Completed <==> o.stopEpoch == EpochCount(cfg)
    ensures o.reason == BudgetExhausted <==>
              o.stopEpoch < EpochCount(cfg) && BudgetStop(cfg, eps, o.stopEpoch)
    ensures o.reason == Plateau <==>
              o.stopEpoch < EpochCount(cfg) && !BudgetStop(cfg, eps, o.stopEpoch) && PlateauStop(cfg, accs, o.stopEpoch)
    ensures forall e :: 0 <= e < o.stopEpoch ==> !Stops(cfg, accs, eps, e)
  {
    var stop := FirstStop(cfg, accs, eps, 0);
    if stop == EpochCount(cfg) then Outcome(Completed, stop, stop, Trace(cfg, accs, eps, stop))
    else if BudgetStop(cfg, eps, stop) then Outcome(BudgetExhausted, stop, stop + 1, Trace(cfg, accs, eps, stop))
    else Outcome(Plateau, stop, stop + 1, Trace(cfg, accs, eps, stop) + [LogEvent(cfg, accs, eps, stop)])
  }

  // ---------------------------------------------------------------------------
  // The loop itself

  /** The epoch loop as the script runs it, with its early returns. */
  method Train(cfg: LoopConfig, accs: seq<real>, eps: seq<real>) returns (o: Outcome)
    requires Inputs(cfg, accs, eps)
    ensures o == Run(cfg, accs, eps)
  {
    var bestAcc := 0.0;
    var flatCount := 0;
    var events: seq<Event> := [];
    for epoch := 0 to EpochCount(cfg)
      invariant bestAcc == BestAcc(accs, epoch)
      invariant flatCount == FlatCount(accs, epoch)
      invariant events == Trace(cfg, accs, eps, epoch)
      invariant forall e :: 0 <= e < epoch ==> !Stops(cfg, accs, eps, e)
    {
      // train one epoch and test it: the accuracy and ε are given
      var testAcc := accs[epoch];
      var epsilon: Option<real> := None;
      if cfg.noiseMultiplier > 0.0 {
        epsilon := Some(eps[epoch]);
        if cfg.maxEpsilon.Some? && eps[epoch] >= cfg.maxEpsilon.value {
          FirstStopIsFirst(cfg, accs, eps, epoch);
          return Outcome(BudgetExhausted, epoch, epoch + 1, events);
        }
      }
      events := events + [Logged(epoch, testAcc, epsilon)];
      if testAcc > bestAcc {
        bestAcc := testAcc;
        flatCount := 0;
      } else {
        flatCount := flatCount + 1;
        if flatCount >= PlateauPatience && cfg.earlyStop {
          FirstStopIsFirst(cfg, accs, eps, epoch);
          return Outcome(Plateau, epoch, epoch + 1, events);
        }
      }
      events := events + [Saved(epoch + 1, testAcc, bestAcc, true)];
    }
    FirstStopIsFirst(cfg, accs, eps, EpochCount(cfg));
    return Outcome(Completed, EpochCount(cfg), EpochCount(cfg), events);
  }

  /** An epoch that stops (or the epoch count), preceded only by epochs that
      do not, is the first stopping epoch. */
  lemma FirstStopIsFirst(cfg: LoopConfig, accs: seq<real>, eps: seq<real>, e: nat)
    requires Inputs(cfg, accs, eps) && e <= EpochCount(cfg)
    requires e < EpochCount(cfg) ==> Stops(cfg, accs, eps, e)
    requires forall j :: 0 <= j < e ==> !Stops(cfg, accs, eps, j)
    ensures FirstStop(cfg, accs, eps, 0) == e
  {
  }

  // ---------------------------------------------------------------------------
  // The state: best accuracy and plateau counter

  /** `best_acc` is the maximum of 0 and the accuracies of epochs 0 .. k-1. */
  lemma {:induction false} BestAccIsMaximum(accs: seq<real>, k: nat)
    requires k <= |accs|
    ensures BestAcc(accs, k) >= 0.0
    ensures forall j :: 0 <= j < k ==> accs[j] <= BestAcc(accs, k)
    ensures BestAcc(accs, k) == 0.0 || exists j :: 0 <= j < k && accs[j] == BestAcc(accs, k)
  {
    if k > 0 {
      BestAccIsMaximum(accs, k - 1);
    }
  }

  /** `best_acc` never decreases. */
  lemma {:induction false} BestAccMonotone(accs: seq<real>, j: nat, k: nat)
    requires j <= k <= |accs|
    ensures BestAcc(accs, j) <= BestAcc(accs, k)
  {
    if j < k {
      BestAccMonotone(accs, j, k - 1);
    }
  }

  /** `flat_count` is the number of epochs since the last strict improvement:
      the last `FlatCount` epochs did not improve, and the one before them
      (if any) did. */
  lemma {:induction false} FlatCountSinceImprovement(accs: seq<real>, k: nat)
    requires k <= |accs|
    ensures FlatCount(accs, k) <= k
    ensures forall j :: k - FlatCount(accs, k) <= j < k ==> !Improves(accs, j)
    ensures FlatCount(accs, k) < k ==> Improves(accs, k - FlatCount(accs, k) - 1)
  {
    if k > 0 && !Improves(accs, k - 1) {
      FlatCountSinceImprovement(accs, k - 1);
    }
  }

  /** After a strict improvement at epoch `p` and no better accuracy up to
      epoch `j`, the best accuracy is that of `p` and the plateau counter
      has counted the epochs after `p`. */
  lemma {:induction false} PlateauSincePeak(accs: seq<real>, p: nat, j: nat)
    requires p <= j < |accs| && Improves(accs, p)
    requires forall i :: p < i <= j ==> accs[i] <= accs[p]
    ensures BestAcc(accs, j + 1) == accs[p]
    ensures FlatCount(accs, j + 1) == j - p
  {
    if j > p {
      PlateauSincePeak(accs, p, j - 1);
    }
  }

  // ---------------------------------------------------------------------------
  // When and why a run stops

  /** With early stopping on, a run whose accuracy peaks at epoch `p` and
      never strictly improves afterwards stops on the plateau rule exactly
      `PlateauPatience` epochs later, provided it reached `p`, that epoch
      exists and the budget does not stop it first. */
  lemma PlateauStopsAfterPatience(cfg: LoopConfig, accs: seq<real>, eps: seq<real>, p: nat)
    requires Inputs(cfg, accs, eps) && cfg.earlyStop
    requires p + PlateauPatience < EpochCount(cfg)
    requires Improves(accs, p)
    requires forall i :: p < i <= p + PlateauPatience ==> accs[i] <= accs[p]
    requires forall j :: 0 <= j < p ==> !Stops(cfg, accs, eps, j)
    requires forall j :: p <= j <= p + PlateauPatience ==> !BudgetStop(cfg, eps, j)
    ensures Run(cfg, accs, eps).reason == Plateau
    ensures Run(cfg, accs, eps).stopEpoch == p + PlateauPatience
  {
    var last := p + PlateauPatience;
    forall j | p <= j < last
      ensures !Stops(cfg, accs, eps, j)
    {
      PlateauSincePeak(accs, p, j);
    }
    PlateauSincePeak(accs, p, last - 1);
    PlateauSincePeak(accs, p, last);
    assert !Improves(accs, last);
    FirstStopIsFirst(cfg, accs, eps, last);
  }

  /** Without any accuracy above the initial `best_acc` of 0, no epoch
      improves, so the plateau counter reaches `PlateauPatience` at epoch
      `PlateauPatience - 1`. */
  lemma {:induction false} NeverImprovingCount(accs: seq<real>, j: nat)
    requires j < |accs|
    requires forall i :: 0 <= i <= j ==> accs[i] <= 0.0
    ensures BestAcc(accs, j + 1) == 0.0 && !Improves(accs, j)
    ensures FlatCount(accs, j + 1) == j + 1
  {
    if j > 0 {
      NeverImprovingCount(accs, j - 1);
    }
  }

  /** With early stopping on, a run whose accuracy never rises above 0 stops
      on the plateau rule at epoch `PlateauPatience - 1`, provided that epoch
      exists and the budget does not stop the run first. */
  lemma PlateauWithoutAnyImprovement(cfg: LoopConfig, accs: seq<real>, eps: seq<real>)
    requires Inputs(cfg, accs, eps) && cfg.earlyStop
    requires PlateauPatience <= EpochCount(cfg)
    requires forall i :: 0 <= i < PlateauPatience ==> accs[i] <= 0.0
    requires forall j :: 0 <= j < PlateauPatience ==> !BudgetStop(cfg, eps, j)
    ensures Run(cfg, accs, eps).reason == Plateau
    ensures Run(cfg, accs, eps).stopEpoch == PlateauPatience - 1
  {
    var last := PlateauPatience - 1;
    forall j | 0 <= j < last
      ensures !Stops(cfg, accs, eps, j)
    {
      NeverImprovingCount(accs, j);
    }
    NeverImprovingCount(accs, last);
    FirstStopIsFirst(cfg, accs, eps, last);
  }

  /** With early stopping off, the plateau rule never ends a run. */
  lemma NoPlateauWithoutEarlyStop(cfg: LoopConfig, accs: seq<real>, eps: seq<real>)
    requires Inputs(cfg, accs, eps) && !cfg.earlyStop
    ensures Run(cfg, accs, eps).reason != Plateau
  {
  }

  /** With noise and a budget, a run stops at the first epoch whose ε
      reaches the budget (unless the plateau rule stopped it before), even if
      the plateau rule fires in that same epoch, and that epoch is neither
      logged nor checkpointed. */
  lemma BudgetStopsAtFirstExhaustedEpoch(cfg: LoopConfig, accs: seq<real>, eps: seq<real>, e: nat)
    requires Inputs(cfg, accs, eps) && e < EpochCount(cfg)
    requires cfg.noiseMultiplier > 0.0 && cfg.maxEpsilon.Some?
    requires eps[e] >= cfg.maxEpsilon.value
    requires forall j :: 0 <= j < e ==> eps[j] < cfg.maxEpsilon.value && !PlateauStop(cfg, accs, j)
    ensures Run(cfg, accs, eps).reason == BudgetExhausted
    ensures Run(cfg, accs, eps).stopEpoch == e
    ensures forall ev :: ev in Run(cfg, accs, eps).events ==> ev.epoch <= e
    ensures forall ev :: ev in Run(cfg, accs, eps).events && ev.Logged? ==> ev.epoch < e
  {
    FirstStopIsFirst(cfg, accs, eps, e);
    TraceEvents(cfg, accs, eps, e);
  }

  /** With noise and a budget, every ε that reaches the experiment tracker is
      below the budget: the epoch that exhausts it returns before logging. */
  lemma LoggedEpsilonBelowBudget(cfg: LoopConfig, accs: seq<real>, eps: seq<real>)
    requires Inputs(cfg, accs, eps)
    requires cfg.noiseMultiplier > 0.0 && cfg.maxEpsilon.Some?
    ensures forall ev :: ev in Run(cfg, accs, eps).events && ev.Logged? ==>
              ev.epsilon.Some? && ev.epsilon.value < cfg.maxEpsilon.value
  {
    var o := Run(cfg, accs, eps);
    TraceEvents(cfg, accs, eps, o.stopEpoch);
    forall ev | ev in o.events && ev.Logged?
      ensures ev.epsilon.Some? && ev.epsilon.value < cfg.maxEpsilon.value
    {
      if ev in Trace(cfg, accs, eps, o.stopEpoch) {
        assert !Stops(cfg, accs, eps, ev.epoch);
      }
    }
  }

  /** Without noise there is no budget stop, and ε is logged as `None`. */
  lemma NoBudgetStopWithoutNoise(cfg: LoopConfig, accs: seq<real>, eps: seq<real>)
    requires Inputs(cfg, accs, eps) && cfg.noiseMultiplier <= 0.0
    ensures Run(cfg, accs, eps).reason != BudgetExhausted
    ensures forall ev :: ev in Run(cfg, accs, eps).events && ev.Logged? ==> ev.epsilon == None
  {
    var o := Run(cfg, accs, eps);
    TraceEvents(cfg, accs, eps, o.stopEpoch);
  }

  // ---------------------------------------------------------------------------
  // Lemmas about the events

  /** The events of `n` completed epochs, in order: epoch `e`'s log record
      at position `2e`, then its checkpoint at `2e + 1`. */
  lemma {:induction false} TraceOrder(cfg: LoopConfig, accs: seq<real>, eps: seq<real>, n: nat)
    requires n <= |accs| && n <= |eps|
    ensures |Trace(cfg, accs, eps, n)| == 2 * n
    ensures forall e :: 0 <= e < n ==>
              Trace(cfg, accs, eps, n)[2 * e] == LogEvent(cfg, accs, eps, e) &&
              Trace(cfg, accs, eps, n)[2 * e + 1] == SaveEvent(accs, e)
  {
    if n > 0 {
      TraceOrder(cfg, accs, eps, n - 1);
      var t, prev := Trace(cfg, accs, eps, n), Trace(cfg, accs, eps, n - 1);
      forall e | 0 <= e < n
        ensures t[2 * e] == LogEvent(cfg, accs, eps, e) && t[2 * e + 1] == SaveEvent(accs, e)
      {
        if e < n - 1 {
          assert t[2 * e] == prev[2 * e] && t[2 * e + 1] == prev[2 * e + 1];
        }
      }
    }
  }

  /** Which events `n` completed epochs produce: epoch `e`'s log record and
      the checkpoint that records `e + 1` finished epochs, the epoch's accuracy
      and the best accuracy so far, flagged as best. */
  lemma {:induction false} TraceEvents(cfg: LoopConfig, accs: seq<real>, eps: seq<real>, n: nat)
    requires n <= |accs| && n <= |eps|
    ensures |Trace(cfg, accs, eps, n)| == 2 * n
    ensures forall ev :: ev in Trace(cfg, accs, eps, n) ==>
              (ev.Logged? && ev.epoch < n && ev == LogEvent(cfg, accs, eps, ev.epoch)) ||
              (ev.Saved? && 1 <= ev.epoch <= n && ev == SaveEvent(accs, ev.epoch - 1))
  {
    if n > 0 {
      TraceEvents(cfg, accs, eps, n - 1);
    }
  }

  /** Number of log records in a trace. */
  function CountLogs(events: seq<Event>): nat {
    if events == [] then 0
    else CountLogs(events[..|events| - 1]) + (if events[|events| - 1].Logged? then 1 else 0)
  }

  /** Number of checkpoints in a trace. */
  function CountSaves(events: seq<Event>): nat {
    if events == [] then 0
    else CountSaves(events[..|events| - 1]) + (if events[|events| - 1].Saved? then 1 else 0)
  }

  lemma {:induction false} TraceCounts(cfg: LoopConfig, accs: seq<real>, eps: seq<real>, n: nat)
    requires n <= |accs| && n <= |eps|
    ensures CountLogs(Trace(cfg, accs, eps, n)) == n
    ensures CountSaves(Trace(cfg, accs, eps, n)) == n
  {
    if n > 0 {
      var t := Trace(cfg, accs, eps, n);
      var prev := Trace(cfg, accs, eps, n - 1);
      TraceCounts(cfg, accs, eps, n - 1);
      assert t[..|t| - 1][..|t| - 2] == prev;
    }
  }

  /** Every epoch a run completes produces one log record and one checkpoint;
      the epoch that stops on the plateau rule adds one log record and no
      checkpoint; the epoch that stops on the budget adds neither. Every
      checkpoint is flagged as the best. */
  lemma EventCounts(cfg: LoopConfig, accs: seq<real>, eps: seq<real>)
    requires Inputs(cfg, accs, eps)
    ensures var o := Run(cfg, accs, eps);
            CountLogs(o.events) == o.stopEpoch + (if o.reason == Plateau then 1 else 0)
    ensures var o := Run(cfg, accs, eps);
            CountSaves(o.events) == o.stopEpoch
    ensures forall ev :: ev in Run(cfg, accs, eps).events && ev.Saved? ==> ev.isBest
  {
    var o := Run(cfg, accs, eps);
    TraceCounts(cfg, accs, eps, o.stopEpoch);
    TraceEvents(cfg, accs, eps, o.stopEpoch);
    if o.reason == Plateau {
      var t := Trace(cfg, accs, eps, o.stopEpoch);
      assert o.events[..|o.events| - 1] == t;
    }
  }

  /** The events of a run, in order: each completed epoch logs, then
      checkpoints; a plateau stop ends the trace with the stopping epoch's log
      record; a budget stop adds nothing. */
  lemma RunEventOrder(cfg: LoopConfig, accs: seq<real>, eps: seq<real>)
    requires Inputs(cfg, accs, eps)
    ensures var o := Run(cfg, accs, eps);
            |o.events| == 2 * o.stopEpoch + (if o.reason == Plateau then 1 else 0)
    ensures var o := Run(cfg, accs, eps);
            forall e :: 0 <= e < o.stopEpoch ==>
              o.events[2 * e] == LogEvent(cfg, accs, eps, e) &&
              o.events[2 * e + 1] == SaveEvent(accs, e)
    ensures var o := Run(cfg, accs, eps);
            o.reason == Plateau ==> o.events[2 * o.stopEpoch] == LogEvent(cfg, accs, eps, o.stopEpoch)
  {
    var o := Run(cfg, accs, eps);
    TraceOrder(cfg, accs, eps, o.stopEpoch);
    var t := Trace(cfg, accs, eps, o.stopEpoch);
    assert o.events[..|t|] == t;
    forall e | 0 <= e < o.stopEpoch
      ensures o.events[2 * e] == LogEvent(cfg, accs, eps, e) && o.events[2 * e + 1] == SaveEvent(accs, e)
    {
      assert o.events[2 * e] == t[2 * e] && o.events[2 * e + 1] == t[2 * e + 1];
    }
  }

  /** Each checkpoint of a run records the best accuracy of the epochs it
      covers, which is never below the epoch's own accuracy nor below 0. */
  lemma CheckpointsRecordBestAccuracy(cfg: LoopConfig, accs: seq<real>, eps: seq<real>)
    requires Inputs(cfg, accs, eps)
    ensures forall ev :: ev in Run(cfg, accs, eps).events && ev.Saved? ==>
              1 <= ev.epoch <= Run(cfg, accs, eps).stopEpoch &&
              ev.bestAcc == BestAcc(accs, ev.epoch) &&
              ev.testAcc <= ev.bestAcc && 0.0 <= ev.bestAcc
  {
    var o := Run(cfg, accs, eps);
    TraceEvents(cfg, accs, eps, o.stopEpoch);
    forall ev | ev in o.events && ev.Saved?
      ensures 1 <= ev.epoch <= o.stopEpoch && ev.bestAcc == BestAcc(accs, ev.epoch)
      ensures ev.testAcc <= ev.bestAcc && 0.0 <= ev.bestAcc
    {
      BestAccIsMaximum(accs, ev.epoch);
    }
  }

  /** The checkpoint is flagged as best even when the epoch did not improve:
      after accuracies 0.5 and 0.4 the second checkpoint holds 0.4 and is
      copied as the best one, while the best accuracy recorded is 0.5. */
  lemma CheckpointFlaggedBestWithoutImprovement()
    ensures var o := Run(LoopConfig(2, 0.0, None, true), [0.5, 0.4], [0.0, 0.0]);
            o.events[3] == Saved(2, 0.4, 0.5, true)
  {
    var cfg, accs, eps := LoopConfig(2, 0.0, None, true), [0.5, 0.4], [0.0, 0.0];
    assert !Stops(cfg, accs, eps, 0) && !Stops(cfg, accs, eps, 1);
    FirstStopIsFirst(cfg, accs, eps, 2);
  }
}
