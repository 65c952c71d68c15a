# Handcrafted-DP training driver: batch configuration and epoch loop

This project models the control logic of `main` in `cnns.py`, the script that
trains a scattering-network classifier with DP-SGD. It covers two parts.

- **Batch configuration** (module `BatchConfig`). The logical batch
  (`batch_size`) must be a whole number of physical mini-batches
  (`mini_batch_size`). That number is `n_acc_steps`. Poisson batch sampling is
  refused unless there is exactly one accumulation step and augmentation is
  off. The sampling rate handed to the privacy engine is the logical batch size
  over the training-set size.
- **Epoch loop** (module `EpochLoop`). The loop keeps `best_acc` and
  `flat_count`. Each epoch it may stop on an exhausted privacy budget, then
  logs the epoch, then updates the plateau counter and may stop after 20
  non-improving epochs, then writes a checkpoint flagged as best. The test
  accuracy and the privacy loss ε of each epoch are inputs. Log records and
  checkpoints are events in a trace.

`EpochLoop.Train` is the loop as the script writes it, with its early returns.
It is proved equal to `EpochLoop.Run`, a specification stated through the first
epoch at which a stopping rule fires. The lemmas about `Run` give the stopping
epoch, the stopping reason and the counts of each kind of event.
`Experiment.RunMain` puts the two parts together as in `main`: a refused
configuration aborts before the first epoch.

Integer arithmetic follows Python. The script's `%` and `//` round towards minus
infinity and Dafny's are Euclidean. The two agree on whether a remainder is
zero and, when it is, on the quotient, so `BatchConfig.AccumulationSteps` uses
Dafny's operators. Its contract is stated without them: the quotient times the
mini-batch size is the batch size. The sampling rate, a Python float, is a
`real`.

Checkpoints are always saved with `is_best=True`, even when the epoch did not
improve on the best accuracy. The model keeps this behaviour.
`EpochLoop.CheckpointFlaggedBestWithoutImprovement` gives a run that shows it.
The best checkpoint is therefore always the latest one.

In the stopping epoch of a budget stop, the ε printed at `cnns.py:169` is at
or above the budget. That epoch returns at line 172, before `run.log`, so the
experiment tracker never receives it: every ε the tracker receives is below the
budget (`EpochLoop.LoggedEpsilonBelowBudget`).

## Model

| member | source | states |
|---|---|---|
| `BatchConfig.AccumulationSteps` | cnns.py:69-76 | An accepted configuration's step count times the mini-batch size is the batch size. Under Poisson sampling, acceptance implies one step, equal sizes and no augmentation. A zero mini-batch is refused. Each error is tied to its cause, and an empty training set is never reported here. |
| `BatchConfig.AcceptsEveryExactMultiple` | cnns.py:69-71 | Converse: if the batch is exactly `k` mini-batches and the Poisson restrictions hold, the configuration is accepted with `k` steps. |
| `BatchConfig.RejectsInexactMultiples` | cnns.py:70 | A batch that is no integer multiple of the mini-batch is refused as not a multiple. |
| `BatchConfig.NotAMultipleIsInexact` | cnns.py:70 | The not-a-multiple error is reported only when no integer `k` makes `k * mini_batch_size` equal the batch size. |
| `BatchConfig.ExactQuotient` | cnns.py:70-71 | When the mini-batch goes into the batch exactly `k` times, the remainder is zero and the quotient is `k`. |
| `BatchConfig.PoissonRestrictions` | cnns.py:73-76 | Poisson sampling together with accumulation (unequal sizes) or with augmentation is always refused. |
| `BatchConfig.PoissonErrors` | cnns.py:73-76 | For an exact multiple under Poisson sampling, a step count other than one fails with the accumulation error (line 75). One step with augmentation fails with the augmentation error (line 76). |
| `BatchConfig.Setup` | cnns.py:69-147 | Assertion errors come first, then an empty training set is refused. A configuration is accepted exactly when the assertions pass and the training set is non-empty. An accepted plan's step count is the derived one, and its sampling rate times the training-set size is the logical batch size. |
| `BatchConfig.SampleRateIsLogical` | cnns.py:147 | The sampling rate is the mini-batch rate times the step count. It differs from the mini-batch rate whenever the step count is not one. |
| `EpochLoop.BestAcc` | cnns.py:154-189 | `best_acc` after the plateau checks of the first `k` epochs: starts at 0 and takes each strictly better accuracy. |
| `EpochLoop.FlatCount` | cnns.py:155-192 | `flat_count` after `k` epochs: reset to 0 on a strict improvement, otherwise one more. |
| `EpochLoop.BudgetStop` | cnns.py:163-172 | Epoch `e` exhausts the budget: noise is positive, a budget is set and ε is at or above it. |
| `EpochLoop.PlateauStop` | cnns.py:187-195 | Epoch `e` stops on plateau: early stopping is on, the epoch does not improve and the counter reaches 20. |
| `EpochLoop.LoggedEpsilon` | cnns.py:163-174 | The logged ε: the accountant's value when noise is positive, `None` otherwise. |
| `EpochLoop.Trace` | cnns.py:176-208 | The events of `n` completed epochs: each epoch's log record, then its checkpoint flagged as best. |
| `EpochLoop.FirstStop` | cnns.py:157-195 | The result is the first epoch at which the budget or plateau rule fires, or the epoch count if neither fires. |
| `EpochLoop.Run` | cnns.py:154-208 | A run stops within the epoch count. The stopping epoch is trained before it returns, so a run that stops early has trained one epoch more than its stop epoch; a completed run has trained every epoch. It completes exactly when no rule fired. It stops on the budget exactly when the budget rule fires at the stop epoch. It stops on plateau exactly when the plateau rule fires there and the budget rule does not. No earlier epoch stops. |
| `EpochLoop.Train` | cnns.py:154-208 | The imperative loop, with its early returns, produces exactly the outcome and event trace of `Run`. |
| `EpochLoop.FirstStopIsFirst` | cnns.py:157-195 | A stopping epoch with no stopping epoch before it is the run's stop epoch. |
| `EpochLoop.BestAccIsMaximum` | cnns.py:154-189 | `best_acc` is at least 0, at least every accuracy seen so far, and equal to 0 or to one of those accuracies. |
| `EpochLoop.BestAccMonotone` | cnns.py:188-189 | `best_acc` never decreases. |
| `EpochLoop.FlatCountSinceImprovement` | cnns.py:155-192 | `flat_count` counts the epochs since the last strict improvement. None of the last `flat_count` epochs improved, and the epoch before them, if any, did. |
| `EpochLoop.PlateauSincePeak` | cnns.py:188-192 | After a strict improvement at `p` with nothing better up to `j`, `best_acc` is `accs[p]`. Epochs with equal accuracy still count, so `flat_count` is `j - p`. |
| `EpochLoop.PlateauWithoutAnyImprovement` | cnns.py:154-195 | With early stopping on and no accuracy ever above 0, the run stops on plateau at epoch 19, provided that epoch exists and the budget does not stop it first. |
| `EpochLoop.PlateauStopsAfterPatience` | cnns.py:187-195 | With early stopping on, accuracy that peaks at `p` and never strictly improves stops the run on plateau at exactly `p + 20`. This needs the run to reach `p`, that epoch to exist, and no budget stop in between. |
| `EpochLoop.NoPlateauWithoutEarlyStop` | cnns.py:193-195 | With early stopping off, a run never stops on plateau. |
| `EpochLoop.BudgetStopsAtFirstExhaustedEpoch` | cnns.py:163-172 | With noise and a budget, the run stops at the first epoch whose ε reaches the budget, even when the plateau rule fires in that same epoch. That epoch is neither logged nor checkpointed. |
| `EpochLoop.LoggedEpsilonBelowBudget` | cnns.py:163-185 | With noise and a budget, every logged ε is present and below the budget. |
| `EpochLoop.NoBudgetStopWithoutNoise` | cnns.py:163-174 | Without noise there is no budget stop, and every logged ε is `None`. |
| `EpochLoop.TraceOrder` | cnns.py:176-208 | After `n` completed epochs there are `2n` events, in order: epoch `e`'s log record (its accuracy and logged ε) at position `2e`, then its checkpoint (recording `e + 1` epochs, the epoch's accuracy and the best so far, flagged as best) at `2e + 1`. |
| `EpochLoop.TraceEvents` | cnns.py:176-208 | After `n` completed epochs there are `2n` events. Each is epoch `e`'s log record with `e < n`, or the checkpoint recording `e + 1` epochs with that epoch's accuracy and the best so far, flagged as best. |
| `EpochLoop.TraceCounts` | cnns.py:176-208 | `n` completed epochs give exactly `n` log records and `n` checkpoints. |
| `EpochLoop.EventCounts` | cnns.py:157-208 | A run has one log record per completed epoch, plus one for a plateau stop. It has one checkpoint per completed epoch. Every checkpoint is flagged as best. |
| `EpochLoop.RunEventOrder` | cnns.py:157-208 | A run's events come in epoch order: each completed epoch's log record followed by its checkpoint, then, for a plateau stop only, the stopping epoch's log record. A budget stop adds no event. |
| `EpochLoop.CheckpointsRecordBestAccuracy` | cnns.py:197-207 | Each checkpoint records between 1 and the stop epoch finished epochs. Its best accuracy is `best_acc` after those epochs, so it is at least the epoch's own accuracy and at least 0. |
| `EpochLoop.CheckpointFlaggedBestWithoutImprovement` | cnns.py:197-208 | With accuracies 0.5 then 0.4, the second checkpoint holds 0.4 and best accuracy 0.5, and it is still flagged as best. |
| `Experiment.RunMain` | cnns.py:69-208 | `main` fails exactly when the configuration is refused, with that error. Otherwise it runs the epoch loop of `Run`. |

## Left out

- Differential-privacy accounting (`get_renyi_divergence`, `get_privacy_spent`, `scatter_normalization`): floating-point routines in modules that are not part of this model. The ε of each epoch is an input sequence.
- `train`, `test`, the model, the optimizer and the opacus `PrivacyEngine`: library wrappers; per-sample clipping and noise happen inside opacus, which is not part of this model. The test accuracy of each epoch is an input sequence. The derived `n_acc_steps` and sampling rate are computed, but their use inside training is not modelled.
- Data loading, the scattering transform and the data loaders: I/O and library plumbing. A non-positive mini-batch size that passes the divisibility check is only rejected later by the data loader, which the model does not include.
- The experiment tracker, console output and checkpoint files (`save_checkpoint`): external I/O, modelled only as `Logged` and `Saved` events. The copy made for `is_best` is the event's `isBest` flag.
- Global seeding and argument parsing: process-wide state and command-line surface.
- Floating point: accuracies, ε and the sampling rate are exact reals, so NaN, infinities and rounding are not modelled.
