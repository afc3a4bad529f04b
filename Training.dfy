/** What the training loops of both model files share: a network's mutable
    parameters and mode flag, and the loss and parameter history of a run of
    epochs of optimiser steps. Losses and steps are opaque functions; batch b
    of an epoch is whatever the shuffled loader yields at that position. */
module Training {
  import opened Common

  /** The learned parameters of a network. Their contents are never inspected:
      the optimiser and the network that read and replace them are parameters. */
  type Params = seq<real>

  /** A torch module as the training loops see it: its parameters, replaced
      by every optimiser step, and its train/eval mode flag. */
  class Trainable {
    var params: Params
    var training: bool

    constructor (p: Params)
      ensures params == p && training
    {
      params := p;
      training := true;
    }
  }

  /** A loss value: mean squared error and cross-entropy are never negative. */
  type Loss = NonNeg

  /** The loss of batch `b` of `epoch` under the given parameters (the batch
      drawn at that position of the shuffled epoch is inside the function). */
  type LossFn = (Params, nat, nat) -> Loss
  /** One optimiser step for batch `b` of `epoch` (learning-rate schedule included). */
  type StepFn = (Params, nat, nat) -> Params

  /** Parameters after the first `b` optimiser steps of `epoch`. */
  function StepsOf(step: StepFn, p: Params, epoch: nat, b: nat): Params
  {
    if b == 0 then p else step(StepsOf(step, p, epoch, b - 1), epoch, b - 1)
  }

  /** Sum of the first `b` batch losses of `epoch`, each taken before that batch's step. */
  function LossSum(loss: LossFn, step: StepFn, p: Params, epoch: nat, b: nat): real
  {
    if b == 0 then 0.0 else LossSum(loss, step, p, epoch, b - 1) + loss(StepsOf(step, p, epoch, b - 1), epoch, b - 1)
  }

  /** Parameters after `epochs` full epochs of `n` batches. */
  function ParamsAfter(step: StepFn, p0: Params, epochs: nat, n: nat): Params
  {
    if epochs == 0 then p0 else StepsOf(step, ParamsAfter(step, p0, epochs - 1, n), epochs - 1, n)
  }

  /** Average training loss of epoch `e`: the sum of its batch losses,
      starting from the parameters the earlier epochs left, divided by the
      number of batches. */
  function EpochLoss(loss: LossFn, step: StepFn, p0: Params, n: nat, e: nat): real
    requires n > 0
  {
    LossSum(loss, step, ParamsAfter(step, p0, e, n), e, n) / n as real
  }

  /** Average training loss of each of the first `k` epochs. */
  function EpochLosses(loss: LossFn, step: StepFn, p0: Params, n: nat, k: nat): (r: seq<real>)
    requires n > 0
    ensures |r| == k
  {
    seq(k, e requires 0 <= e < k => EpochLoss(loss, step, p0, n, e))
  }

  /** The validation metric after each of the first `k` epochs: entry e is
      the metric of the parameters that epoch e's training left. */
  function EpochMetrics(metric: Params -> real, step: StepFn, p0: Params, n: nat, k: nat): (r: seq<real>)
    ensures |r| == k
  {
    seq(k, e requires 0 <= e < k => metric(ParamsAfter(step, p0, e + 1, n)))
  }

  /** A metric bounded on all parameters is bounded on every epoch. */
  lemma EpochMetricsBounded(metric: Params -> real, step: StepFn, p0: Params, n: nat, k: nat, lo: real, hi: real)
    requires forall p :: lo <= metric(p) <= hi
    ensures forall e :: 0 <= e < k ==> lo <= EpochMetrics(metric, step, p0, n, k)[e] <= hi
  {
    forall e | 0 <= e < k
      ensures lo <= EpochMetrics(metric, step, p0, n, k)[e] <= hi
    {
      assert EpochMetrics(metric, step, p0, n, k)[e] == metric(ParamsAfter(step, p0, e + 1, n));
    }
  }

  /** What a training loop keeps about one model after some epochs: its
      parameters, the epoch losses its scheduler was stepped with, the
      epochs' validation metrics, and its "best so far" tracker. */
  datatype RunState = RunState(params: Params, losses: seq<real>, metrics: seq<real>, tracker: Tracker)

  /** The state after `k` epochs of `n` batches, epoch by epoch as the loop
      computes it: train, average the loss, evaluate, then let the tracker,
      which starts at 0.0, observe the metric. */
  function RunAfter(loss: LossFn, step: StepFn, metric: Params -> real, p0: Params, n: nat, k: nat): (r: RunState)
    requires n > 0
    ensures |r.losses| == k && |r.metrics| == k
  {
    if k == 0 then RunState(p0, [], [], Tracker(0.0, []))
    else
      var r := RunAfter(loss, step, metric, p0, n, k - 1);
      var p := StepsOf(step, r.params, k - 1, n);
      RunState(p, r.losses + [LossSum(loss, step, r.params, k - 1, n) / n as real], r.metrics + [metric(p)],
               Observe(r.tracker, k - 1, metric(p)))
  }

  lemma {:induction false} RunAfterParams(loss: LossFn, step: StepFn, metric: Params -> real, p0: Params, n: nat, k: nat)
    requires n > 0
    ensures RunAfter(loss, step, metric, p0, n, k).params == ParamsAfter(step, p0, k, n)
  {
    if k > 0 {
      RunAfterParams(loss, step, metric, p0, n, k - 1);
    }
  }

  lemma EpochLossesSnoc(loss: LossFn, step: StepFn, p0: Params, n: nat, k: nat)
    requires n > 0 && k > 0
    ensures EpochLosses(loss, step, p0, n, k) ==
            EpochLosses(loss, step, p0, n, k - 1) + [EpochLoss(loss, step, p0, n, k - 1)]
  {
  }

  lemma EpochMetricsSnoc(metric: Params -> real, step: StepFn, p0: Params, n: nat, k: nat)
    requires k > 0
    ensures EpochMetrics(metric, step, p0, n, k) == EpochMetrics(metric, step, p0, n, k - 1) + [metric(ParamsAfter(step, p0, k, n))]
  {
  }

  /** One more epoch of a run appends that epoch's average loss, taken at the
      parameters the previous epochs left. */
  lemma RunAfterLossesSnoc(loss: LossFn, step: StepFn, metric: Params -> real, p0: Params, n: nat, k: nat)
    requires n > 0 && k > 0
    ensures RunAfter(loss, step, metric, p0, n, k).losses ==
            RunAfter(loss, step, metric, p0, n, k - 1).losses + [EpochLoss(loss, step, p0, n, k - 1)]
  {
    RunAfterParams(loss, step, metric, p0, n, k - 1);
  }

  lemma {:induction false} RunAfterLosses(loss: LossFn, step: StepFn, metric: Params -> real, p0: Params, n: nat, k: nat)
    requires n > 0
    ensures RunAfter(loss, step, metric, p0, n, k).losses == EpochLosses(loss, step, p0, n, k)
  {
    if k > 0 {
      RunAfterLosses(loss, step, metric, p0, n, k - 1);
      RunAfterLossesSnoc(loss, step, metric, p0, n, k);
      EpochLossesSnoc(loss, step, p0, n, k);
    }
  }

  lemma {:induction false} RunAfterMetrics(loss: LossFn, step: StepFn, metric: Params -> real, p0: Params, n: nat, k: nat)
    requires n > 0
    ensures RunAfter(loss, step, metric, p0, n, k).metrics == EpochMetrics(metric, step, p0, n, k)
  {
    if k > 0 {
      RunAfterMetrics(loss, step, metric, p0, n, k - 1);
      RunAfterParams(loss, step, metric, p0, n, k);
      EpochMetricsSnoc(metric, step, p0, n, k);
    }
  }

  /** The tracker a run carries is the tracker of the metrics it recorded. */
  lemma {:induction false} RunAfterTracker(loss: LossFn, step: StepFn, metric: Params -> real, p0: Params, n: nat, k: nat)
    requires n > 0
    ensures RunAfter(loss, step, metric, p0, n, k).tracker == Track(0.0, RunAfter(loss, step, metric, p0, n, k).metrics)
  {
    if k > 0 {
      var r := RunAfter(loss, step, metric, p0, n, k - 1);
      RunAfterTracker(loss, step, metric, p0, n, k - 1);
      ObserveNext(0.0, r.metrics, metric(StepsOf(step, r.params, k - 1, n)));
    }
  }

  /** The loop's state after `k` epochs agrees with the closed forms: the
      parameters of k epochs of steps, each epoch's average loss, each
      epoch's metric, and a tracker holding the maximum of 0.0 and those
      metrics with a checkpoint at every strict improvement. */
  lemma RunAfterMatches(loss: LossFn, step: StepFn, metric: Params -> real, p0: Params, n: nat, k: nat)
    requires n > 0
    ensures RunAfter(loss, step, metric, p0, n, k) ==
            RunState(ParamsAfter(step, p0, k, n), EpochLosses(loss, step, p0, n, k), EpochMetrics(metric, step, p0, n, k),
                     Track(0.0, EpochMetrics(metric, step, p0, n, k)))
  {
    RunAfterParams(loss, step, metric, p0, n, k);
    RunAfterLosses(loss, step, metric, p0, n, k);
    RunAfterMetrics(loss, step, metric, p0, n, k);
    RunAfterTracker(loss, step, metric, p0, n, k);
  }

  /** Batch losses are never negative, so neither is their sum. */
  lemma {:induction false} LossSumNonNeg(loss: LossFn, step: StepFn, p: Params, epoch: nat, b: nat)
    ensures LossSum(loss, step, p, epoch, b) >= 0.0
  {
    if b > 0 {
      LossSumNonNeg(loss, step, p, epoch, b - 1);
    }
  }

  /** Every recorded epoch loss is the average of non-negative batch losses, so it is never negative. */
  lemma EpochLossesNonNeg(loss: LossFn, step: StepFn, p0: Params, n: nat, k: nat)
    requires n > 0
    ensures forall e :: 0 <= e < k ==> EpochLosses(loss, step, p0, n, k)[e] >= 0.0
  {
    forall e | 0 <= e < k
      ensures EpochLosses(loss, step, p0, n, k)[e] >= 0.0
    {
      LossSumNonNeg(loss, step, ParamsAfter(step, p0, e, n), e, n);
    }
  }

  /** One pass over the training batches of one model: each batch's loss is
      taken before that batch's optimiser step and added to the running sum. */
  method TrainOneEpoch(model: Trainable, n: nat, epoch: nat, loss: LossFn, step: StepFn) returns (sum: real)
    modifies model`params
    ensures model.params == StepsOf(step, old(model.params), epoch, n)
    ensures sum == LossSum(loss, step, old(model.params), epoch, n)
  {
    sum := 0.0;
    var b := 0;
    while b < n
      invariant 0 <= b <= n
      invariant model.params == StepsOf(step, old(model.params), epoch, b)
      invariant sum == LossSum(loss, step, old(model.params), epoch, b)
    {
      sum := sum + loss(model.params, epoch, b);
      model.params := step(model.params, epoch, b);
      b := b + 1;
    }
  }
}
