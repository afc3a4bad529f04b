/** The Seed Health Index regressor, the Aflatoxin Risk Score regressor and
    the loop that trains both (seed_health_model.py).

    The networks' numerics are opaque: a forward pass is a function from one
    sample to the fusion head's raw output, sigmoid is a function into (0, 1),
    and an optimiser step is a function from parameters to parameters. What is
    modelled is the shape arithmetic of the layer stacks, the squashing of the
    output into (0, 100), and the bookkeeping of the training loop. */
module SeedModels {
  import opened Common
  import opened Shapes
  import opened Training

  // ---------------------------------------------------------------------
  // Architecture

  datatype SeedHealthConfig = SeedHealthConfig(hyperspectralDim: nat, uavFeatDim: nat, envFeatDim: nat, hiddenDim: nat)
  datatype AflatoxinConfig = AflatoxinConfig(hyperspectralDim: nat, fieldFeatDim: nat, storageFeatDim: nat, hiddenDim: nat)

  const SeedHealthDefaults := SeedHealthConfig(2151, 128, 10, 256)
  const AflatoxinDefaults := AflatoxinConfig(2151, 50, 4, 256)

  /** The 1-D CNN that encodes a spectrum for the SHI model. */
  const ShiSpectralEncoder: seq<Layer> :=
    [Conv1d(1, 64, 7, 2, 3), ReLU, Conv1d(64, 128, 5, 2, 2), ReLU, Conv1d(128, 256, 3, 2, 1), ReLU,
     AdaptiveAvgPool1d, Flatten]

  function UavEncoder(c: SeedHealthConfig): seq<Layer> { [Linear(c.uavFeatDim, 128), ReLU, Dropout, Linear(128, 64)] }
  function EnvEncoder(c: SeedHealthConfig): seq<Layer> { [Linear(c.envFeatDim, 64), ReLU, Dropout, Linear(64, 32)] }

  /** A fusion head; its first layer's input width is written out as a sum of widths in the source. */
  function FusionHead(inWidth: nat, hidden: nat): seq<Layer>
  {
    [Linear(inWidth, hidden), ReLU, Dropout, Linear(hidden, hidden / 2), ReLU, Dropout, Linear(hidden / 2, 1)]
  }

  function ShiFusion(c: SeedHealthConfig): seq<Layer> { FusionHead(256 + 64 + 32, c.hiddenDim) }

  /** The spectral branch of the ARS model: two convolutions, pooling, and a projection to 64. */
  const ArsSpectralBranch: seq<Layer> :=
    [Conv1d(1, 64, 7, 2, 3), ReLU, Conv1d(64, 128, 5, 2, 2), ReLU, AdaptiveAvgPool1d, Flatten, Linear(128, 64)]

  function FieldBranch(c: AflatoxinConfig): seq<Layer> { [Linear(c.fieldFeatDim, 128), ReLU, Dropout, Linear(128, 64)] }
  function StorageBranch(c: AflatoxinConfig): seq<Layer> { [Linear(c.storageFeatDim, 32), ReLU, Dropout, Linear(32, 32)] }
  function ArsFusion(c: AflatoxinConfig): seq<Layer> { FusionHead(64 + 64 + 32, c.hiddenDim) }

  /** The shape of the concatenation of three flat encoder outputs, or None if one encoder refuses its input. */
  function Concat3(a: Option<Shape>, b: Option<Shape>, d: Option<Shape>): Option<Shape>
  {
    if a.Some? && a.value.Flat? && b.Some? && b.value.Flat? && d.Some? && d.value.Flat?
    then Some(Flat(a.value.width + b.value.width + d.value.width))
    else None
  }

  /** `nn.MultiheadAttention(embed_dim=hidden_dim, num_heads=8)` splits the
      hidden width evenly over its 8 heads; any other width raises when the
      model is built. */
  predicate AttentionBuildable(c: SeedHealthConfig)
  {
    c.hiddenDim > 0 && c.hiddenDim % 8 == 0
  }

  /** `SeedHealthModel.forward` on shapes: spectrum of length `len` (unsqueezed to one channel), UAV and environment features.
      A configuration whose attention module cannot be built has no model. */
  function ShiForwardShape(c: SeedHealthConfig, len: nat, uav: Shape, env: Shape): Option<Shape>
  {
    if !AttentionBuildable(c) then None
    else
    var combined := Concat3(Run(ShiSpectralEncoder, Seq1d(1, len)), Run(UavEncoder(c), uav), Run(EnvEncoder(c), env));
    if combined.Some? then Run(ShiFusion(c), combined.value) else None
  }

  /** `AflatoxinRiskModel.forward` on shapes. */
  function ArsForwardShape(c: AflatoxinConfig, len: nat, field: Shape, storage: Shape): Option<Shape>
  {
    var combined := Concat3(Run(ArsSpectralBranch, Seq1d(1, len)), Run(FieldBranch(c), field), Run(StorageBranch(c), storage));
    if combined.Some? then Run(ArsFusion(c), combined.value) else None
  }

  /** Three stride-2 convolutions of the SHI encoder keep a non-empty spectrum
      non-empty, so the encoder yields 256 features for every spectrum length
      but 0, which no convolution accepts. */
  lemma {:induction false} ShiSpectralEncoderShape(len: nat)
    ensures Run(ShiSpectralEncoder, Seq1d(1, len)) == (if len >= 1 then Some(Flat(256)) else None)
  {
    var e := ShiSpectralEncoder;
    if len >= 1 {
      var l1 := ConvLength(len, 7, 2, 3);
      var l2 := ConvLength(l1, 5, 2, 2);
      var l3 := ConvLength(l2, 3, 2, 1);
      assert l1 >= 1 && l2 >= 1 && l3 >= 1;
      assert e[1..] == [ReLU, Conv1d(64, 128, 5, 2, 2), ReLU, Conv1d(128, 256, 3, 2, 1), ReLU, AdaptiveAvgPool1d, Flatten];
      assert e[2..] == e[1..][1..];
      assert e[3..] == e[2..][1..];
      assert e[4..] == e[3..][1..];
      assert e[5..] == e[4..][1..];
      assert e[6..] == e[5..][1..];
      assert e[7..] == e[6..][1..];
      assert Run(e[7..], Seq1d(256, 1)) == Some(Flat(256));
      assert Run(e[6..], Seq1d(256, l3)) == Some(Flat(256));
      assert Run(e[5..], Seq1d(256, l3)) == Some(Flat(256));
      assert Run(e[4..], Seq1d(128, l2)) == Some(Flat(256));
      assert Run(e[3..], Seq1d(128, l2)) == Some(Flat(256));
      assert Run(e[2..], Seq1d(64, l1)) == Some(Flat(256));
      assert Run(e[1..], Seq1d(64, l1)) == Some(Flat(256));
    } else {
      assert Apply(e[0], Seq1d(1, len)) == None;
    }
  }

  /** The same for the two convolutions and the projection of the ARS spectral branch. */
  lemma {:induction false} ArsSpectralBranchShape(len: nat)
    ensures Run(ArsSpectralBranch, Seq1d(1, len)) == (if len >= 1 then Some(Flat(64)) else None)
  {
    var e := ArsSpectralBranch;
    if len >= 1 {
      var l1 := ConvLength(len, 7, 2, 3);
      var l2 := ConvLength(l1, 5, 2, 2);
      assert l1 >= 1 && l2 >= 1;
      assert e[1..] == [ReLU, Conv1d(64, 128, 5, 2, 2), ReLU, AdaptiveAvgPool1d, Flatten, Linear(128, 64)];
      assert e[2..] == e[1..][1..];
      assert e[3..] == e[2..][1..];
      assert e[4..] == e[3..][1..];
      assert e[5..] == e[4..][1..];
      assert e[6..] == e[5..][1..];
      assert Run(e[6..], Flat(128)) == Some(Flat(64));
      assert Run(e[5..], Seq1d(128, 1)) == Some(Flat(64));
      assert Run(e[4..], Seq1d(128, l2)) == Some(Flat(64));
      assert Run(e[3..], Seq1d(128, l2)) == Some(Flat(64));
      assert Run(e[2..], Seq1d(64, l1)) == Some(Flat(64));
      assert Run(e[1..], Seq1d(64, l1)) == Some(Flat(64));
    } else {
      assert Apply(e[0], Seq1d(1, len)) == None;
    }
  }

  /** A fusion head accepts exactly flat inputs of its declared width and yields one score. */
  lemma FusionHeadShape(w: nat, hidden: nat, s: Shape)
    ensures Run(FusionHead(w, hidden), s) == (if s == Flat(w) then Some(Flat(1)) else None)
  {
    var first := [Linear(w, hidden), ReLU, Dropout, Linear(hidden, hidden / 2)];
    var rest := [ReLU, Dropout, Linear(hidden / 2, 1)];
    assert FusionHead(w, hidden) == first + rest;
    RunAppend(first, rest, s);
    MlpShape(w, hidden, hidden / 2, s);
    assert rest[1..] == [Dropout, Linear(hidden / 2, 1)];
    assert rest[1..][1..] == [Linear(hidden / 2, 1)];
    assert Run([Linear(hidden / 2, 1)], Flat(hidden / 2)) == Some(Flat(1));
    assert Run([Dropout, Linear(hidden / 2, 1)], Flat(hidden / 2)) == Some(Flat(1));
    assert Run(rest, Flat(hidden / 2)) == Some(Flat(1));
  }

  /** The SHI fusion layer's input width 256 + 64 + 32 is the width of the
      concatenated encoder outputs: a forward pass yields one score per sample
      exactly when the spectrum is non-empty and the UAV and environment
      features have the configured widths, and the hidden width is a positive
      multiple of the 8 attention heads. The spectrum length is otherwise
      free; the `hyperspectralDim` setting plays no part. */
  lemma ShiForwardShapeExact(c: SeedHealthConfig, len: nat, uav: Shape, env: Shape)
    ensures ShiForwardShape(c, len, uav, env) ==
            (if c.hiddenDim > 0 && c.hiddenDim % 8 == 0 && len >= 1 && uav == Flat(c.uavFeatDim) && env == Flat(c.envFeatDim) then Some(Flat(1)) else None)
  {
    ShiSpectralEncoderShape(len);
    MlpShape(c.uavFeatDim, 128, 64, uav);
    MlpShape(c.envFeatDim, 64, 32, env);
    FusionHeadShape(256 + 64 + 32, c.hiddenDim, Flat(256 + 64 + 32));
  }

  /** The default model (hidden width 256 over 8 heads) scores a
      2151-point spectrum with 128 UAV and 10 environment features; with a
      hidden width of 100 it cannot be built. */
  lemma DefaultShiForwardShape()
    ensures ShiForwardShape(SeedHealthDefaults, 2151, Flat(128), Flat(10)) == Some(Flat(1))
    ensures ShiForwardShape(SeedHealthDefaults.(hiddenDim := 100), 2151, Flat(128), Flat(10)) == None
  {
    ShiForwardShapeExact(SeedHealthDefaults, 2151, Flat(128), Flat(10));
  }

  /** The ARS fusion width 64 + 64 + 32 likewise matches its three branches. */
  lemma ArsForwardShapeExact(c: AflatoxinConfig, len: nat, field: Shape, storage: Shape)
    ensures ArsForwardShape(c, len, field, storage) ==
            (if len >= 1 && field == Flat(c.fieldFeatDim) && storage == Flat(c.storageFeatDim) then Some(Flat(1)) else None)
  {
    ArsSpectralBranchShape(len);
    MlpShape(c.fieldFeatDim, 128, 64, field);
    MlpShape(c.storageFeatDim, 32, 32, storage);
    FusionHeadShape(64 + 64 + 32, c.hiddenDim, Flat(64 + 64 + 32));
  }

  // ---------------------------------------------------------------------
  // Forward passes: the fusion output squashed by sigmoid and scaled by 100.

  datatype ShiSample = ShiSample(spectrum: seq<real>, uav: seq<real>, env: seq<real>)
  datatype ArsSample = ArsSample(spectrum: seq<real>, field: seq<real>, storage: seq<real>)

  /** The output stage shared by `SeedHealthModel.forward` (on `ShiSample`s)
      and `AflatoxinRiskModel.forward` (on `ArsSample`s), applied to a batch:
      `fusion` is the network up to its last linear layer, whose single output
      is squashed by the sigmoid, scaled by 100 and squeezed. Every predicted
      score lies strictly inside (0, 100), whatever the input. */
  function ScoreForward<S>(fusion: S -> real, sigmoid: real -> OpenUnit, batch: seq<S>): (scores: seq<real>)
    ensures |scores| == |batch|
    ensures forall i :: 0 <= i < |batch| ==> 0.0 < scores[i] < 100.0 && scores[i] == sigmoid(fusion(batch[i])) * 100.0
  {
    seq(|batch|, i requires 0 <= i < |batch| => sigmoid(fusion(batch[i])) * 100.0)
  }

  // ---------------------------------------------------------------------
  // Training

  /** The best R² reported starts at 0.0 and only takes R² values, which are at most 1. */
  lemma BestR2InUnitRange(xs: seq<real>)
    requires forall i :: 0 <= i < |xs| ==> xs[i] <= 1.0
    ensures 0.0 <= BestAfter(0.0, xs) <= 1.0
  {
    BestAfterIsMax(0.0, xs);
  }

  /** One pass over the training batches: for each batch, an SHI step on the
      SHI model and then an ARS step on the ARS model, each loss taken before
      its own step and summed. */
  method TrainEpoch(shiModel: Trainable, arsModel: Trainable, nTrain: nat, epoch: nat,
                    shiLoss: LossFn, shiStep: StepFn, arsLoss: LossFn, arsStep: StepFn)
    returns (shiSum: real, arsSum: real)
    requires shiModel != arsModel
    modifies shiModel`params, arsModel`params
    ensures shiModel.params == StepsOf(shiStep, old(shiModel.params), epoch, nTrain)
    ensures arsModel.params == StepsOf(arsStep, old(arsModel.params), epoch, nTrain)
    ensures shiSum == LossSum(shiLoss, shiStep, old(shiModel.params), epoch, nTrain)
    ensures arsSum == LossSum(arsLoss, arsStep, old(arsModel.params), epoch, nTrain)
  {
    shiSum, arsSum := 0.0, 0.0;
    var b := 0;
    while b < nTrain
      invariant 0 <= b <= nTrain
      invariant shiModel.params == StepsOf(shiStep, old(shiModel.params), epoch, b)
      invariant arsModel.params == StepsOf(arsStep, old(arsModel.params), epoch, b)
      invariant shiSum == LossSum(shiLoss, shiStep, old(shiModel.params), epoch, b)
      invariant arsSum == LossSum(arsLoss, arsStep, old(arsModel.params), epoch, b)
    {
      var l := shiLoss(shiModel.params, epoch, b);
      shiModel.params := shiStep(shiModel.params, epoch, b);
      shiSum := shiSum + l;
      l := arsLoss(arsModel.params, epoch, b);
      arsModel.params := arsStep(arsModel.params, epoch, b);
      arsSum := arsSum + l;
      b := b + 1;
    }
  }

  /** How a training run ended: the source raises on an empty training loader
      (the loss sum is divided by zero batches) and on an empty validation
      loader (an empty list of prediction tensors is concatenated). */
  datatype Status = Completed | DivisionByZero | EmptyValidation

  /** One epoch of `train_seed_models`: both models train on every batch,
      the average losses are taken (dividing by the number of batches), both
      models are validated, and each tracker observes its model's R². */
  method SeedEpoch(
    shiModel: Trainable, arsModel: Trainable, nTrain: nat, nVal: nat, epoch: nat,
    shiLoss: LossFn, shiStep: StepFn, shiR2: Params -> real,
    arsLoss: LossFn, arsStep: StepFn, arsR2: Params -> real,
    shiTracker: Tracker, arsTracker: Tracker)
    returns (status: Status, shiAvg: real, arsAvg: real, shiNext: Tracker, arsNext: Tracker)
    requires shiModel != arsModel
    modifies shiModel, arsModel
    ensures status == (if nTrain == 0 then DivisionByZero else if nVal == 0 then EmptyValidation else Completed)
    ensures shiModel.params == StepsOf(shiStep, old(shiModel.params), epoch, nTrain)
    ensures arsModel.params == StepsOf(arsStep, old(arsModel.params), epoch, nTrain)
    ensures shiModel.training == (status == DivisionByZero) && arsModel.training == (status == DivisionByZero)
    ensures nTrain > 0 ==>
              shiAvg == LossSum(shiLoss, shiStep, old(shiModel.params), epoch, nTrain) / nTrain as real &&
              arsAvg == LossSum(arsLoss, arsStep, old(arsModel.params), epoch, nTrain) / nTrain as real
    ensures status == Completed ==>
              shiNext == Observe(shiTracker, epoch, shiR2(shiModel.params)) &&
              arsNext == Observe(arsTracker, epoch, arsR2(arsModel.params))
  {
    shiNext, arsNext := shiTracker, arsTracker;
    shiModel.training, arsModel.training := true, true;
    shiAvg, arsAvg := TrainEpoch(shiModel, arsModel, nTrain, epoch, shiLoss, shiStep, arsLoss, arsStep);
    if nTrain == 0 {
      return DivisionByZero, shiAvg, arsAvg, shiNext, arsNext;
    }
    shiAvg, arsAvg := shiAvg / nTrain as real, arsAvg / nTrain as real;
    shiModel.training, arsModel.training := false, false;
    if nVal == 0 {
      return EmptyValidation, shiAvg, arsAvg, shiNext, arsNext;
    }
    status := Completed;
    shiNext := Observe(shiTracker, epoch, shiR2(shiModel.params));
    arsNext := Observe(arsTracker, epoch, arsR2(arsModel.params));
  }

  /** `train_seed_models`. The SHI and ARS models are trained side by side
      on the same batches, each by its own loss and optimiser; after each
      epoch each model's validation R² is compared with that model's own best
      (starting at 0.0) and a checkpoint is written on strict improvement.
      The outputs are the two bests, the epochs at which each checkpoint was
      written, and the epoch losses each scheduler was stepped with. Each
      model ends in the state `RunAfter` gives for its own loss, step and
      metric alone, so the two never interfere; `RunAfterMatches` states
      that state in closed form. */
  method TrainSeedModels(
    shiModel: Trainable, arsModel: Trainable, nTrain: nat, nVal: nat, epochs: nat,
    shiLoss: LossFn, shiStep: StepFn, shiR2: Params -> real,
    arsLoss: LossFn, arsStep: StepFn, arsR2: Params -> real)
    returns (status: Status, bestShi: real, bestArs: real,
             shiSaves: seq<nat>, arsSaves: seq<nat>, shiLosses: seq<real>, arsLosses: seq<real>)
    requires shiModel != arsModel
    modifies shiModel, arsModel
    ensures status == (if epochs > 0 && nTrain == 0 then DivisionByZero
                       else if epochs > 0 && nVal == 0 then EmptyValidation
                       else Completed)
    ensures status != Completed ==>
              shiModel.params == StepsOf(shiStep, old(shiModel.params), 0, nTrain) &&
              arsModel.params == StepsOf(arsStep, old(arsModel.params), 0, nTrain)
    ensures status == Completed && nTrain > 0 ==>
              var shi, ars := RunAfter(shiLoss, shiStep, shiR2, old(shiModel.params), nTrain, epochs),
                              RunAfter(arsLoss, arsStep, arsR2, old(arsModel.params), nTrain, epochs);
              shiModel.params == shi.params && shiLosses == shi.losses && Tracker(bestShi, shiSaves) == shi.tracker &&
              arsModel.params == ars.params && arsLosses == ars.losses && Tracker(bestArs, arsSaves) == ars.tracker
    ensures status == Completed && nTrain == 0 ==>
              shiModel.params == old(shiModel.params) && arsModel.params == old(arsModel.params) &&
              shiLosses == arsLosses == [] && bestShi == bestArs == 0.0 && shiSaves == arsSaves == []
    ensures epochs == 0 ==> shiModel.training == old(shiModel.training) && arsModel.training == old(arsModel.training)
    ensures epochs > 0 ==> shiModel.training == (status == DivisionByZero) && arsModel.training == (status == DivisionByZero)
  {
    ghost var shi0, ars0 := shiModel.params, arsModel.params;
    status := Completed;
    var shiTracker, arsTracker := Tracker(0.0, []), Tracker(0.0, []);
    shiLosses, arsLosses := [], [];
    ghost var shiHistory: seq<real>, arsHistory: seq<real> := [], [];
    var epoch := 0;
    while epoch < epochs
      invariant 0 <= epoch <= epochs && status == Completed
      invariant epoch > 0 ==> nTrain > 0 && nVal > 0 && !shiModel.training && !arsModel.training
      invariant epoch == 0 ==> shiModel.training == old(shiModel.training) && arsModel.training == old(arsModel.training)
      invariant epoch == 0 ==> shiModel.params == shi0 && arsModel.params == ars0 &&
                               shiTracker == arsTracker == Tracker(0.0, []) && shiLosses == arsLosses == []
      invariant nTrain > 0 ==>
                  RunState(shiModel.params, shiLosses, shiHistory, shiTracker) == RunAfter(shiLoss, shiStep, shiR2, shi0, nTrain, epoch) &&
                  RunState(arsModel.params, arsLosses, arsHistory, arsTracker) == RunAfter(arsLoss, arsStep, arsR2, ars0, nTrain, epoch)
    {
      var shiAvg, arsAvg;
      status, shiAvg, arsAvg, shiTracker, arsTracker :=
        SeedEpoch(shiModel, arsModel, nTrain, nVal, epoch, shiLoss, shiStep, shiR2, arsLoss, arsStep, arsR2, shiTracker, arsTracker);
      if status != Completed {
        bestShi, shiSaves, bestArs, arsSaves := shiTracker.best, shiTracker.saves, arsTracker.best, arsTracker.saves;
        return;
      }
      shiHistory, arsHistory := shiHistory + [shiR2(shiModel.params)], arsHistory + [arsR2(arsModel.params)];
      shiLosses, arsLosses := shiLosses + [shiAvg], arsLosses + [arsAvg];
      epoch := epoch + 1;
    }
    bestShi, shiSaves, bestArs, arsSaves := shiTracker.best, shiTracker.saves, arsTracker.best, arsTracker.saves;
  }
}
