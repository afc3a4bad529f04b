/** The canopy stress classifier, a CNN/ViT hybrid, and the loop that trains
    it (canopy_stress_model.py).

    The pretrained ResNet-50 backbone, the transformer and every numeric
    layer are opaque: a forward pass is a function from parameters and one
    image to its class logits. What is modelled is the shape arithmetic of
    the two branches and the classifier, and the bookkeeping of training:
    epoch losses, validation accuracy as correct over total, and the best
    accuracy with its checkpoint epochs. */
module Canopy {
  import opened Common
  import opened Shapes
  import opened Training
  import SeedModels

  // ---------------------------------------------------------------------
  // Architecture

  datatype HybridConfig = HybridConfig(numClasses: nat, imgSize: nat, patchSize: nat, embedDim: nat, numHeads: nat, numLayers: nat)

  const CanopyDefaults := HybridConfig(4, 256, 16, 768, 12, 6)

  /** `num_patches`, the number of positional embeddings: the patch grid of
      an `img_size` square image, or None when the patch size is 0 (the
      integer division raises). */
  function NumPatches(c: HybridConfig): (r: Option<nat>)
    ensures r.None? <==> c.patchSize == 0
    ensures r.Some? ==> r.value == (c.imgSize / c.patchSize) * (c.imgSize / c.patchSize)
  {
    if c.patchSize == 0 then None else Some((c.imgSize / c.patchSize) * (c.imgSize / c.patchSize))
  }

  /** With the default 256-pixel images and 16-pixel patches there are 16 x 16 = 256 patches. */
  lemma DefaultNumPatches()
    ensures NumPatches(CanopyDefaults) == Some(256)
  {
  }

  /** The transformer can be built and run: the attention inside
      `nn.TransformerEncoderLayer(d_model=embed_dim, nhead=num_heads)` needs a
      positive width split evenly over a positive number of heads, and
      `nn.TransformerEncoder` with no layers fails on its first forward pass.
      Any other configuration raises. */
  predicate TransformerRuns(c: HybridConfig)
  {
    c.embedDim > 0 && c.numHeads > 0 && c.embedDim % c.numHeads == 0 && c.numLayers > 0
  }

  /** The classification head; its input is the CNN and the ViT embedding side by side. */
  function Classifier(c: HybridConfig): seq<Layer>
  {
    [Linear(c.embedDim * 2, c.embedDim), ReLU, Dropout, Linear(c.embedDim, c.numClasses)]
  }

  /** One side of the patch grid: a convolution with kernel and stride `p` and no padding. */
  function PatchSide(side: nat, p: nat): nat
    requires p > 0 && side >= p
  {
    (side - p) / p + 1
  }

  /** A non-overlapping patch convolution yields `side / p` patches per side: the
      remainder pixels that do not fill a patch are dropped. */
  lemma PatchSideIsQuotient(side: nat, p: nat)
    requires p > 0 && side >= p
    ensures PatchSide(side, p) == side / p
  {
    var q, r := side / p, side % p;
    assert side == q * p + r;
    DivUnique(side - p, p, q - 1, r);
  }

  /** Torch broadcasting of the token dimension against the positional
      embedding's: equal, or one of them is 1 and is stretched. */
  predicate Broadcastable(tokens: nat, positions: nat)
  {
    tokens == positions || tokens == 1 || positions == 1
  }

  /** `CNNViTHybrid.forward` on shapes, for an image of `channels` x `h` x `w`:
      the CNN branch (ResNet-50 without its head, a 1 x 1 projection to
      `embed_dim`, average pooling) gives `embed_dim` features for any RGB
      image; the ViT branch embeds the patch grid, adds the positional
      embedding, encodes and averages over the tokens, giving `embed_dim`
      features; the classifier maps their concatenation to the class logits.
      A configuration whose transformer cannot be built or run has no model. */
  function CanopyForwardShape(c: HybridConfig, channels: nat, h: nat, w: nat): Option<Shape>
  {
    if !TransformerRuns(c) then None
    else match NumPatches(c)
    case None => None
    case Some(positions) =>
      if channels != 3 || h < c.patchSize || w < c.patchSize then None
      else
        var tokens := PatchSide(h, c.patchSize) * PatchSide(w, c.patchSize);
        if !Broadcastable(tokens, positions) then None
        else
          var cnn := Flat(c.embedDim);
          var vit := Flat(c.embedDim);
          Run(Classifier(c), Flat(cnn.width + vit.width))
  }

  /** The classifier's input width `embed_dim * 2` is exactly the width of the
      two concatenated embeddings: an RGB image whose patch grid broadcasts
      against the positional embedding yields one logit per class, and any
      other image, or a configuration with an empty embedding, heads that do
      not split it or no encoder layers, is refused. */
  lemma CanopyForwardShapeExact(c: HybridConfig, channels: nat, h: nat, w: nat)
    ensures CanopyForwardShape(c, channels, h, w) ==
            (if c.embedDim > 0 && c.numHeads > 0 && c.embedDim % c.numHeads == 0 && c.numLayers > 0 &&
                channels == 3 && c.patchSize > 0 && h >= c.patchSize && w >= c.patchSize &&
                Broadcastable((h / c.patchSize) * (w / c.patchSize), (c.imgSize / c.patchSize) * (c.imgSize / c.patchSize))
             then Some(Flat(c.numClasses)) else None)
  {
    if TransformerRuns(c) && channels == 3 && c.patchSize > 0 && h >= c.patchSize && w >= c.patchSize {
      PatchSideIsQuotient(h, c.patchSize);
      PatchSideIsQuotient(w, c.patchSize);
      assert c.embedDim + c.embedDim == c.embedDim * 2;
      MlpShape(c.embedDim * 2, c.embedDim, c.numClasses, Flat(c.embedDim * 2));
    }
  }

  /** The default model (768-wide embedding over 12 heads) classifies a
      256 x 256 RGB image into its 4 classes; with 5 heads, an empty
      embedding or no encoder layers there is no model. */
  lemma DefaultForwardShape()
    ensures CanopyForwardShape(CanopyDefaults, 3, 256, 256) == Some(Flat(4))
    ensures CanopyForwardShape(CanopyDefaults.(numHeads := 5), 3, 256, 256) == None
    ensures CanopyForwardShape(CanopyDefaults.(embedDim := 0), 3, 256, 256) == None
    ensures CanopyForwardShape(CanopyDefaults.(numLayers := 0), 3, 256, 256) == None
  {
    CanopyForwardShapeExact(CanopyDefaults, 3, 256, 256);
  }

  // ---------------------------------------------------------------------
  // Validation accuracy

  /** A validation example: the image (identified by its position in the
      set) and its class label. */
  datatype Example = Example(image: nat, target: int)

  /** Class logits; a classifier with at least one class yields at least one. */
  type Logits = v: seq<real> | |v| > 0 witness [0.0]

  /** The network: its parameters and an image give the image's logits. */
  type Net = (Params, nat) -> Logits

  /** `torch.max(output, 1)[1]` on a batch: each example's predicted class. */
  function Predictions(net: Net, p: Params, batch: seq<Example>): (r: seq<int>)
    ensures |r| == |batch|
    ensures forall i :: 0 <= i < |batch| ==> r[i] == Argmax(net(p, batch[i].image))
  {
    seq(|batch|, i requires 0 <= i < |batch| => Argmax(net(p, batch[i].image)))
  }

  /** `(predicted == target).sum()`: the number of positions where the two agree. */
  function CountEqual(predicted: seq<int>, targets: seq<int>): (r: nat)
    requires |predicted| == |targets|
    ensures r <= |predicted|
  {
    if predicted == [] then 0
    else CountEqual(predicted[..|predicted| - 1], targets[..|targets| - 1]) +
         (if predicted[|predicted| - 1] == targets[|targets| - 1] then 1 else 0)
  }

  /** A position counts exactly when prediction and target agree there: with
      everything right the count is the length, with everything wrong it is 0. */
  lemma {:induction false} CountEqualExtremes(predicted: seq<int>, targets: seq<int>)
    requires |predicted| == |targets|
    ensures (forall i :: 0 <= i < |predicted| ==> predicted[i] == targets[i]) ==> CountEqual(predicted, targets) == |predicted|
    ensures (forall i :: 0 <= i < |predicted| ==> predicted[i] != targets[i]) ==> CountEqual(predicted, targets) == 0
  {
    if predicted != [] {
      var n := |predicted| - 1;
      CountEqualExtremes(predicted[..n], targets[..n]);
    }
  }

  function Targets(batch: seq<Example>): (r: seq<int>)
    ensures |r| == |batch|
    ensures forall i :: 0 <= i < |batch| ==> r[i] == batch[i].target
  {
    seq(|batch|, i requires 0 <= i < |batch| => batch[i].target)
  }

  /** The correctly classified examples of the first `k` validation batches. */
  function Correct(net: Net, p: Params, val: seq<seq<Example>>, k: nat): nat
    requires k <= |val|
  {
    if k == 0 then 0
    else Correct(net, p, val, k - 1) + CountEqual(Predictions(net, p, val[k - 1]), Targets(val[k - 1]))
  }

  /** The examples of the first `k` validation batches. */
  function Total(val: seq<seq<Example>>, k: nat): nat
    requires k <= |val|
  {
    if k == 0 then 0 else Total(val, k - 1) + |val[k - 1]|
  }

  /** No batch has more correct examples than examples, so neither has the set. */
  lemma {:induction false} CorrectAtMostTotal(net: Net, p: Params, val: seq<seq<Example>>, k: nat)
    requires k <= |val|
    ensures Correct(net, p, val, k) <= Total(val, k)
  {
    if k > 0 {
      CorrectAtMostTotal(net, p, val, k - 1);
    }
  }

  /** `val_correct / val_total` over the whole validation set; it lies in [0, 1]. */
  function Accuracy(net: Net, p: Params, val: seq<seq<Example>>): (acc: real)
    requires Total(val, |val|) > 0
    ensures 0.0 <= acc <= 1.0
  {
    CorrectAtMostTotal(net, p, val, |val|);
    var c, t := Correct(net, p, val, |val|) as real, Total(val, |val|) as real;
    RatioInUnit(c, t);
    c / t
  }

  /** The accuracy is 1 exactly when every validation example is classified correctly. */
  lemma PerfectAccuracy(net: Net, p: Params, val: seq<seq<Example>>)
    requires Total(val, |val|) > 0
    ensures Accuracy(net, p, val) == 1.0 <==> Correct(net, p, val, |val|) == Total(val, |val|)
  {
    CorrectAtMostTotal(net, p, val, |val|);
    RatioInUnit(Correct(net, p, val, |val|) as real, Total(val, |val|) as real);
  }

  /** The validation pass: for each batch, predict every example, add the
      batch size to the total and the matching predictions to the count. The
      network is only read. */
  method Validate(model: Trainable, net: Net, val: seq<seq<Example>>) returns (correct: nat, total: nat)
    ensures correct == Correct(net, model.params, val, |val|)
    ensures total == Total(val, |val|)
    ensures correct <= total
  {
    correct, total := 0, 0;
    var b := 0;
    while b < |val|
      invariant 0 <= b <= |val|
      invariant correct == Correct(net, model.params, val, b)
      invariant total == Total(val, b)
    {
      var predicted := Predictions(net, model.params, val[b]);
      total := total + |val[b]|;
      correct := correct + CountEqual(predicted, Targets(val[b]));
      b := b + 1;
    }
    CorrectAtMostTotal(net, model.params, val, |val|);
  }

  /** The validation accuracy as a metric of the parameters. */
  function AccuracyOn(net: Net, val: seq<seq<Example>>): Params -> real
    requires Total(val, |val|) > 0
  {
    p => Accuracy(net, p, val)
  }

  /** Every epoch's accuracy lies in [0, 1]. */
  lemma EpochAccuraciesInUnitRange(net: Net, step: StepFn, p0: Params, n: nat, val: seq<seq<Example>>, k: nat)
    requires Total(val, |val|) > 0
    ensures forall e :: 0 <= e < k ==> 0.0 <= EpochMetrics(AccuracyOn(net, val), step, p0, n, k)[e] <= 1.0
  {
    var metric := AccuracyOn(net, val);
    forall p
      ensures 0.0 <= metric(p) <= 1.0
    {
      var acc := Accuracy(net, p, val);
      assert metric(p) == acc;
    }
    EpochMetricsBounded(metric, step, p0, n, k, 0.0, 1.0);
  }

  /** The best accuracy a run reports, which starts at 0.0 and only ever
      takes epoch accuracies, lies in [0, 1]. */
  lemma BestAccuracyInUnitRange(net: Net, step: StepFn, p0: Params, n: nat, val: seq<seq<Example>>, k: nat)
    requires Total(val, |val|) > 0
    ensures 0.0 <= BestAfter(0.0, EpochMetrics(AccuracyOn(net, val), step, p0, n, k)) <= 1.0
  {
    EpochAccuraciesInUnitRange(net, step, p0, n, val, k);
    SeedModels.BestR2InUnitRange(EpochMetrics(AccuracyOn(net, val), step, p0, n, k));
  }

  // ---------------------------------------------------------------------
  // Training

  /** How `train_canopy_model` ended: both failures are divisions by zero,
      of the loss sum by an empty training loader and of the correct count
      by an empty validation set. */
  datatype CanopyStatus = Trained | EmptyTrainLoader | EmptyValidation

  /** One epoch: train, average the loss, validate and compute the accuracy. */
  method CanopyEpoch(model: Trainable, nTrain: nat, val: seq<seq<Example>>, epoch: nat,
                     loss: LossFn, step: StepFn, net: Net)
    returns (status: CanopyStatus, trainLoss: real, valAcc: real)
    modifies model
    ensures status == (if nTrain == 0 then EmptyTrainLoader else if Total(val, |val|) == 0 then EmptyValidation else Trained)
    ensures model.params == StepsOf(step, old(model.params), epoch, nTrain)
    ensures model.training == (status == EmptyTrainLoader)
    ensures nTrain > 0 ==> trainLoss == LossSum(loss, step, old(model.params), epoch, nTrain) / nTrain as real
    ensures status == Trained ==> valAcc == AccuracyOn(net, val)(model.params)
  {
    model.training := true;
    trainLoss := TrainOneEpoch(model, nTrain, epoch, loss, step);
    valAcc := 0.0;
    if nTrain == 0 {
      return EmptyTrainLoader, trainLoss, valAcc;
    }
    trainLoss := trainLoss / nTrain as real;
    model.training := false;
    var correct, total := Validate(model, net, val);
    if total == 0 {
      return EmptyValidation, trainLoss, valAcc;
    }
    status := Trained;
    valAcc := correct as real / total as real;
  }

  /** `train_canopy_model`: `epochs` epochs of training and validation. The
      epoch losses and accuracies are recorded in epoch order; the best
      accuracy starts at 0.0 and a checkpoint is written at each epoch whose
      accuracy strictly beats it. The run ends in the state `RunAfter` gives
      with accuracy as the metric; `RunAfterMatches` states it in closed form. */
  method TrainCanopyModel(model: Trainable, nTrain: nat, val: seq<seq<Example>>, epochs: nat,
                          loss: LossFn, step: StepFn, net: Net)
    returns (status: CanopyStatus, trainLosses: seq<real>, valAccs: seq<real>, bestValAcc: real, saves: seq<nat>)
    modifies model
    ensures status == (if epochs > 0 && nTrain == 0 then EmptyTrainLoader
                       else if epochs > 0 && Total(val, |val|) == 0 then EmptyValidation
                       else Trained)
    ensures status != Trained ==> model.params == StepsOf(step, old(model.params), 0, nTrain)
    ensures status == Trained && nTrain > 0 && Total(val, |val|) > 0 ==>
              RunState(model.params, trainLosses, valAccs, Tracker(bestValAcc, saves)) ==
              RunAfter(loss, step, AccuracyOn(net, val), old(model.params), nTrain, epochs)
    ensures status == Trained && (nTrain == 0 || Total(val, |val|) == 0) ==>
              model.params == old(model.params) && trainLosses == valAccs == [] && bestValAcc == 0.0 && saves == []
    ensures epochs == 0 ==> model.training == old(model.training)
    ensures epochs > 0 ==> model.training == (status == EmptyTrainLoader)
  {
    ghost var p0 := model.params;
    ghost var valid := nTrain > 0 && Total(val, |val|) > 0;
    status := Trained;
    var tracker := Tracker(0.0, []);
    trainLosses, valAccs := [], [];
    var epoch := 0;
    while epoch < epochs
      invariant 0 <= epoch <= epochs && status == Trained
      invariant epoch > 0 ==> valid && !model.training
      invariant epoch == 0 ==> model.training == old(model.training) && model.params == p0 &&
                               trainLosses == valAccs == [] && tracker == Tracker(0.0, [])
      invariant valid ==> RunState(model.params, trainLosses, valAccs, tracker) == RunAfter(loss, step, AccuracyOn(net, val), p0, nTrain, epoch)
    {
      var trainLoss, valAcc;
      status, trainLoss, valAcc := CanopyEpoch(model, nTrain, val, epoch, loss, step, net);
      if status != Trained {
        bestValAcc, saves := tracker.best, tracker.saves;
        return;
      }
      trainLosses, valAccs := trainLosses + [trainLoss], valAccs + [valAcc];
      tracker := Observe(tracker, epoch, valAcc);
      epoch := epoch + 1;
    }
    bestValAcc, saves := tracker.best, tracker.saves;
  }
}
