/** The experiment driver (src/experiments/generate_results.py): the
    dictionary-of-columns dataset, the SHI and ARS training labels derived
    from the generated seed labels, and the test-set loops that collect
    predictions and targets batch by batch. */
module Experiments {
  import opened Common

  // ---------------------------------------------------------------------
  // SimpleDataset: named columns of equal length, read one row at a time

  /** A dictionary of columns; `keys` is its insertion order. */
  datatype SimpleDataset<T> = SimpleDataset(keys: seq<string>, data: map<string, seq<T>>)

  /** A dictionary whose key order lists exactly its keys, once each. */
  predicate KeysListed<T>(ds: SimpleDataset<T>)
  {
    (forall k :: k in ds.keys ==> k in ds.data) &&
    (forall k :: k in ds.data ==> k in ds.keys) &&
    (forall i, j :: 0 <= i < j < |ds.keys| ==> ds.keys[i] != ds.keys[j])
  }

  /** `__len__`: the length of the first column, or None for a dictionary
      without columns (the `[0]` lookup raises). */
  function Len<T>(ds: SimpleDataset<T>): (n: Option<nat>)
    requires KeysListed(ds)
    ensures n.None? <==> ds.data == map[]
    ensures n.Some? ==> n.value == |ds.data[ds.keys[0]]|
  {
    if ds.keys == [] then None else Some(|ds.data[ds.keys[0]]|)
  }

  /** `__getitem__(idx)`: the row with the same keys, each mapped to that
      column's idx-th element, or None when some column is too short. */
  function GetItem<T>(ds: SimpleDataset<T>, idx: nat): (row: Option<map<string, T>>)
    ensures row.Some? <==> forall k :: k in ds.data ==> idx < |ds.data[k]|
    ensures row.Some? ==> row.value.Keys == ds.data.Keys
    ensures row.Some? ==> forall k :: k in ds.data ==> row.value[k] == ds.data[k][idx]
  {
    if forall k :: k in ds.data ==> idx < |ds.data[k]|
    then Some(map k | k in ds.data :: ds.data[k][idx])
    else None
  }

  /** Columns of one common length n, as the experiments build them: the
      length is n and every index below it reads a full row. */
  lemma EqualColumnsReadable<T>(ds: SimpleDataset<T>, n: nat, idx: nat)
    requires KeysListed(ds) && ds.data != map[]
    requires forall k :: k in ds.data ==> |ds.data[k]| == n
    ensures Len(ds) == Some(n)
    ensures GetItem(ds, idx).Some? <==> idx < n
  {
    assert ds.keys[0] in ds.keys;
  }

  // ---------------------------------------------------------------------
  // Training labels of the seed-health experiment

  /** The SHI label of one seed: 0.7 of the germination rate plus 30 points
      for a seed without fungus, clipped into [0, 100]. */
  function ShiLabel(germination: real, fungal: int): (shi: real)
    ensures 0.0 <= shi <= 100.0
  {
    Clip(germination * 0.7 + (1 - fungal) as real * 30.0, 0.0, 100.0)
  }

  /** For a germination rate in [0, 100] and a fungal flag of 0 or 1 the raw
      label is already in [0, 100], so the clip changes nothing. */
  lemma ShiLabelClipInactive(germination: real, fungal: int)
    requires 0.0 <= germination <= 100.0 && (fungal == 0 || fungal == 1)
    ensures ShiLabel(germination, fungal) == germination * 0.7 + (1 - fungal) as real * 30.0
  {
  }

  /** The generator's labels (germination in [75, 95) for a clean seed and
      [40, 70) for an infected one) keep the two classes apart: every clean
      seed's SHI label exceeds every infected seed's. */
  lemma ShiLabelSeparates(gClean: real, gInfected: real)
    requires 75.0 <= gClean < 95.0 && 40.0 <= gInfected < 70.0
    ensures ShiLabel(gInfected, 1) < ShiLabel(gClean, 0)
  {
    ShiLabelClipInactive(gClean, 0);
    ShiLabelClipInactive(gInfected, 1);
  }

  /** The ARS label of one seed from `log(aflatoxin + 1)`, which is never
      negative for a non-negative aflatoxin level and is given as an input:
      15 times it, clipped into [0, 100]. */
  function ArsLabel(logAflatoxin: NonNeg): (ars: real)
    ensures 0.0 <= ars <= 100.0
    ensures ars == 100.0 <==> logAflatoxin * 15.0 >= 100.0
    ensures ars < 100.0 ==> ars == logAflatoxin * 15.0
  {
    Clip(logAflatoxin * 15.0, 0.0, 100.0)
  }

  /** The label columns over the generated seeds, read as numpy arrays. */
  function ShiLabels(germination: seq<real>, fungal: seq<int>): (shi: seq<real>)
    requires |germination| == |fungal|
    ensures |shi| == |germination|
    ensures forall i :: 0 <= i < |shi| ==> 0.0 <= shi[i] <= 100.0
  {
    seq(|germination|, i requires 0 <= i < |germination| => ShiLabel(germination[i], fungal[i]))
  }

  function ArsLabels(logAflatoxin: seq<NonNeg>): (ars: seq<real>)
    ensures |ars| == |logAflatoxin|
    ensures forall i :: 0 <= i < |ars| ==> 0.0 <= ars[i] <= 100.0
  {
    seq(|logAflatoxin|, i requires 0 <= i < |logAflatoxin| => ArsLabel(logAflatoxin[i]))
  }

  /** The label lines as written: the generator returns its labels as
      Python lists, and a list times a float, `1 - list` and `list + 1`
      raise a TypeError whatever the lists hold. None is that error. */
  function ShiLabelsAsWritten(germination: seq<real>, fungal: seq<int>): (shi: Option<seq<real>>)
    ensures shi.None?
  {
    None
  }

  /** The discrepancy: the labels as written are never produced, while the
      intended labels on any generated seeds (germination a rate in
      [0, 100], fungal presence 0 or 1) are exactly the unclipped formula
      `0.7 * g + 30 * (1 - f)` applied seed by seed. */
  lemma {:induction false} LabelsAsWrittenFail(germination: seq<real>, fungal: seq<int>)
    requires |germination| == |fungal|
    requires forall i :: 0 <= i < |germination| ==> 0.0 <= germination[i] <= 100.0
    requires forall i :: 0 <= i < |fungal| ==> fungal[i] == 0 || fungal[i] == 1
    ensures ShiLabelsAsWritten(germination, fungal) == None
    ensures forall i :: 0 <= i < |germination| ==>
              ShiLabels(germination, fungal)[i] == germination[i] * 0.7 + (1 - fungal[i]) as real * 30.0
  {
    forall i | 0 <= i < |germination|
      ensures ShiLabels(germination, fungal)[i] == germination[i] * 0.7 + (1 - fungal[i]) as real * 30.0
    {
      ShiLabelClipInactive(germination[i], fungal[i]);
    }
  }

  // ---------------------------------------------------------------------
  // Collecting test predictions

  /** One test batch: the model's logits (one row per image, one column per
      class) and the targets of the same images. */
  datatype Batch = Batch(logits: seq<seq<real>>, targets: seq<int>)

  predicate BatchOk(b: Batch, classes: nat)
  {
    |b.logits| == |b.targets| && forall j :: 0 <= j < |b.logits| ==> |b.logits[j]| == classes
  }

  predicate AllOk(bs: seq<Batch>, classes: nat)
  {
    forall i :: 0 <= i < |bs| ==> BatchOk(bs[i], classes)
  }

  /** `torch.max(output, 1)[1]` on one batch. */
  function BatchPredictions(b: Batch, classes: nat): (p: seq<nat>)
    requires classes > 0 && BatchOk(b, classes)
    ensures |p| == |b.logits|
    ensures forall j :: 0 <= j < |p| ==> p[j] < classes
  {
    seq(|b.logits|, j requires 0 <= j < |b.logits| => Argmax(b.logits[j]))
  }

  /** The predictions of the batches in order. */
  function Predictions(bs: seq<Batch>, classes: nat): seq<nat>
    requires classes > 0 && AllOk(bs, classes)
  {
    if bs == [] then []
    else Predictions(bs[..|bs| - 1], classes) + BatchPredictions(bs[|bs| - 1], classes)
  }

  /** The targets of the batches in order. */
  function Targets(bs: seq<Batch>): seq<int>
  {
    if bs == [] then [] else Targets(bs[..|bs| - 1]) + bs[|bs| - 1].targets
  }

  /** All logit rows of the batches in order. */
  function Rows(bs: seq<Batch>): seq<seq<real>>
  {
    if bs == [] then [] else Rows(bs[..|bs| - 1]) + bs[|bs| - 1].logits
  }

  /** Batching does not matter: the i-th prediction is the argmax of the
      i-th logit row over the whole test set, it names a class, and there is
      one prediction per target. */
  lemma {:induction false} PredictionsAreRowArgmax(bs: seq<Batch>, classes: nat)
    requires classes > 0 && AllOk(bs, classes)
    ensures |Predictions(bs, classes)| == |Rows(bs)| == |Targets(bs)|
    ensures forall i :: 0 <= i < |Rows(bs)| ==> |Rows(bs)[i]| == classes
    ensures forall i :: 0 <= i < |Rows(bs)| ==> Predictions(bs, classes)[i] == Argmax(Rows(bs)[i])
    ensures forall i :: 0 <= i < |Rows(bs)| ==> Predictions(bs, classes)[i] < classes
  {
    if bs != [] {
      var p := bs[..|bs| - 1];
      var b := bs[|bs| - 1];
      assert AllOk(p, classes);
      PredictionsAreRowArgmax(p, classes);
      assert BatchOk(b, classes);
      var n := |Rows(p)|;
      forall i | 0 <= i < |Rows(bs)|
        ensures |Rows(bs)[i]| == classes
        ensures Predictions(bs, classes)[i] == Argmax(Rows(bs)[i])
      {
        if i < n {
          assert Rows(bs)[i] == Rows(p)[i];
          assert Predictions(bs, classes)[i] == Predictions(p, classes)[i];
        } else {
          assert Rows(bs)[i] == b.logits[i - n];
          assert Predictions(bs, classes)[i] == BatchPredictions(b, classes)[i - n];
        }
      }
    }
  }

  /** The canopy test loop: for each batch, extend the predictions with the
      argmax of its logits and the targets with its targets. */
  method CollectPredictions(bs: seq<Batch>, classes: nat) returns (preds: seq<nat>, targets: seq<int>)
    requires classes > 0 && AllOk(bs, classes)
    ensures preds == Predictions(bs, classes)
    ensures targets == Targets(bs)
    ensures |preds| == |targets|
  {
    preds, targets := [], [];
    var i := 0;
    while i < |bs|
      invariant 0 <= i <= |bs|
      invariant AllOk(bs[..i], classes)
      invariant preds == Predictions(bs[..i], classes)
      invariant targets == Targets(bs[..i])
      invariant |preds| == |targets|
    {
      assert bs[..i + 1][..i] == bs[..i];
      assert BatchOk(bs[i], classes);
      preds := preds + BatchPredictions(bs[i], classes);
      targets := targets + bs[i].targets;
      i := i + 1;
    }
    assert bs[..i] == bs;
  }

  /** One batch of the seed-health test loop: each model's outputs and the
      batch's SHI and ARS targets, one per seed. */
  datatype SeedBatch = SeedBatch(shiPred: seq<real>, arsPred: seq<real>, shi: seq<real>, ars: seq<real>)

  predicate SeedBatchOk(b: SeedBatch)
  {
    |b.shiPred| == |b.arsPred| == |b.shi| == |b.ars|
  }

  datatype Field = ShiPred | ArsPred | ShiTarget | ArsTarget

  function Get(b: SeedBatch, f: Field): seq<real>
  {
    match f
    case ShiPred => b.shiPred
    case ArsPred => b.arsPred
    case ShiTarget => b.shi
    case ArsTarget => b.ars
  }

  /** One column of the batches, concatenated in batch order. */
  function Column(bs: seq<SeedBatch>, f: Field): seq<real>
  {
    if bs == [] then [] else Column(bs[..|bs| - 1], f) + Get(bs[|bs| - 1], f)
  }

  /** The seed-health test loop: four lists extended in lockstep, which end
      as the concatenated columns of the batches, all of one length. */
  method CollectSeedPredictions(bs: seq<SeedBatch>)
      returns (shiPreds: seq<real>, shiTargets: seq<real>, arsPreds: seq<real>, arsTargets: seq<real>)
    requires forall i :: 0 <= i < |bs| ==> SeedBatchOk(bs[i])
    ensures shiPreds == Column(bs, ShiPred) && shiTargets == Column(bs, ShiTarget)
    ensures arsPreds == Column(bs, ArsPred) && arsTargets == Column(bs, ArsTarget)
    ensures |shiPreds| == |shiTargets| == |arsPreds| == |arsTargets|
  {
    shiPreds, shiTargets, arsPreds, arsTargets := [], [], [], [];
    var i := 0;
    while i < |bs|
      invariant 0 <= i <= |bs|
      invariant shiPreds == Column(bs[..i], ShiPred) && shiTargets == Column(bs[..i], ShiTarget)
      invariant arsPreds == Column(bs[..i], ArsPred) && arsTargets == Column(bs[..i], ArsTarget)
      invariant |shiPreds| == |shiTargets| == |arsPreds| == |arsTargets|
    {
      assert bs[..i + 1][..i] == bs[..i];
      assert SeedBatchOk(bs[i]);
      shiPreds := shiPreds + bs[i].shiPred;
      shiTargets := shiTargets + bs[i].shi;
      arsPreds := arsPreds + bs[i].arsPred;
      arsTargets := arsTargets + bs[i].ars;
      i := i + 1;
    }
    assert bs[..i] == bs;
  }
}
