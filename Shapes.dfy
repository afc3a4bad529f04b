/** Shape propagation through the torch layers the models stack in
    `nn.Sequential`. A shape leaves out the batch dimension. A layer that
    torch would refuse for the incoming shape (wrong channel count, wrong
    feature count, a kernel longer than the padded input) yields None. */
module Shapes {
  import opened Common

  /** A per-sample tensor: channels by length for 1-D convolutions, or a flat feature vector. */
  datatype Shape = Seq1d(channels: nat, length: nat) | Flat(width: nat)

  datatype Layer =
    | Conv1d(inChannels: nat, outChannels: nat, kernel: nat, stride: nat, padding: nat)
    | Linear(inFeatures: nat, outFeatures: nat)
    | ReLU
    | Dropout
    | AdaptiveAvgPool1d  // with output size 1
    | Flatten

  /** Length of a 1-D convolution's output (dilation 1), as torch computes it. */
  function ConvLength(length: nat, kernel: nat, stride: nat, padding: nat): nat
    requires stride > 0 && length + 2 * padding >= kernel
  {
    (length + 2 * padding - kernel) / stride + 1
  }

  function Apply(l: Layer, s: Shape): Option<Shape>
  {
    match l
    case Conv1d(i, o, k, st, p) =>
      if s.Seq1d? && s.channels == i && st > 0 && s.length + 2 * p >= k
      then Some(Seq1d(o, ConvLength(s.length, k, st, p))) else None
    case Linear(i, o) =>
      if s.Flat? && s.width == i then Some(Flat(o)) else None
    case ReLU => Some(s)
    case Dropout => Some(s)
    case AdaptiveAvgPool1d =>
      if s.Seq1d? && s.length > 0 then Some(Seq1d(s.channels, 1)) else None
    case Flatten =>
      if s.Seq1d? then Some(Flat(s.channels * s.length)) else None
  }

  /** `nn.Sequential(*layers)` applied to one input shape. */
  function Run(layers: seq<Layer>, s: Shape): Option<Shape>
  {
    if layers == [] then Some(s)
    else
      match Apply(layers[0], s)
      case None => None
      case Some(s') => Run(layers[1..], s')
  }

  /** Running two stacks one after the other is running their concatenation. */
  lemma {:induction false} RunAppend(a: seq<Layer>, b: seq<Layer>, s: Shape)
    ensures Run(a + b, s) == (match Run(a, s) case None => None case Some(m) => Run(b, m))
  {
    if a == [] {
      assert a + b == b;
    } else {
      assert (a + b)[0] == a[0];
      assert (a + b)[1..] == a[1..] + b;
      match Apply(a[0], s)
      case None =>
      case Some(s') => RunAppend(a[1..], b, s');
    }
  }

  /** A feed-forward stack `Linear(w, h), ReLU, Dropout, Linear(h, o)` maps exactly
      the flat inputs of width w to flat outputs of width o. */
  lemma MlpShape(w: nat, h: nat, o: nat, s: Shape)
    ensures Run([Linear(w, h), ReLU, Dropout, Linear(h, o)], s) == (if s == Flat(w) then Some(Flat(o)) else None)
  {
    var l := [Linear(w, h), ReLU, Dropout, Linear(h, o)];
    assert l[1..] == [ReLU, Dropout, Linear(h, o)];
    assert l[1..][1..] == [Dropout, Linear(h, o)];
    assert l[1..][1..][1..] == [Linear(h, o)];
    if s == Flat(w) {
      assert Run([Linear(h, o)], Flat(h)) == Some(Flat(o));
      assert Run([Dropout, Linear(h, o)], Flat(h)) == Some(Flat(o));
      assert Run([ReLU, Dropout, Linear(h, o)], Flat(h)) == Some(Flat(o));
    } else {
      assert Apply(Linear(w, h), s) == None;
    }
  }
}
