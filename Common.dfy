/** Vocabulary shared by the generator, the models and the scripts: numpy-style
    clipping, random draws given as inputs, bounded transcendental results,
    the "best so far" tracker of the training loops, and argmax. */
module Common {

  datatype Option<T> = None | Some(value: T)

  /** One draw of `np.random.random()`: a real in [0, 1). */
  type Draw = u: real | 0.0 <= u < 1.0 witness 0.0

  /** A value of sin: every waveform of the generator is a sine, so it is
      given as a function into [-1, 1] instead of being computed. */
  type Wave = w: real | -1.0 <= w <= 1.0 witness 0.0

  /** A value of the logistic sigmoid, which lies strictly between 0 and 1. */
  type OpenUnit = p: real | 0.0 < p < 1.0 witness 0.5

  /** A draw of an exponential or log-normal distribution (never negative). */
  type NonNeg = x: real | x >= 0.0 witness 0.0

  function Abs(x: real): (r: real)
    ensures r >= 0.0 && (r == x || r == -x)
  {
    if x < 0.0 then -x else x
  }

  /** `np.clip(x, lo, hi)` on one element. */
  function Clip(x: real, lo: real, hi: real): (r: real)
    requires lo <= hi
    ensures lo <= r <= hi
    ensures lo <= x <= hi ==> r == x
    ensures x < lo ==> r == lo
    ensures x > hi ==> r == hi
  {
    if x < lo then lo else if x > hi then hi else x
  }

  lemma ClipMonotone(x: real, y: real, lo: real, hi: real)
    requires lo <= hi && x <= y
    ensures Clip(x, lo, hi) <= Clip(y, lo, hi)
  {
  }

  /** A fraction of a positive quantity stays between 0 and the quantity. */
  lemma ScaleBelow(c: real, f: real)
    requires c > 0.0 && 0.0 <= f
    ensures 0.0 <= c * f
    ensures f < 1.0 ==> c * f < c
    ensures f <= 1.0 ==> c * f <= c
  {
    assert c - c * f == c * (1.0 - f);
  }

  /** A count out of a positive total is a fraction in [0, 1], and it is 1
      exactly when the count is the whole total. */
  lemma RatioInUnit(c: real, t: real)
    requires 0.0 <= c <= t && t > 0.0
    ensures 0.0 <= c / t <= 1.0
    ensures c / t == 1.0 <==> c == t
  {
    assert c / t * t == c;
  }

  lemma MulAtLeast(d: int, p: int)
    requires d >= 1 && p > 0
    ensures d * p >= p
  {
  }

  /** Integer division is determined by any quotient and remainder that fit. */
  lemma DivUnique(x: int, p: int, q: int, r: int)
    requires p > 0 && 0 <= r < p && x == q * p + r
    ensures x / p == q
  {
    var q0, r0 := x / p, x % p;
    assert q0 * p + r0 == q * p + r;
    if q0 > q {
      MulAtLeast(q0 - q, p);
    } else if q0 < q {
      MulAtLeast(q - q0, p);
    }
  }

  /** A unit draw scaled to a positive width lands in [0, width). */
  function ScaledDraw(w: real, u: Draw): (p: real)
    requires w > 0.0
    ensures 0.0 <= p < w
  {
    ScaleBelow(w, u);
    w * u
  }

  /** `np.random.uniform(a, b)` computed from one unit draw: a value in [a, b). */
  function Uniform(a: real, b: real, u: Draw): (r: real)
    requires a < b
    ensures a <= r < b
  {
    var p := ScaledDraw(b - a, u);
    a + p
  }

  /** `np.random.randint(lo, hi)` computed from one unit draw: an integer in [lo, hi). */
  function RandInt(lo: int, hi: int, u: Draw): (r: int)
    requires lo < hi
    ensures lo <= r < hi
  {
    var x := (hi - lo) as real * u;
    ScaleBelow((hi - lo) as real, u);
    assert x < (hi - lo) as real;
    assert x.Floor as real <= x;
    lo + x.Floor
  }

  /** `np.linspace(a, b, n)[k]`: n evenly spaced values from a to b
      inclusive, computed as numpy does, as a + k * step. */
  function LinspaceAt(a: real, b: real, n: nat, k: nat): (r: real)
    requires k < n
    ensures k == 0 ==> r == a
  {
    if n == 1 then a else a + (k as real) * ((b - a) / ((n - 1) as real))
  }

  /** The last of n > 1 values is b. */
  lemma LinspaceLast(a: real, b: real, n: nat)
    requires n > 1
    ensures LinspaceAt(a, b, n, n - 1) == b
  {
    var d := (n - 1) as real;
    assert d * ((b - a) / d) == b - a;
  }

  /** Every value lies between the endpoints. */
  lemma LinspaceBetween(a: real, b: real, n: nat, k: nat)
    requires a <= b && k < n
    ensures a <= LinspaceAt(a, b, n, k) <= b
  {
    if n > 1 {
      var d := (n - 1) as real;
      var step := (b - a) / d;
      assert step >= 0.0;
      assert d * step == b - a;
      assert (k as real) * step >= 0.0;
      assert d * step - (k as real) * step == (d - k as real) * step;
      assert d - k as real >= 0.0;
      assert (d - k as real) * step >= 0.0;
    }
  }

  // ---------------------------------------------------------------------
  // The running best of a training loop: it starts at some value and is
  // replaced by an epoch's metric only when that metric is strictly larger.

  /** The tracker's value after seeing the metrics `xs` in order. */
  function BestAfter(start: real, xs: seq<real>): real
  {
    if xs == [] then start
    else
      var b := BestAfter(start, xs[..|xs| - 1]);
      if xs[|xs| - 1] > b then xs[|xs| - 1] else b
  }

  /** One more epoch: the tracker moves to the new metric exactly when it is
      strictly larger, and that epoch is then a checkpoint epoch. */
  lemma BestAfterSnoc(start: real, xs: seq<real>, x: real)
    ensures BestAfter(start, xs + [x]) == if x > BestAfter(start, xs) then x else BestAfter(start, xs)
    ensures Improvements(start, xs + [x]) == Improvements(start, xs) + (if x > BestAfter(start, xs) then [|xs|] else [])
  {
    assert (xs + [x])[..|xs|] == xs;
  }

  /** The tracker ends at the maximum of its start and of every metric seen. */
  lemma {:induction false} BestAfterIsMax(start: real, xs: seq<real>)
    ensures BestAfter(start, xs) >= start
    ensures forall i :: 0 <= i < |xs| ==> BestAfter(start, xs) >= xs[i]
    ensures BestAfter(start, xs) == start || exists i :: 0 <= i < |xs| && BestAfter(start, xs) == xs[i]
  {
    if xs != [] {
      var p := xs[..|xs| - 1];
      BestAfterIsMax(start, p);
      assert forall i :: 0 <= i < |p| ==> p[i] == xs[i];
      if BestAfter(start, p) != start {
        var i :| 0 <= i < |p| && BestAfter(start, p) == p[i];
        assert xs[i] == p[i];
      }
    }
  }

  /** The tracker never decreases: a longer history never has a smaller best. */
  lemma {:induction false} BestAfterMonotone(start: real, xs: seq<real>, j: nat)
    requires j <= |xs|
    ensures BestAfter(start, xs[..j]) <= BestAfter(start, xs)
    decreases |xs|
  {
    if j < |xs| {
      var p := xs[..|xs| - 1];
      assert xs[..j] == p[..j];
      BestAfterMonotone(start, p, j);
    } else {
      assert xs[..j] == xs;
    }
  }

  /** The epochs (indices into `xs`) at which the tracker strictly improves;
      these are the epochs at which a checkpoint is written. */
  function Improvements(start: real, xs: seq<real>): (r: seq<nat>)
  {
    if xs == [] then []
    else
      var p := xs[..|xs| - 1];
      Improvements(start, p) + (if xs[|xs| - 1] > BestAfter(start, p) then [|xs| - 1] else [])
  }

  /** Every checkpoint epoch is an epoch of the run. */
  lemma {:induction false} ImprovementsInRange(start: real, xs: seq<real>)
    ensures forall i :: i in Improvements(start, xs) ==> i < |xs|
  {
    if xs != [] {
      ImprovementsInRange(start, xs[..|xs| - 1]);
    }
  }

  /** A checkpoint is written at epoch i exactly when epoch i's metric beats
      the best of the earlier epochs. */
  lemma {:induction false} ImprovementsExact(start: real, xs: seq<real>, i: nat)
    ensures i in Improvements(start, xs) <==> (i < |xs| && xs[i] > BestAfter(start, xs[..i]))
  {
    if xs != [] {
      var p := xs[..|xs| - 1];
      ImprovementsInRange(start, p);
      if i < |p| {
        ImprovementsExact(start, p, i);
        assert xs[..i] == p[..i] && xs[i] == p[i];
      } else if i == |p| {
        assert xs[..i] == p;
      }
    }
  }

  /** The checkpoint epochs are listed in strictly increasing order. */
  lemma {:induction false} ImprovementsIncreasing(start: real, xs: seq<real>)
    ensures forall a, b :: 0 <= a < b < |Improvements(start, xs)| ==> Improvements(start, xs)[a] < Improvements(start, xs)[b]
  {
    if xs != [] {
      var p := xs[..|xs| - 1];
      ImprovementsIncreasing(start, p);
      ImprovementsInRange(start, p);
      var q := Improvements(start, p);
      assert forall a :: 0 <= a < |q| ==> q[a] in q;
    }
  }

  /** The state of one "best so far" tracker: its value and the epochs at
      which it wrote a checkpoint. */
  datatype Tracker = Tracker(best: real, saves: seq<nat>)

  /** The tracker after the metrics `xs` of epochs 0, 1, ... */
  function Track(start: real, xs: seq<real>): Tracker
  {
    Tracker(BestAfter(start, xs), Improvements(start, xs))
  }

  /** The end-of-epoch step `if metric > best: best = metric; save()`. */
  function Observe(t: Tracker, epoch: nat, metric: real): (t': Tracker)
    ensures t'.best >= t.best
    ensures t'.best == t.best || t'.best == metric
    ensures |t'.saves| <= |t.saves| + 1
  {
    if metric > t.best then Tracker(metric, t.saves + [epoch]) else t
  }

  /** Observing the next epoch's metric extends the tracked history by it. */
  lemma ObserveNext(start: real, xs: seq<real>, x: real)
    ensures Observe(Track(start, xs), |xs|, x) == Track(start, xs + [x])
  {
    BestAfterSnoc(start, xs, x);
  }

  /** At a checkpoint epoch the tracker holds exactly that epoch's metric. */
  lemma ImprovementHoldsMetric(start: real, xs: seq<real>, i: nat)
    requires i < |xs| && xs[i] > BestAfter(start, xs[..i])
    ensures BestAfter(start, xs[..i + 1]) == xs[i]
  {
    assert xs[..i + 1][..i] == xs[..i];
  }

  // ---------------------------------------------------------------------

  /** `torch.max(v, 1)[1]` on one row: the index of the first largest entry. */
  function Argmax(v: seq<real>): (k: nat)
    requires |v| > 0
    ensures k < |v|
    ensures forall j :: 0 <= j < |v| ==> v[j] <= v[k]
    ensures forall j :: 0 <= j < k ==> v[j] < v[k]
  {
    if |v| == 1 then 0
    else
      var k' := Argmax(v[..|v| - 1]);
      if v[|v| - 1] > v[k'] then |v| - 1 else k'
  }
}
