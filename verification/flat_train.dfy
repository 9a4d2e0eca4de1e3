/**
 * `backprop` and `learn` of the two stand-alone network files. For each
 * sample `backprop` runs `forward`, seeds the gradient of the last
 * activation row with `output - target`, and walks the links from the last
 * to the first: every entry `j` of row `l` contributes
 * `2 * da * a * (1 - a)` to bias `j` of link `l - 1`, that times the
 * previous activation to weight `(k, j)`, and that times the weight to the
 * gradient of the previous row. The weight and bias sums over all samples
 * are then divided by the number of samples. `learn` subtracts
 * `rate * gradient` from every weight and bias.
 */
module FlatTrain {
  import opened Prims
  import opened FlatMatrix
  import opened FlatNet

  /**
   * What `backprop` needs of its arguments: a non-empty network, at least
   * one sample (the sums are divided by their number), a target row for
   * every input and inputs as wide as the first row.
   */
  predicate TrainFits(nn: NN, ins: seq<seq<real>>, outs: seq<seq<real>>)
  {
    && Shaped(nn) && 0 < nn.layers && 0 < |ins| <= |outs|
    && forall s :: 0 <= s < |ins| ==> |ins[s]| == nn.architecture[0]
  }

  /** Row `k` of the forward pass on `input`, as the flat data the loops read. */
  function Act(sigmoid: real -> real, nn: NN, input: seq<real>, k: nat): (a: seq<real>)
    requires Shaped(nn) && k < nn.layers && |input| == nn.architecture[0]
    ensures |a| == nn.architecture[k]
  {
    Layer(sigmoid, nn, input, k).data
  }

  /**
   * The seed of the last activation row: `output - target` at every entry
   * the target row reaches, zero beyond it.
   */
  function Seed(out: seq<real>, target: seq<real>): (d: seq<real>)
    ensures |d| == |out|
    ensures forall j :: 0 <= j < |out| && j < |target| ==> d[j] == out[j] - target[j]
    ensures forall j :: |target| <= j < |out| ==> d[j] == 0.0
  {
    seq(|out|, j requires 0 <= j < |out| => if j < |target| then out[j] - target[j] else 0.0)
  }

  /** `2 * da * dactf` with `dactf = a * (1 - a)`, for every entry of a row. */
  function Deltas(a: seq<real>, da: seq<real>): (d: seq<real>)
    requires |a| == |da|
    ensures |d| == |a|
  {
    seq(|a|, j requires 0 <= j < |a| => 2.0 * da[j] * (a[j] * (1.0 - a[j])))
  }

  /** The first `n` terms of `g.as[l - 1].data[k] += delta[j] * matAt(w, k, j)`, from `j = 0` up. */
  function Back(w: Mat, delta: seq<real>, k: nat, n: nat): real
    requires WellFormed(w) && k < w.rows && n <= w.cols <= |delta|
  {
    if n == 0 then 0.0 else Back(w, delta, k, n - 1) + delta[n - 1] * At(w, k, n - 1)
  }

  /** The gradient handed back to the previous row: one `Back` sum per row of `w`. */
  function BackRow(w: Mat, delta: seq<real>): (ga: seq<real>)
    requires WellFormed(w) && w.cols <= |delta|
    ensures |ga| == w.rows
  {
    seq(w.rows, k requires 0 <= k < w.rows => Back(w, delta, k, w.cols))
  }

  /**
   * The activation gradient of row `l` for one sample: the seed at the last
   * row, and for every earlier row the weights of the next link applied
   * back to the next row's deltas.
   */
  function GradA(sigmoid: real -> real, nn: NN, input: seq<real>, target: seq<real>, l: nat): (ga: seq<real>)
    requires Shaped(nn) && l < nn.layers && |input| == nn.architecture[0]
    ensures |ga| == nn.architecture[l]
    decreases nn.layers - l, 0
  {
    if l == nn.layers - 1 then Seed(Output(sigmoid, nn, input), target)
    else
      assert HasShape(nn.ws[l], nn.architecture[l], nn.architecture[l + 1]);
      BackRow(nn.ws[l], Delta(sigmoid, nn, input, target, l + 1))
  }

  /** The deltas of row `l` (`0 < l`) for one sample. */
  function Delta(sigmoid: real -> real, nn: NN, input: seq<real>, target: seq<real>, l: nat): (d: seq<real>)
    requires Shaped(nn) && 0 < l < nn.layers && |input| == nn.architecture[0]
    ensures |d| == nn.architecture[l]
    decreases nn.layers - l, 1
  {
    Deltas(Act(sigmoid, nn, input, l), GradA(sigmoid, nn, input, target, l))
  }

  /** Every entry of `v` times `d`. */
  function Scaled(d: real, v: seq<real>): (r: seq<real>)
    ensures |r| == |v|
  {
    seq(|v|, k requires 0 <= k < |v| => d * v[k])
  }

  /** What sample `s` adds to column `j` of link `i`: delta `j` of row `i + 1` times each activation of row `i`. */
  function ColumnTerms(sigmoid: real -> real, nn: NN, ins: seq<seq<real>>, outs: seq<seq<real>>, i: nat, j: nat, s: nat): (t: seq<real>)
    requires TrainFits(nn, ins, outs) && s < |ins| && i + 1 < nn.layers && j < nn.architecture[i + 1]
    ensures |t| == nn.architecture[i]
  {
    Scaled(Delta(sigmoid, nn, ins[s], outs[s], i + 1)[j], Act(sigmoid, nn, ins[s], i))
  }

  /** The sum over the first `n` samples of weight `(k, j)` of link `i`. */
  function WeightSum(sigmoid: real -> real, nn: NN, ins: seq<seq<real>>, outs: seq<seq<real>>, i: nat, k: nat, j: nat, n: nat): real
    requires TrainFits(nn, ins, outs) && n <= |ins|
    requires i + 1 < nn.layers && k < nn.architecture[i] && j < nn.architecture[i + 1]
  {
    if n == 0 then 0.0
    else
      var s := n - 1;
      WeightSum(sigmoid, nn, ins, outs, i, k, j, s) + ColumnTerms(sigmoid, nn, ins, outs, i, j, s)[k]
  }

  /** The sum over the first `n` samples of bias `j` of link `i`: delta `j` of row `i + 1`. */
  function BiasSum(sigmoid: real -> real, nn: NN, ins: seq<seq<real>>, outs: seq<seq<real>>, i: nat, j: nat, n: nat): real
    requires TrainFits(nn, ins, outs) && n <= |ins|
    requires i + 1 < nn.layers && j < nn.architecture[i + 1]
  {
    if n == 0 then 0.0
    else
      var s := n - 1;
      BiasSum(sigmoid, nn, ins, outs, i, j, s) + Delta(sigmoid, nn, ins[s], outs[s], i + 1)[j]
  }

  /** The weight gradient of link `i` summed over the first `n` samples. */
  function WeightSums(sigmoid: real -> real, nn: NN, ins: seq<seq<real>>, outs: seq<seq<real>>, i: nat, n: nat): (m: Mat)
    requires TrainFits(nn, ins, outs) && i + 1 < nn.layers && n <= |ins|
    ensures HasShape(m, nn.architecture[i], nn.architecture[i + 1])
    ensures forall k, j :: 0 <= k < nn.architecture[i] && 0 <= j < nn.architecture[i + 1] ==>
              At(m, k, j) == WeightSum(sigmoid, nn, ins, outs, i, k, j, n)
  {
    var rows, cols := nn.architecture[i], nn.architecture[i + 1];
    Tabulate(rows, cols, (k: nat, j: nat) =>
      if k < rows && j < cols then WeightSum(sigmoid, nn, ins, outs, i, k, j, n) else 0.0)
  }

  /** The bias gradient of link `i` summed over the first `n` samples. */
  function BiasSums(sigmoid: real -> real, nn: NN, ins: seq<seq<real>>, outs: seq<seq<real>>, i: nat, n: nat): (m: Mat)
    requires TrainFits(nn, ins, outs) && i + 1 < nn.layers && n <= |ins|
    ensures HasShape(m, 1, nn.architecture[i + 1])
    ensures forall j :: 0 <= j < nn.architecture[i + 1] ==> m.data[j] == BiasSum(sigmoid, nn, ins, outs, i, j, n)
  {
    var cols := nn.architecture[i + 1];
    var m := Tabulate(1, cols, (_: nat, j: nat) => if j < cols then BiasSum(sigmoid, nn, ins, outs, i, j, n) else 0.0);
    assert forall j :: 0 <= j < cols ==> m.data[j] == At(m, 0, j);
    m
  }

  /**
   * The gradient network after the sample loop, before the division: the
   * summed weights and biases, and the activation gradients of the last
   * sample (each sample starts its rows from zero).
   */
  function Sums(sigmoid: real -> real, nn: NN, ins: seq<seq<real>>, outs: seq<seq<real>>): (g: NN)
    requires TrainFits(nn, ins, outs)
    ensures SameShape(nn, g)
  {
    var last := |ins| - 1;
    var links := |nn.ws|;
    NN(nn.layers, nn.architecture,
       seq(nn.layers, k requires 0 <= k < nn.layers => Row(GradA(sigmoid, nn, ins[last], outs[last], k))),
       seq(links, i requires 0 <= i < links => WeightSums(sigmoid, nn, ins, outs, i, |ins|)),
       seq(links, i requires 0 <= i < links => BiasSums(sigmoid, nn, ins, outs, i, |ins|)))
  }

  // ---------------------------------------------------------------------
  // The division by the number of samples

  /** Every entry of `m` divided by `n`. */
  function Divide(m: Mat, n: real): (r: Mat)
    requires n != 0.0
    ensures r.rows == m.rows && r.cols == m.cols && |r.data| == |m.data|
  {
    m.(data := seq(|m.data|, idx requires 0 <= idx < |m.data| => m.data[idx] / n))
  }

  /** The last loop of `backprop`: every weight and bias of the first `layers - 1` links divided by `n`. */
  function Average(g: NN, n: real): (r: NN)
    requires Shaped(g) && n != 0.0
    ensures SameShape(g, r) && r.acts == g.acts
  {
    var links := |g.ws|;
    var r := g.(ws := seq(links, i requires 0 <= i < links => Divide(g.ws[i], n)),
                bs := seq(links, i requires 0 <= i < links => Divide(g.bs[i], n)));
    assert ParamsShaped(r.architecture, r.ws, r.bs) by {
      forall i | 0 <= i < links
        ensures HasShape(r.ws[i], r.architecture[i], r.architecture[i + 1])
        ensures HasShape(r.bs[i], 1, r.architecture[i + 1])
      {
        assert HasShape(g.ws[i], g.architecture[i], g.architecture[i + 1]);
        assert HasShape(g.bs[i], 1, g.architecture[i + 1]);
      }
    }
    r
  }

  /**
   * `backprop(nn, ins, outs)`: the weight and bias gradients are the means
   * over the samples of the per-sample terms; the activation gradients are
   * those of the last sample.
   */
  function Backprop(sigmoid: real -> real, nn: NN, ins: seq<seq<real>>, outs: seq<seq<real>>): (g: NN)
    requires TrainFits(nn, ins, outs)
    ensures SameShape(nn, g)
  {
    Average(Sums(sigmoid, nn, ins, outs), |ins| as real)
  }

  /**
   * Weight `(k, j)` of link `i` is the mean over the samples of delta `j` of
   * row `i + 1` times activation `k` of row `i`.
   */
  lemma BackpropWeight(sigmoid: real -> real, nn: NN, ins: seq<seq<real>>, outs: seq<seq<real>>, i: nat, k: nat, j: nat)
    requires TrainFits(nn, ins, outs) && i + 1 < nn.layers
    requires k < nn.architecture[i] && j < nn.architecture[i + 1]
    ensures At(Backprop(sigmoid, nn, ins, outs).ws[i], k, j) == WeightSum(sigmoid, nn, ins, outs, i, k, j, |ins|) / (|ins| as real)
  {
    var sums := Sums(sigmoid, nn, ins, outs);
    var w := WeightSums(sigmoid, nn, ins, outs, i, |ins|);
    assert sums.ws[i] == w;
    var at := Index(w, k, j);
    assert Average(sums, |ins| as real).ws[i].data[at] == w.data[at] / (|ins| as real);
  }

  /** Bias `j` of link `i` is the mean over the samples of delta `j` of row `i + 1`. */
  lemma BackpropBias(sigmoid: real -> real, nn: NN, ins: seq<seq<real>>, outs: seq<seq<real>>, i: nat, j: nat)
    requires TrainFits(nn, ins, outs) && i + 1 < nn.layers && j < nn.architecture[i + 1]
    ensures Backprop(sigmoid, nn, ins, outs).bs[i].data[j] == BiasSum(sigmoid, nn, ins, outs, i, j, |ins|) / (|ins| as real)
  {
    var sums := Sums(sigmoid, nn, ins, outs);
    assert sums.bs[i] == BiasSums(sigmoid, nn, ins, outs, i, |ins|);
  }

  /** Row `k` of the returned activations is the last sample's activation gradient of row `k`. */
  lemma BackpropActs(sigmoid: real -> real, nn: NN, ins: seq<seq<real>>, outs: seq<seq<real>>, k: nat)
    requires TrainFits(nn, ins, outs) && k < nn.layers
    ensures Backprop(sigmoid, nn, ins, outs).acts[k].data == GradA(sigmoid, nn, ins[|ins| - 1], outs[|ins| - 1], k)
  {
  }

  // ---------------------------------------------------------------------
  // A network that reproduces its targets

  /** Every output entry the target rows reach equals its target. */
  predicate ExactFit(sigmoid: real -> real, nn: NN, ins: seq<seq<real>>, outs: seq<seq<real>>)
    requires TrainFits(nn, ins, outs)
  {
    forall s :: 0 <= s < |ins| ==> Reproduces(sigmoid, nn, ins[s], outs[s])
  }

  /** One sample's output matches its target on every entry both rows have. */
  predicate Reproduces(sigmoid: real -> real, nn: NN, input: seq<real>, target: seq<real>)
    requires Shaped(nn) && 0 < nn.layers && |input| == nn.architecture[0]
  {
    forall j :: 0 <= j < |target| && j < nn.architecture[nn.layers - 1] ==> Output(sigmoid, nn, input)[j] == target[j]
  }

  lemma {:induction false} BackZero(w: Mat, delta: seq<real>, k: nat, n: nat)
    requires WellFormed(w) && k < w.rows && n <= w.cols <= |delta|
    requires forall j :: 0 <= j < n ==> delta[j] == 0.0
    ensures Back(w, delta, k, n) == 0.0
  {
    if n > 0 {
      BackZero(w, delta, k, n - 1);
    }
  }

  /** When the sample is reproduced, every activation gradient of it is zero, from the last row down. */
  lemma {:induction false} GradAZero(sigmoid: real -> real, nn: NN, input: seq<real>, target: seq<real>, l: nat)
    requires Shaped(nn) && l < nn.layers && |input| == nn.architecture[0]
    requires Reproduces(sigmoid, nn, input, target)
    ensures forall j :: 0 <= j < nn.architecture[l] ==> GradA(sigmoid, nn, input, target, l)[j] == 0.0
    decreases nn.layers - l, 0
  {
    if l < nn.layers - 1 {
      DeltaZero(sigmoid, nn, input, target, l + 1);
      var w, d := nn.ws[l], Delta(sigmoid, nn, input, target, l + 1);
      assert HasShape(w, nn.architecture[l], nn.architecture[l + 1]);
      forall k | 0 <= k < nn.architecture[l]
        ensures GradA(sigmoid, nn, input, target, l)[k] == 0.0
      {
        BackZero(w, d, k, w.cols);
      }
    }
  }

  lemma {:induction false} DeltaZero(sigmoid: real -> real, nn: NN, input: seq<real>, target: seq<real>, l: nat)
    requires Shaped(nn) && 0 < l < nn.layers && |input| == nn.architecture[0]
    requires Reproduces(sigmoid, nn, input, target)
    ensures forall j :: 0 <= j < nn.architecture[l] ==> Delta(sigmoid, nn, input, target, l)[j] == 0.0
    decreases nn.layers - l, 1
  {
    GradAZero(sigmoid, nn, input, target, l);
  }

  lemma {:induction false} WeightSumZero(sigmoid: real -> real, nn: NN, ins: seq<seq<real>>, outs: seq<seq<real>>, i: nat, k: nat, j: nat, n: nat)
    requires TrainFits(nn, ins, outs) && ExactFit(sigmoid, nn, ins, outs) && n <= |ins|
    requires i + 1 < nn.layers && k < nn.architecture[i] && j < nn.architecture[i + 1]
    ensures WeightSum(sigmoid, nn, ins, outs, i, k, j, n) == 0.0
  {
    if n > 0 {
      WeightSumZero(sigmoid, nn, ins, outs, i, k, j, n - 1);
      DeltaZero(sigmoid, nn, ins[n - 1], outs[n - 1], i + 1);
    }
  }

  lemma {:induction false} BiasSumZero(sigmoid: real -> real, nn: NN, ins: seq<seq<real>>, outs: seq<seq<real>>, i: nat, j: nat, n: nat)
    requires TrainFits(nn, ins, outs) && ExactFit(sigmoid, nn, ins, outs) && n <= |ins|
    requires i + 1 < nn.layers && j < nn.architecture[i + 1]
    ensures BiasSum(sigmoid, nn, ins, outs, i, j, n) == 0.0
  {
    if n > 0 {
      BiasSumZero(sigmoid, nn, ins, outs, i, j, n - 1);
      DeltaZero(sigmoid, nn, ins[n - 1], outs[n - 1], i + 1);
    }
  }

  lemma ActsZero(sigmoid: real -> real, nn: NN, ins: seq<seq<real>>, outs: seq<seq<real>>, k: nat)
    requires TrainFits(nn, ins, outs) && ExactFit(sigmoid, nn, ins, outs) && k < nn.layers
    ensures Backprop(sigmoid, nn, ins, outs).acts[k] == Zero(1, nn.architecture[k])
  {
    var last := |ins| - 1;
    GradAZero(sigmoid, nn, ins[last], outs[last], k);
    var m := Backprop(sigmoid, nn, ins, outs).acts[k];
    assert m == Row(GradA(sigmoid, nn, ins[last], outs[last], k));
    forall c | 0 <= c < m.cols
      ensures At(m, 0, c) == 0.0
    {
      assert At(m, 0, c) == m.data[c];
    }
    AllZero(m);
  }

  lemma WeightZero(sigmoid: real -> real, nn: NN, ins: seq<seq<real>>, outs: seq<seq<real>>, i: nat, k: nat, j: nat)
    requires TrainFits(nn, ins, outs) && ExactFit(sigmoid, nn, ins, outs) && i + 1 < nn.layers
    requires k < nn.architecture[i] && j < nn.architecture[i + 1]
    ensures At(Backprop(sigmoid, nn, ins, outs).ws[i], k, j) == 0.0
  {
    WeightSumZero(sigmoid, nn, ins, outs, i, k, j, |ins|);
    BackpropWeight(sigmoid, nn, ins, outs, i, k, j);
    var n := |ins| as real;
    assert At(Backprop(sigmoid, nn, ins, outs).ws[i], k, j) == 0.0 / n == 0.0;
  }

  lemma BiasZero(sigmoid: real -> real, nn: NN, ins: seq<seq<real>>, outs: seq<seq<real>>, i: nat, j: nat)
    requires TrainFits(nn, ins, outs) && ExactFit(sigmoid, nn, ins, outs) && i + 1 < nn.layers
    requires j < nn.architecture[i + 1]
    ensures At(Backprop(sigmoid, nn, ins, outs).bs[i], 0, j) == 0.0
  {
    BiasSumZero(sigmoid, nn, ins, outs, i, j, |ins|);
    BackpropBias(sigmoid, nn, ins, outs, i, j);
    var b := Backprop(sigmoid, nn, ins, outs).bs[i];
    var n := |ins| as real;
    assert b.data[j] == 0.0 / n == 0.0;
    assert At(b, 0, j) == b.data[j];
  }

  lemma WeightsZero(sigmoid: real -> real, nn: NN, ins: seq<seq<real>>, outs: seq<seq<real>>, i: nat)
    requires TrainFits(nn, ins, outs) && ExactFit(sigmoid, nn, ins, outs) && i < |nn.ws|
    ensures Backprop(sigmoid, nn, ins, outs).ws[i] == Zero(nn.architecture[i], nn.architecture[i + 1])
  {
    var w := Backprop(sigmoid, nn, ins, outs).ws[i];
    assert HasShape(w, nn.architecture[i], nn.architecture[i + 1]);
    forall k, j | 0 <= k < w.rows && 0 <= j < w.cols
      ensures At(w, k, j) == 0.0
    {
      WeightZero(sigmoid, nn, ins, outs, i, k, j);
    }
    AllZero(w);
  }

  lemma BiasesZero(sigmoid: real -> real, nn: NN, ins: seq<seq<real>>, outs: seq<seq<real>>, i: nat)
    requires TrainFits(nn, ins, outs) && ExactFit(sigmoid, nn, ins, outs) && i < |nn.bs|
    ensures Backprop(sigmoid, nn, ins, outs).bs[i] == Zero(1, nn.architecture[i + 1])
  {
    var b := Backprop(sigmoid, nn, ins, outs).bs[i];
    assert HasShape(b, 1, nn.architecture[i + 1]);
    forall r, j | 0 <= r < b.rows && 0 <= j < b.cols
      ensures At(b, r, j) == 0.0
    {
      assert r == 0;
      BiasZero(sigmoid, nn, ins, outs, i, j);
    }
    AllZero(b);
  }

  /**
   * A network that reproduces every target entry gets a zero gradient:
   * `backprop` returns exactly `zeroNN` of its architecture.
   */
  lemma ExactFitZeroGradient(sigmoid: real -> real, nn: NN, ins: seq<seq<real>>, outs: seq<seq<real>>)
    requires TrainFits(nn, ins, outs) && ExactFit(sigmoid, nn, ins, outs)
    ensures Backprop(sigmoid, nn, ins, outs) == ZeroNN(nn.architecture)
  {
    var g, z := Backprop(sigmoid, nn, ins, outs), ZeroNN(nn.architecture);
    forall k | 0 <= k < nn.layers
      ensures g.acts[k] == z.acts[k]
    {
      ActsZero(sigmoid, nn, ins, outs, k);
    }
    forall i | 0 <= i < |nn.ws|
      ensures g.ws[i] == z.ws[i] && g.bs[i] == z.bs[i]
    {
      WeightsZero(sigmoid, nn, ins, outs, i);
      BiasesZero(sigmoid, nn, ins, outs, i);
    }
    assert g.acts == z.acts && g.ws == z.ws && g.bs == z.bs;
  }

  // ---------------------------------------------------------------------
  // learn

  /** `p.data[idx] -= rate * d.data[idx]` for every entry. */
  function Nudge(p: Mat, d: Mat, rate: real): (r: Mat)
    requires |d.data| == |p.data|
    ensures r.rows == p.rows && r.cols == p.cols && |r.data| == |p.data|
  {
    p.(data := seq(|p.data|, idx requires 0 <= idx < |p.data| => p.data[idx] - rate * d.data[idx]))
  }

  /** `learn(nn, g, rate)`: every weight and bias of the first `layers - 1` links moves by `-rate` times its gradient. */
  function Learn(nn: NN, g: NN, rate: real): (r: NN)
    requires SameShape(nn, g)
    ensures SameShape(nn, r) && r.acts == nn.acts
  {
    var links := |nn.ws|;
    var r := nn.(ws := seq(links, i requires 0 <= i < links => (SameShapeParams(nn, g, i); Nudge(nn.ws[i], g.ws[i], rate))),
                 bs := seq(links, i requires 0 <= i < links => (SameShapeParams(nn, g, i); Nudge(nn.bs[i], g.bs[i], rate))));
    assert ParamsShaped(r.architecture, r.ws, r.bs) by {
      forall i | 0 <= i < links
        ensures HasShape(r.ws[i], r.architecture[i], r.architecture[i + 1])
        ensures HasShape(r.bs[i], 1, r.architecture[i + 1])
      {
        assert HasShape(nn.ws[i], nn.architecture[i], nn.architecture[i + 1]);
        assert HasShape(nn.bs[i], 1, nn.architecture[i + 1]);
      }
    }
    r
  }

  /** What `learn` does to one entry: weight and bias entries drop by `rate` times their gradient entry. */
  lemma LearnEntries(nn: NN, g: NN, rate: real, i: nat, idx: nat)
    requires SameShape(nn, g) && i < |nn.ws|
    ensures idx < |nn.ws[i].data| ==>
              idx < |g.ws[i].data| && Learn(nn, g, rate).ws[i].data[idx] == nn.ws[i].data[idx] - rate * g.ws[i].data[idx]
    ensures idx < |nn.bs[i].data| ==>
              idx < |g.bs[i].data| && Learn(nn, g, rate).bs[i].data[idx] == nn.bs[i].data[idx] - rate * g.bs[i].data[idx]
  {
  }

  /** `learn`'s default rate. */
  const DefaultRate: real := 1.0

  /** A step back with the opposite rate undoes a step of `learn`. */
  lemma LearnInverse(nn: NN, g: NN, rate: real)
    requires SameShape(nn, g)
    ensures Learn(Learn(nn, g, rate), g, -rate) == nn
  {
    var once := Learn(nn, g, rate);
    var back := Learn(once, g, -rate);
    forall i | 0 <= i < |nn.ws|
      ensures back.ws[i] == nn.ws[i] && back.bs[i] == nn.bs[i]
    {
      SameShapeParams(nn, g, i);
      assert back.ws[i].data == nn.ws[i].data;
      assert back.bs[i].data == nn.bs[i].data;
    }
  }

  /** A zero gradient leaves the network as it is. */
  lemma LearnZero(nn: NN, rate: real)
    requires Shaped(nn)
    ensures SameShape(nn, ZeroNN(nn.architecture))
    ensures Learn(nn, ZeroNN(nn.architecture), rate) == nn
  {
    var z := ZeroNN(nn.architecture);
    var r := Learn(nn, z, rate);
    forall i | 0 <= i < |nn.ws|
      ensures r.ws[i] == nn.ws[i] && r.bs[i] == nn.bs[i]
    {
      SameShapeParams(nn, z, i);
      assert r.ws[i].data == nn.ws[i].data;
      assert r.bs[i].data == nn.bs[i].data;
    }
  }

  /** A network that already reproduces its targets is a fixed point of a training step. */
  lemma TrainingStepAtExactFit(sigmoid: real -> real, nn: NN, ins: seq<seq<real>>, outs: seq<seq<real>>, rate: real)
    requires TrainFits(nn, ins, outs) && ExactFit(sigmoid, nn, ins, outs)
    ensures Learn(nn, Backprop(sigmoid, nn, ins, outs), rate) == nn
  {
    ExactFitZeroGradient(sigmoid, nn, ins, outs);
    LearnZero(nn, rate);
  }

  // ---------------------------------------------------------------------
  // The in-place loops of `learn` and of `backprop`'s division

  /** The first `n` entries of `data` are `target`'s, the rest still `orig`'s. */
  predicate Prefix(data: seq<real>, orig: seq<real>, target: seq<real>, n: nat)
  {
    && |data| == |orig| == |target| && n <= |data|
    && (forall idx :: 0 <= idx < n ==> data[idx] == target[idx])
    && (forall idx :: n <= idx < |data| ==> data[idx] == orig[idx])
  }

  lemma PrefixStep(data: seq<real>, orig: seq<real>, target: seq<real>, n: nat)
    requires Prefix(data, orig, target, n) && n < |data|
    ensures Prefix(data[n := target[n]], orig, target, n + 1)
  {
  }

  lemma PrefixAll(data: seq<real>, orig: seq<real>, target: seq<real>)
    requires Prefix(data, orig, target, |data|)
    ensures data == target
  {
  }

  /**
   * The `j`, `k` loops of `learn` over one weight matrix:
   * `p.data[j * cols + k] -= rate * d.data[j * d.cols + k]`.
   */
  method NudgeInPlace(p: Mat, d: Mat, rate: real) returns (r: Mat)
    requires WellFormed(p) && HasShape(d, p.rows, p.cols)
    ensures r == Nudge(p, d, rate)
  {
    var target := Nudge(p, d, rate).data;
    var data := p.data;
    var j := 0;
    while j < p.rows
      invariant 0 <= j <= p.rows && j * p.cols <= |data|
      invariant Prefix(data, p.data, target, j * p.cols)
    {
      var k := 0;
      while k < p.cols
        invariant 0 <= k <= p.cols && j * p.cols + k <= |data|
        invariant Prefix(data, p.data, target, j * p.cols + k)
      {
        var at := Index(p, j, k);
        var v := data[at] - rate * d.data[Index(d, j, k)];
        assert v == target[at];
        PrefixStep(data, p.data, target, at);
        data := data[at := v];
        k := k + 1;
      }
      NextRow(j, p.cols);
      MulMonotone(j + 1, p.rows, p.cols);
      j := j + 1;
    }
    PrefixAll(data, p.data, target);
    r := p.(data := data);
  }

  /** The `k` loop of `learn` over one bias row: `p.data[k] -= rate * d.data[k]`. */
  method NudgeRowInPlace(p: Mat, d: Mat, rate: real) returns (r: Mat)
    requires HasShape(p, 1, p.cols) && HasShape(d, 1, p.cols)
    ensures r == Nudge(p, d, rate)
  {
    var target := Nudge(p, d, rate).data;
    var data := p.data;
    var k := 0;
    while k < p.cols
      invariant 0 <= k <= p.cols
      invariant Prefix(data, p.data, target, k)
    {
      var v := data[k] - rate * d.data[k];
      PrefixStep(data, p.data, target, k);
      data := data[k := v];
      k := k + 1;
    }
    PrefixAll(data, p.data, target);
    r := p.(data := data);
  }

  /** `learn(nn, g, rate)` as written: the link loop around the weight and bias loops. */
  method LearnInPlace(nn: NN, g: NN, rate: real) returns (r: NN)
    requires SameShape(nn, g)
    ensures r == Learn(nn, g, rate)
  {
    var goal := Learn(nn, g, rate);
    var ws, bs := nn.ws, nn.bs;
    var i := 0;
    while i < nn.layers - 1
      invariant 0 <= i <= |nn.ws| && |ws| == |bs| == |nn.ws|
      invariant forall t :: 0 <= t < i ==> ws[t] == goal.ws[t] && bs[t] == goal.bs[t]
      invariant forall t :: i <= t < |ws| ==> ws[t] == nn.ws[t] && bs[t] == nn.bs[t]
    {
      SameShapeParams(nn, g, i);
      assert HasShape(nn.ws[i], nn.architecture[i], nn.architecture[i + 1]);
      assert HasShape(nn.bs[i], 1, nn.architecture[i + 1]);
      var w := NudgeInPlace(ws[i], g.ws[i], rate);
      var b := NudgeRowInPlace(bs[i], g.bs[i], rate);
      ws := ws[i := w];
      bs := bs[i := b];
      i := i + 1;
    }
    r := nn.(ws := ws, bs := bs);
    assert r.ws == goal.ws && r.bs == goal.bs;
  }

  /** The `j`, `k` loops of `backprop`'s division over one weight matrix: `data[j * cols + k] /= n`. */
  method DivideInPlace(m: Mat, n: real) returns (r: Mat)
    requires WellFormed(m) && n != 0.0
    ensures r == Divide(m, n)
  {
    var target := Divide(m, n).data;
    var data := m.data;
    var j := 0;
    while j < m.rows
      invariant 0 <= j <= m.rows && j * m.cols <= |data|
      invariant Prefix(data, m.data, target, j * m.cols)
    {
      var k := 0;
      while k < m.cols
        invariant 0 <= k <= m.cols && j * m.cols + k <= |data|
        invariant Prefix(data, m.data, target, j * m.cols + k)
      {
        var at := Index(m, j, k);
        var v := data[at] / n;
        PrefixStep(data, m.data, target, at);
        data := data[at := v];
        k := k + 1;
      }
      NextRow(j, m.cols);
      MulMonotone(j + 1, m.rows, m.cols);
      j := j + 1;
    }
    PrefixAll(data, m.data, target);
    r := m.(data := data);
  }

  /** The `k` loop of the division over one bias row: `data[k] /= n`. */
  method DivideRowInPlace(m: Mat, n: real) returns (r: Mat)
    requires HasShape(m, 1, m.cols) && n != 0.0
    ensures r == Divide(m, n)
  {
    var target := Divide(m, n).data;
    var data := m.data;
    var k := 0;
    while k < m.cols
      invariant 0 <= k <= m.cols
      invariant Prefix(data, m.data, target, k)
    {
      var v := data[k] / n;
      PrefixStep(data, m.data, target, k);
      data := data[k := v];
      k := k + 1;
    }
    PrefixAll(data, m.data, target);
    r := m.(data := data);
  }

  /** The last loop of `backprop` as written: every link's weights, then its biases, divided by `n`. */
  method AverageInPlace(g: NN, n: real) returns (r: NN)
    requires Shaped(g) && n != 0.0
    ensures r == Average(g, n)
  {
    var goal := Average(g, n);
    var ws, bs := g.ws, g.bs;
    var i := 0;
    while i < g.layers - 1
      invariant 0 <= i <= |g.ws| && |ws| == |bs| == |g.ws|
      invariant forall t :: 0 <= t < i ==> ws[t] == goal.ws[t] && bs[t] == goal.bs[t]
      invariant forall t :: i <= t < |ws| ==> ws[t] == g.ws[t] && bs[t] == g.bs[t]
    {
      assert HasShape(g.ws[i], g.architecture[i], g.architecture[i + 1]);
      assert HasShape(g.bs[i], 1, g.architecture[i + 1]);
      var w := DivideInPlace(ws[i], n);
      var b := DivideRowInPlace(bs[i], n);
      ws := ws[i := w];
      bs := bs[i := b];
      i := i + 1;
    }
    r := g.(ws := ws, bs := bs);
    assert r.ws == goal.ws && r.bs == goal.bs;
  }
}
