/**
 * `backprop` of the two stand-alone network files as written: the sample
 * loop around `forward`, the reset of the activation gradients, the seed
 * loop over the target row, and the links walked from the last to the
 * first, each with its `j` loop over the row and `k` loop over the previous
 * row, accumulating into the gradient network in place. The result is the
 * functional `Backprop`.
 */
module FlatBackprop {
  import opened FlatMatrix
  import opened FlatNet
  import opened FlatTrain

  // ---------------------------------------------------------------------
  // Column-by-column progress through a flat matrix

  /**
   * `w` holds `hi`'s entries in every column before `j` and in the first
   * `k` rows of column `j`, and `lo`'s everywhere else: the weight gradient
   * of a link part way through the `j`, `k` loops.
   */
  predicate ColumnsPartial(w: seq<real>, lo: Mat, hi: Mat, j: nat, k: nat)
    requires WellFormed(lo) && HasShape(hi, lo.rows, lo.cols) && |w| == |lo.data|
  {
    forall r, c :: 0 <= r < lo.rows && 0 <= c < lo.cols ==>
      w[Index(lo, r, c)] == if c < j || (c == j && r < k) then At(hi, r, c) else At(lo, r, c)
  }

  lemma ColumnsStep(w: seq<real>, lo: Mat, hi: Mat, j: nat, k: nat)
    requires WellFormed(lo) && HasShape(hi, lo.rows, lo.cols) && |w| == |lo.data|
    requires k < lo.rows && j < lo.cols && ColumnsPartial(w, lo, hi, j, k)
    ensures ColumnsPartial(w[Index(lo, k, j) := At(hi, k, j)], lo, hi, j, k + 1)
  {
    var at := Index(lo, k, j);
    var w' := w[at := At(hi, k, j)];
    IndexJoin(lo, k, j);
    forall r, c | 0 <= r < lo.rows && 0 <= c < lo.cols
      ensures w'[Index(lo, r, c)] == if c < j || (c == j && r < k + 1) then At(hi, r, c) else At(lo, r, c)
    {
      IndexJoin(lo, r, c);
    }
  }

  lemma ColumnsEnd(w: seq<real>, lo: Mat, hi: Mat)
    requires WellFormed(lo) && HasShape(hi, lo.rows, lo.cols) && |w| == |lo.data|
    requires ColumnsPartial(w, lo, hi, lo.cols, 0)
    ensures w == hi.data
  {
    forall idx | 0 <= idx < |w|
      ensures w[idx] == hi.data[idx]
    {
      IndexSplit(lo, idx);
      var r, c := idx / lo.cols, idx % lo.cols;
      assert Index(hi, r, c) == idx;
    }
  }

  // ---------------------------------------------------------------------
  // One link of one sample

  /** The column terms, for the delta of the column and the previous row's activations passed in. */
  lemma ColumnTermsAre(sigmoid: real -> real, nn: NN, ins: seq<seq<real>>, outs: seq<seq<real>>, s: nat, l: nat, j: nat,
                       d: real, prevAct: seq<real>)
    requires TrainFits(nn, ins, outs) && s < |ins| && 0 < l < nn.layers && j < nn.architecture[l]
    requires d == Delta(sigmoid, nn, ins[s], outs[s], l)[j] && prevAct == Act(sigmoid, nn, ins[s], l - 1)
    ensures ColumnTerms(sigmoid, nn, ins, outs, l - 1, j, s) == Scaled(d, prevAct)
  {
  }

  /** Column `j` of the weight sums after sample `s` is the column before it plus the column terms. */
  lemma ColumnSums(sigmoid: real -> real, nn: NN, ins: seq<seq<real>>, outs: seq<seq<real>>, s: nat, l: nat, j: nat,
                   lo: Mat, hi: Mat, t: seq<real>)
    requires TrainFits(nn, ins, outs) && s < |ins| && 0 < l < nn.layers && j < nn.architecture[l]
    requires lo == WeightSums(sigmoid, nn, ins, outs, l - 1, s) && hi == WeightSums(sigmoid, nn, ins, outs, l - 1, s + 1)
    requires t == ColumnTerms(sigmoid, nn, ins, outs, l - 1, j, s)
    ensures forall k :: 0 <= k < |t| ==> At(hi, k, j) == At(lo, k, j) + t[k]
  {
    forall k | 0 <= k < |t|
      ensures At(hi, k, j) == At(lo, k, j) + t[k]
    {
      assert WeightSum(sigmoid, nn, ins, outs, l - 1, k, j, s + 1) == WeightSum(sigmoid, nn, ins, outs, l - 1, k, j, s) + t[k];
    }
  }

  /** Delta `j` of row `l`, as the `j` loop computes it from the row's activation and activation gradient. */
  lemma DeltaIs(sigmoid: real -> real, nn: NN, input: seq<real>, target: seq<real>, l: nat, a: seq<real>, da: seq<real>, j: nat)
    requires Shaped(nn) && 0 < l < nn.layers && |input| == nn.architecture[0]
    requires a == Act(sigmoid, nn, input, l) && da == GradA(sigmoid, nn, input, target, l) && j < |a|
    ensures 2.0 * da[j] * (a[j] * (1.0 - a[j])) == Delta(sigmoid, nn, input, target, l)[j]
  {
  }

  /** Bias `j` of link `l - 1` after sample `s` is the sum before it plus that sample's delta `j`. */
  lemma BiasSumNext(sigmoid: real -> real, nn: NN, ins: seq<seq<real>>, outs: seq<seq<real>>, s: nat, l: nat, j: nat)
    requires TrainFits(nn, ins, outs) && s < |ins| && 0 < l < nn.layers && j < nn.architecture[l]
    ensures BiasSums(sigmoid, nn, ins, outs, l - 1, s + 1).data[j]
         == BiasSums(sigmoid, nn, ins, outs, l - 1, s).data[j] + Delta(sigmoid, nn, ins[s], outs[s], l)[j]
  {
  }

  /**
   * `prev` holds the first `j + 1` terms of `Back` in its first `k` rows and
   * the first `j` terms in the rest: the previous row's gradient part way
   * through the `k` loop of column `j`.
   */
  predicate BackPartial(prev: seq<real>, w: Mat, delta: seq<real>, j: nat, k: nat)
    requires WellFormed(w) && j < w.cols <= |delta| && |prev| == w.rows
  {
    forall r :: 0 <= r < |prev| ==> prev[r] == Back(w, delta, r, if r < k then j + 1 else j)
  }

  lemma BackStep(prev: seq<real>, w: Mat, delta: seq<real>, j: nat, k: nat)
    requires WellFormed(w) && j < w.cols <= |delta| && |prev| == w.rows && k < w.rows
    requires BackPartial(prev, w, delta, j, k)
    ensures BackPartial(prev[k := prev[k] + delta[j] * At(w, k, j)], w, delta, j, k + 1)
  {
  }

  /**
   * The `k` loop of column `j`: weight `(k, j)` grows by `dj` times
   * activation `k` of the previous row, and gradient `k` of the previous row
   * by `dj` times that weight.
   */
  method ColumnBackward(W: Mat, ghost lo: Mat, ghost hi: Mat, ghost delta: seq<real>, ghost t: seq<real>,
                        prevAct: seq<real>, j: nat, dj: real, prev: seq<real>, w: seq<real>)
    returns (prev': seq<real>, w': seq<real>)
    requires WellFormed(W) && HasShape(lo, W.rows, W.cols) && HasShape(hi, W.rows, W.cols)
    requires j < W.cols <= |delta| && dj == delta[j]
    requires |prevAct| == W.rows && |prev| == W.rows && |w| == |W.data| && |t| == W.rows
    requires forall k :: 0 <= k < |t| ==> At(hi, k, j) == At(lo, k, j) + t[k]
    requires t == Scaled(dj, prevAct)
    requires forall r :: 0 <= r < |prev| ==> prev[r] == Back(W, delta, r, j)
    requires ColumnsPartial(w, lo, hi, j, 0)
    ensures |prev'| == |prev| && |w'| == |w|
    ensures forall r :: 0 <= r < |prev'| ==> prev'[r] == Back(W, delta, r, j + 1)
    ensures ColumnsPartial(w', lo, hi, j + 1, 0)
  {
    prev', w' := prev, w;
    var k := 0;
    while k < |prevAct|
      invariant 0 <= k <= |prevAct| && |prev'| == |prev| && |w'| == |w|
      invariant BackPartial(prev', W, delta, j, k)
      invariant ColumnsPartial(w', lo, hi, j, k)
    {
      var at := Index(W, k, j);
      assert at == Index(lo, k, j);
      var v := w'[at] + dj * prevAct[k];
      assert v == At(hi, k, j) by {
        assert t[k] == dj * prevAct[k];
        assert w'[at] == At(lo, k, j);
      }
      ColumnsStep(w', lo, hi, j, k);
      w' := w'[at := v];
      BackStep(prev', W, delta, j, k);
      prev' := prev'[k := prev'[k] + dj * At(W, k, j)];
      k := k + 1;
    }
  }

  /**
   * What the `j` loop of a link has accumulated for sample `s` after its
   * first `j` columns: the previous row's gradient holds the first `j`
   * terms of `Back`, and the weights and biases of those columns include
   * the sample.
   */
  predicate LinkPartial(sigmoid: real -> real, nn: NN, ins: seq<seq<real>>, outs: seq<seq<real>>, s: nat, l: nat, j: nat,
                        prev: seq<real>, w: seq<real>, b: seq<real>)
    requires TrainFits(nn, ins, outs) && s < |ins| && 0 < l < nn.layers && j <= nn.architecture[l]
  {
    var lo := WeightSums(sigmoid, nn, ins, outs, l - 1, s);
    assert HasShape(nn.ws[l - 1], nn.architecture[l - 1], nn.architecture[l]);
    && |prev| == nn.architecture[l - 1] && |w| == |lo.data|
    && (forall r :: 0 <= r < |prev| ==> prev[r] == Back(nn.ws[l - 1], Delta(sigmoid, nn, ins[s], outs[s], l), r, j))
    && ColumnsPartial(w, lo, WeightSums(sigmoid, nn, ins, outs, l - 1, s + 1), j, 0)
    && Prefix(b, BiasSums(sigmoid, nn, ins, outs, l - 1, s).data, BiasSums(sigmoid, nn, ins, outs, l - 1, s + 1).data, j)
  }

  /**
   * One pass of the `j` loop: `2 * da * dactf` into bias `j`, then the `k`
   * loop of column `j`.
   */
  method UnitBackward(sigmoid: real -> real, nn: NN, ins: seq<seq<real>>, outs: seq<seq<real>>, s: nat, l: nat, j: nat,
                      a: seq<real>, prevAct: seq<real>, da: seq<real>, prev: seq<real>, w: seq<real>, b: seq<real>)
    returns (prev': seq<real>, w': seq<real>, b': seq<real>)
    requires TrainFits(nn, ins, outs) && s < |ins| && 0 < l < nn.layers && j < nn.architecture[l]
    requires a == Act(sigmoid, nn, ins[s], l) && prevAct == Act(sigmoid, nn, ins[s], l - 1)
    requires da == GradA(sigmoid, nn, ins[s], outs[s], l)
    requires LinkPartial(sigmoid, nn, ins, outs, s, l, j, prev, w, b)
    ensures LinkPartial(sigmoid, nn, ins, outs, s, l, j + 1, prev', w', b')
  {
    var W := nn.ws[l - 1];
    assert HasShape(W, nn.architecture[l - 1], nn.architecture[l]);
    ghost var delta := Delta(sigmoid, nn, ins[s], outs[s], l);
    ghost var lo, hi := WeightSums(sigmoid, nn, ins, outs, l - 1, s), WeightSums(sigmoid, nn, ins, outs, l - 1, s + 1);
    ghost var blo, bhi := BiasSums(sigmoid, nn, ins, outs, l - 1, s).data, BiasSums(sigmoid, nn, ins, outs, l - 1, s + 1).data;
    var dj := 2.0 * da[j] * (a[j] * (1.0 - a[j]));
    DeltaIs(sigmoid, nn, ins[s], outs[s], l, a, da, j);
    BiasSumNext(sigmoid, nn, ins, outs, s, l, j);
    PrefixStep(b, blo, bhi, j);
    b' := b[j := b[j] + dj];
    ghost var t := ColumnTerms(sigmoid, nn, ins, outs, l - 1, j, s);
    ColumnSums(sigmoid, nn, ins, outs, s, l, j, lo, hi, t);
    ColumnTermsAre(sigmoid, nn, ins, outs, s, l, j, dj, prevAct);
    prev', w' := ColumnBackward(W, lo, hi, delta, t, prevAct, j, dj, prev, w);
  }

  /**
   * The `j` loop over row `l` for sample `s`, with its `k` loop over row
   * `l - 1`: each delta `2 * da * dactf` goes into bias `j`, times the
   * previous activation into weight `(k, j)`, and times the weight into
   * the previous row's gradient, which starts at zero.
   */
  method LinkBackward(sigmoid: real -> real, nn: NN, ins: seq<seq<real>>, outs: seq<seq<real>>, s: nat, l: nat,
                      a: seq<real>, prevAct: seq<real>, da: seq<real>, prev: seq<real>, w: seq<real>, b: seq<real>)
    returns (prev': seq<real>, w': seq<real>, b': seq<real>)
    requires TrainFits(nn, ins, outs) && s < |ins| && 0 < l < nn.layers
    requires a == Act(sigmoid, nn, ins[s], l) && prevAct == Act(sigmoid, nn, ins[s], l - 1)
    requires da == GradA(sigmoid, nn, ins[s], outs[s], l)
    requires |prev| == nn.architecture[l - 1] && forall k :: 0 <= k < |prev| ==> prev[k] == 0.0
    requires w == WeightSums(sigmoid, nn, ins, outs, l - 1, s).data
    requires b == BiasSums(sigmoid, nn, ins, outs, l - 1, s).data
    ensures prev' == GradA(sigmoid, nn, ins[s], outs[s], l - 1)
    ensures w' == WeightSums(sigmoid, nn, ins, outs, l - 1, s + 1).data
    ensures b' == BiasSums(sigmoid, nn, ins, outs, l - 1, s + 1).data
  {
    prev', w', b' := prev, w, b;
    var j := 0;
    while j < |a|
      invariant 0 <= j <= |a| && LinkPartial(sigmoid, nn, ins, outs, s, l, j, prev', w', b')
    {
      prev', w', b' := UnitBackward(sigmoid, nn, ins, outs, s, l, j, a, prevAct, da, prev', w', b');
      j := j + 1;
    }
    var W := nn.ws[l - 1];
    assert HasShape(W, nn.architecture[l - 1], nn.architecture[l]);
    ColumnsEnd(w', WeightSums(sigmoid, nn, ins, outs, l - 1, s), WeightSums(sigmoid, nn, ins, outs, l - 1, s + 1));
    PrefixAll(b', b, BiasSums(sigmoid, nn, ins, outs, l - 1, s + 1).data);
    assert GradA(sigmoid, nn, ins[s], outs[s], l - 1) == BackRow(W, Delta(sigmoid, nn, ins[s], outs[s], l));
  }

  // ---------------------------------------------------------------------
  // One sample

  /** The weight and bias data of every link hold the sums over the first `n` samples. */
  predicate SummedTo(sigmoid: real -> real, nn: NN, ins: seq<seq<real>>, outs: seq<seq<real>>,
                     gw: seq<seq<real>>, gb: seq<seq<real>>, n: nat)
    requires TrainFits(nn, ins, outs) && n <= |ins|
  {
    && |gw| == |nn.ws| && |gb| == |nn.ws|
    && (forall i :: 0 <= i < |nn.ws| ==> gw[i] == WeightSums(sigmoid, nn, ins, outs, i, n).data)
    && (forall i :: 0 <= i < |nn.ws| ==> gb[i] == BiasSums(sigmoid, nn, ins, outs, i, n).data)
  }

  /** Part way down the `l` loop of sample `s`: links from `l` on include the sample, those before do not yet. */
  predicate LinksFrom(sigmoid: real -> real, nn: NN, ins: seq<seq<real>>, outs: seq<seq<real>>,
                      gw: seq<seq<real>>, gb: seq<seq<real>>, s: nat, l: nat)
    requires TrainFits(nn, ins, outs) && s < |ins|
  {
    && |gw| == |nn.ws| && |gb| == |nn.ws|
    && (forall i :: 0 <= i < |nn.ws| ==> gw[i] == WeightSums(sigmoid, nn, ins, outs, i, if i < l then s else s + 1).data)
    && (forall i :: 0 <= i < |nn.ws| ==> gb[i] == BiasSums(sigmoid, nn, ins, outs, i, if i < l then s else s + 1).data)
  }

  /** The activation gradients of rows from `l` on are final; those before are still zero. */
  predicate GradsFrom(sigmoid: real -> real, nn: NN, input: seq<real>, target: seq<real>, ga: seq<seq<real>>, l: nat)
    requires Shaped(nn) && 0 < nn.layers && |input| == nn.architecture[0]
  {
    && |ga| == nn.layers
    && (forall k :: l <= k < nn.layers ==> ga[k] == GradA(sigmoid, nn, input, target, k))
    && (forall k :: 0 <= k < l && k < nn.layers ==> ga[k] == ZeroArray(nn.architecture[k]))
  }

  /**
   * The loop over the target row: entry `j` of the last activation gradient
   * becomes `output - target` for every `j` the target reaches, and the
   * entries beyond stay zero.
   */
  method SeedLast(out: seq<real>, target: seq<real>) returns (d: seq<real>)
    ensures d == Seed(out, target)
  {
    d := ZeroArray(|out|);
    var j := 0;
    while j < |target|
      invariant 0 <= j <= |target| && |d| == |out|
      invariant forall i :: 0 <= i < |d| ==> d[i] == if i < j && i < |target| then out[i] - target[i] else 0.0
    {
      if j < |d| {
        d := d[j := out[j] - target[j]];
      }
      j := j + 1;
    }
  }

  /**
   * The body of the sample loop, after `forward`: every activation gradient
   * reset to zero, the last one seeded, then the links from the last down
   * to the first, each adding the sample to its weights and biases.
   */
  method SampleBackward(sigmoid: real -> real, nn: NN, ins: seq<seq<real>>, outs: seq<seq<real>>, s: nat,
                        acts: seq<Mat>, gw: seq<seq<real>>, gb: seq<seq<real>>)
    returns (ga: seq<seq<real>>, gw': seq<seq<real>>, gb': seq<seq<real>>)
    requires TrainFits(nn, ins, outs) && s < |ins|
    requires |acts| == nn.layers && forall k :: 0 <= k < nn.layers ==> acts[k] == Layer(sigmoid, nn, ins[s], k)
    requires SummedTo(sigmoid, nn, ins, outs, gw, gb, s)
    ensures |ga| == nn.layers && forall k :: 0 <= k < nn.layers ==> ga[k] == GradA(sigmoid, nn, ins[s], outs[s], k)
    ensures SummedTo(sigmoid, nn, ins, outs, gw', gb', s + 1)
  {
    var last := nn.layers - 1;
    ga := seq(nn.layers, k requires 0 <= k < nn.layers => ZeroArray(nn.architecture[k]));
    var seed := SeedLast(acts[last].data, outs[s]);
    ga := ga[last := seed];
    gw', gb' := gw, gb;
    var l := last;
    while l > 0
      invariant 0 <= l <= last
      invariant GradsFrom(sigmoid, nn, ins[s], outs[s], ga, l)
      invariant LinksFrom(sigmoid, nn, ins, outs, gw', gb', s, l)
    {
      var prev, w, b := LinkBackward(sigmoid, nn, ins, outs, s, l, acts[l].data, acts[l - 1].data, ga[l], ga[l - 1], gw'[l - 1], gb'[l - 1]);
      ga, gw', gb' := ga[l - 1 := prev], gw'[l - 1 := w], gb'[l - 1 := b];
      l := l - 1;
    }
  }

  // ---------------------------------------------------------------------
  // The whole batch

  /** Before the first sample the sums are the zero matrices `zeroNN` starts from. */
  lemma SumsStart(sigmoid: real -> real, nn: NN, ins: seq<seq<real>>, outs: seq<seq<real>>, i: nat)
    requires TrainFits(nn, ins, outs) && i + 1 < nn.layers
    ensures WeightSums(sigmoid, nn, ins, outs, i, 0) == Zero(nn.architecture[i], nn.architecture[i + 1])
    ensures BiasSums(sigmoid, nn, ins, outs, i, 0) == Zero(1, nn.architecture[i + 1])
  {
    AllZero(WeightSums(sigmoid, nn, ins, outs, i, 0));
    var b := BiasSums(sigmoid, nn, ins, outs, i, 0);
    forall r, c | 0 <= r < b.rows && 0 <= c < b.cols
      ensures At(b, r, c) == 0.0
    {
      assert At(b, r, c) == b.data[c];
    }
    AllZero(b);
  }

  /** The gradient network the sample loop leaves, assembled from its rows, weights and biases. */
  lemma AssembleSums(sigmoid: real -> real, nn: NN, ins: seq<seq<real>>, outs: seq<seq<real>>,
                     ga: seq<seq<real>>, gw: seq<seq<real>>, gb: seq<seq<real>>)
    requires TrainFits(nn, ins, outs)
    requires |ga| == nn.layers && forall k :: 0 <= k < nn.layers ==> ga[k] == GradA(sigmoid, nn, ins[|ins| - 1], outs[|ins| - 1], k)
    requires SummedTo(sigmoid, nn, ins, outs, gw, gb, |ins|)
    ensures NN(nn.layers, nn.architecture,
               seq(nn.layers, k requires 0 <= k < nn.layers => Row(ga[k])),
               seq(|nn.ws|, i requires 0 <= i < |nn.ws| => Mat(nn.architecture[i], nn.architecture[i + 1], gw[i])),
               seq(|nn.ws|, i requires 0 <= i < |nn.ws| => Mat(1, nn.architecture[i + 1], gb[i])))
         == Sums(sigmoid, nn, ins, outs)
  {
    var sums := Sums(sigmoid, nn, ins, outs);
    var ws := seq(|nn.ws|, i requires 0 <= i < |nn.ws| => Mat(nn.architecture[i], nn.architecture[i + 1], gw[i]));
    var bs := seq(|nn.ws|, i requires 0 <= i < |nn.ws| => Mat(1, nn.architecture[i + 1], gb[i]));
    assert ws == sums.ws;
    assert bs == sums.bs;
  }

  /**
   * What sample `s` leaves behind: `nn`'s activation rows hold its forward
   * pass and the activation gradients are its own.
   */
  predicate Latest(sigmoid: real -> real, nn: NN, ins: seq<seq<real>>, outs: seq<seq<real>>, s: nat, after: NN, ga: seq<seq<real>>)
    requires TrainFits(nn, ins, outs) && s < |ins|
  {
    && after == nn.(acts := after.acts) && Shaped(after)
    && (forall k :: 0 <= k < nn.layers ==> after.acts[k] == Layer(sigmoid, nn, ins[s], k))
    && |ga| == nn.layers
    && (forall k :: 0 <= k < nn.layers ==> ga[k] == GradA(sigmoid, nn, ins[s], outs[s], k))
  }

  /** One pass of the sample loop: `forward(nn, input)`, then the backward loops. */
  method SampleStep(sigmoid: real -> real, nn: NN, ins: seq<seq<real>>, outs: seq<seq<real>>, s: nat,
                    before: NN, gw: seq<seq<real>>, gb: seq<seq<real>>)
    returns (after: NN, ga: seq<seq<real>>, gw': seq<seq<real>>, gb': seq<seq<real>>)
    requires TrainFits(nn, ins, outs) && s < |ins|
    requires before == nn.(acts := before.acts) && Shaped(before)
    requires SummedTo(sigmoid, nn, ins, outs, gw, gb, s)
    ensures Latest(sigmoid, nn, ins, outs, s, after, ga)
    ensures SummedTo(sigmoid, nn, ins, outs, gw', gb', s + 1)
  {
    var out;
    after, out := Forward(sigmoid, before, ins[s]);
    forall k | 0 <= k < nn.layers
      ensures after.acts[k] == Layer(sigmoid, nn, ins[s], k)
    {
      LayerIgnoresActivations(sigmoid, before, nn, ins[s], k);
    }
    ga, gw', gb' := SampleBackward(sigmoid, nn, ins, outs, s, after.acts, gw, gb);
  }

  /** `zeroNN(nn.architecture)`'s weight and bias data: the sums over no samples. */
  method ZeroSums(sigmoid: real -> real, nn: NN, ins: seq<seq<real>>, outs: seq<seq<real>>) returns (gw: seq<seq<real>>, gb: seq<seq<real>>)
    requires TrainFits(nn, ins, outs)
    ensures SummedTo(sigmoid, nn, ins, outs, gw, gb, 0)
  {
    var links := |nn.ws|;
    gw := seq(links, i requires 0 <= i < links => ZeroArray(nn.architecture[i] * nn.architecture[i + 1]));
    gb := seq(links, i requires 0 <= i < links => ZeroArray(nn.architecture[i + 1]));
    forall i | 0 <= i < links
      ensures gw[i] == WeightSums(sigmoid, nn, ins, outs, i, 0).data
      ensures gb[i] == BiasSums(sigmoid, nn, ins, outs, i, 0).data
    {
      SumsStart(sigmoid, nn, ins, outs, i);
      ZeroArrayMatrix(nn.architecture[i], nn.architecture[i + 1]);
      ZeroArrayMatrix(1, nn.architecture[i + 1]);
    }
  }

  /** The sample loop of `backprop`, from the zero gradient through every sample in order. */
  method SampleLoop(sigmoid: real -> real, nn: NN, ins: seq<seq<real>>, outs: seq<seq<real>>)
    returns (after: NN, ga: seq<seq<real>>, gw: seq<seq<real>>, gb: seq<seq<real>>)
    requires TrainFits(nn, ins, outs)
    ensures Latest(sigmoid, nn, ins, outs, |ins| - 1, after, ga)
    ensures SummedTo(sigmoid, nn, ins, outs, gw, gb, |ins|)
  {
    gw, gb := ZeroSums(sigmoid, nn, ins, outs);
    var s := 0;
    after, ga, gw, gb := SampleStep(sigmoid, nn, ins, outs, s, nn, gw, gb);
    s := s + 1;
    while s < |ins|
      invariant 0 < s <= |ins| && SummedTo(sigmoid, nn, ins, outs, gw, gb, s)
      invariant Latest(sigmoid, nn, ins, outs, s - 1, after, ga)
    {
      after, ga, gw, gb := SampleStep(sigmoid, nn, ins, outs, s, after, gw, gb);
      s := s + 1;
    }
  }

  /** The division loop over the gradient network the sample loop leaves. */
  method Finish(sigmoid: real -> real, nn: NN, ins: seq<seq<real>>, outs: seq<seq<real>>,
                ga: seq<seq<real>>, gw: seq<seq<real>>, gb: seq<seq<real>>) returns (g: NN)
    requires TrainFits(nn, ins, outs)
    requires |ga| == nn.layers && forall k :: 0 <= k < nn.layers ==> ga[k] == GradA(sigmoid, nn, ins[|ins| - 1], outs[|ins| - 1], k)
    requires SummedTo(sigmoid, nn, ins, outs, gw, gb, |ins|)
    ensures g == Backprop(sigmoid, nn, ins, outs)
  {
    var links := |nn.ws|;
    var sums := NN(nn.layers, nn.architecture,
                   seq(nn.layers, k requires 0 <= k < nn.layers => Row(ga[k])),
                   seq(links, i requires 0 <= i < links => Mat(nn.architecture[i], nn.architecture[i + 1], gw[i])),
                   seq(links, i requires 0 <= i < links => Mat(1, nn.architecture[i + 1], gb[i])));
    AssembleSums(sigmoid, nn, ins, outs, ga, gw, gb);
    g := AverageInPlace(sums, |ins| as real);
  }

  /**
   * `backprop(nn, ins, outs)` as written: the gradient network starts at
   * zero, each sample runs `forward` on `nn` and then the backward loops,
   * and every weight and bias is divided by the number of samples at the
   * end. The result is `Backprop`; `nn` comes back with only its activation
   * rows changed, holding the last sample's pass.
   */
  method BackpropInPlace(sigmoid: real -> real, nn: NN, ins: seq<seq<real>>, outs: seq<seq<real>>) returns (g: NN, after: NN)
    requires TrainFits(nn, ins, outs)
    ensures g == Backprop(sigmoid, nn, ins, outs)
    ensures after == nn.(acts := after.acts) && Shaped(after)
    ensures forall k :: 0 <= k < nn.layers ==> after.acts[k] == Layer(sigmoid, nn, ins[|ins| - 1], k)
  {
    var ga, gw, gb;
    after, ga, gw, gb := SampleLoop(sigmoid, nn, ins, outs);
    g := Finish(sigmoid, nn, ins, outs, ga, gw, gb);
  }
}
