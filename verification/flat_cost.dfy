/**
 * `getCost` and the finite-difference gradient of the two stand-alone
 * files. `getCost` runs `forward` on every input and adds up the squared
 * differences with the target row, then divides by the number of inputs;
 * src/neural.ts walks the entries of the output row, neural.ts those of the
 * target row. `numGrad` (src/neural.ts) and `finiteDiff` (neural.ts) nudge
 * every weight and bias by `eps` in turn, record the change of the cost
 * divided by `eps`, and put the saved value back.
 */
module FlatCost {
  import opened Prims
  import opened FlatMatrix
  import opened FlatNet
  import Loss

  /** Which entries `getCost` walks for each sample. */
  datatype Span = OverOutput | OverTarget

  /** The number of entries walked for an output row of `out` and a target row of `target` entries. */
  function Walked(span: Span, out: nat, target: nat): nat
  {
    match span
    case OverOutput => out
    case OverTarget => target
  }

  /**
   * One sample fits: the input is as wide as the first row, and the target
   * row covers every walked entry of an output row `outWidth` wide (at
   * least as wide when the output is walked, at most as wide when the
   * target is walked).
   */
  predicate SampleFits(span: Span, inWidth: nat, outWidth: nat, input: seq<real>, target: seq<real>)
  {
    && |input| == inWidth
    && match span
       case OverOutput => outWidth <= |target|
       case OverTarget => |target| <= outWidth
  }

  /**
   * What `getCost` needs of its arguments: a non-empty network, at least
   * one input (the sum is divided by their number), and a fitting target
   * row for each input.
   */
  predicate CostFits(span: Span, architecture: seq<nat>, ins: seq<seq<real>>, outs: seq<seq<real>>)
  {
    && 0 < |architecture| && 0 < |ins| <= |outs|
    && forall s :: 0 <= s < |ins| ==> SampleFits(span, architecture[0], architecture[|architecture| - 1], ins[s], outs[s])
  }

  /** `out - target` over the first `n` entries. */
  function Diffs(out: seq<real>, target: seq<real>, n: nat): (d: seq<real>)
    requires n <= |out| && n <= |target|
    ensures |d| == n && forall j :: 0 <= j < n ==> d[j] == out[j] - target[j]
  {
    seq(n, j requires 0 <= j < n => out[j] - target[j])
  }

  /** The squared error of one output row over the walked entries; never negative. */
  function SampleError(span: Span, out: seq<real>, target: seq<real>): (e: real)
    requires match span
             case OverOutput => |out| <= |target|
             case OverTarget => |target| <= |out|
    ensures 0.0 <= e
  {
    var n := Walked(span, |out|, |target|);
    Loss.RowSquaresNonNegative(Diffs(out, target, n), n);
    Loss.RowSquares(Diffs(out, target, n), n)
  }

  /** An output row that matches its target on every walked entry has no error. */
  lemma ExactSampleError(span: Span, out: seq<real>, target: seq<real>)
    requires match span
             case OverOutput => |out| <= |target|
             case OverTarget => |target| <= |out|
    requires forall j :: 0 <= j < Walked(span, |out|, |target|) ==> out[j] == target[j]
    ensures SampleError(span, out, target) == 0.0
  {
    var n := Walked(span, |out|, |target|);
    Loss.RowSquaresNonNegative(Diffs(out, target, n), n);
  }

  /** The squared error of sample `s`. */
  function SampleCost(sigmoid: real -> real, span: Span, nn: NN, ins: seq<seq<real>>, outs: seq<seq<real>>, s: nat): (e: real)
    requires Shaped(nn) && CostFits(span, nn.architecture, ins, outs) && s < |ins|
    ensures 0.0 <= e
  {
    assert SampleFits(span, nn.architecture[0], nn.architecture[nn.layers - 1], ins[s], outs[s]);
    SampleError(span, Output(sigmoid, nn, ins[s]), outs[s])
  }

  /** The running `cost` after the first `n` samples. */
  function TotalCost(sigmoid: real -> real, span: Span, nn: NN, ins: seq<seq<real>>, outs: seq<seq<real>>, n: nat): real
    requires Shaped(nn) && CostFits(span, nn.architecture, ins, outs) && n <= |ins|
  {
    if n == 0 then 0.0
    else TotalCost(sigmoid, span, nn, ins, outs, n - 1) + SampleCost(sigmoid, span, nn, ins, outs, n - 1)
  }

  /**
   * `getCost(nn, ins, outs)`: the summed squared error divided by the
   * number of inputs. It is never negative.
   */
  function GetCost(sigmoid: real -> real, span: Span, nn: NN, ins: seq<seq<real>>, outs: seq<seq<real>>): (cost: real)
    requires Shaped(nn) && CostFits(span, nn.architecture, ins, outs)
    ensures 0.0 <= cost
  {
    TotalNonNegative(sigmoid, span, nn, ins, outs, |ins|);
    TotalCost(sigmoid, span, nn, ins, outs, |ins|) / (|ins| as real)
  }

  lemma {:induction false} TotalNonNegative(sigmoid: real -> real, span: Span, nn: NN, ins: seq<seq<real>>, outs: seq<seq<real>>, n: nat)
    requires Shaped(nn) && CostFits(span, nn.architecture, ins, outs) && n <= |ins|
    ensures 0.0 <= TotalCost(sigmoid, span, nn, ins, outs, n)
  {
    if n > 0 {
      TotalNonNegative(sigmoid, span, nn, ins, outs, n - 1);
    }
  }

  /** Every walked output entry equals its target. */
  predicate PerfectFit(sigmoid: real -> real, span: Span, nn: NN, ins: seq<seq<real>>, outs: seq<seq<real>>)
    requires Shaped(nn) && CostFits(span, nn.architecture, ins, outs)
  {
    forall s, j :: 0 <= s < |ins| && 0 <= j < Walked(span, |Output(sigmoid, nn, ins[s])|, |outs[s]|) ==>
      Output(sigmoid, nn, ins[s])[j] == outs[s][j]
  }

  /** A network that reproduces every walked target entry costs nothing. */
  lemma PerfectFitCostsNothing(sigmoid: real -> real, span: Span, nn: NN, ins: seq<seq<real>>, outs: seq<seq<real>>)
    requires Shaped(nn) && CostFits(span, nn.architecture, ins, outs)
    requires PerfectFit(sigmoid, span, nn, ins, outs)
    ensures GetCost(sigmoid, span, nn, ins, outs) == 0.0
  {
    PerfectTotal(sigmoid, span, nn, ins, outs, |ins|);
  }

  lemma {:induction false} PerfectTotal(sigmoid: real -> real, span: Span, nn: NN, ins: seq<seq<real>>, outs: seq<seq<real>>, n: nat)
    requires Shaped(nn) && CostFits(span, nn.architecture, ins, outs) && n <= |ins|
    requires PerfectFit(sigmoid, span, nn, ins, outs)
    ensures TotalCost(sigmoid, span, nn, ins, outs, n) == 0.0
  {
    if n > 0 {
      PerfectTotal(sigmoid, span, nn, ins, outs, n - 1);
      assert SampleFits(span, nn.architecture[0], nn.architecture[nn.layers - 1], ins[n - 1], outs[n - 1]);
      ExactSampleError(span, Output(sigmoid, nn, ins[n - 1]), outs[n - 1]);
    }
  }

  /** When every target row is exactly as wide as the output row, the two files' costs agree. */
  lemma {:induction false} SpansAgree(sigmoid: real -> real, nn: NN, ins: seq<seq<real>>, outs: seq<seq<real>>, n: nat)
    requires Shaped(nn) && CostFits(OverOutput, nn.architecture, ins, outs) && n <= |ins|
    requires forall s :: 0 <= s < |ins| ==> |outs[s]| == nn.architecture[nn.layers - 1]
    ensures CostFits(OverTarget, nn.architecture, ins, outs)
    ensures TotalCost(sigmoid, OverOutput, nn, ins, outs, n) == TotalCost(sigmoid, OverTarget, nn, ins, outs, n)
  {
    if n > 0 {
      SpansAgree(sigmoid, nn, ins, outs, n - 1);
    }
  }

  /**
   * The cost reads the weights and biases only: two networks that differ
   * in their activation rows cost the same.
   */
  lemma {:induction false} CostIgnoresActivations(sigmoid: real -> real, span: Span, nn: NN, other: NN, ins: seq<seq<real>>, outs: seq<seq<real>>, n: nat)
    requires SameShape(nn, other) && nn.ws == other.ws && nn.bs == other.bs
    requires CostFits(span, nn.architecture, ins, outs) && n <= |ins|
    ensures TotalCost(sigmoid, span, nn, ins, outs, n) == TotalCost(sigmoid, span, other, ins, outs, n)
  {
    if n > 0 {
      CostIgnoresActivations(sigmoid, span, nn, other, ins, outs, n - 1);
      LayerIgnoresActivations(sigmoid, nn, other, ins[n - 1], nn.layers - 1);
    }
  }

  // ---------------------------------------------------------------------
  // numGrad and finiteDiff

  /** The network with flat entry `idx` of weight matrix `i` set to `v`. */
  function SetWeight(nn: NN, i: nat, idx: nat, v: real): (r: NN)
    requires Shaped(nn) && i < |nn.ws| && idx < |nn.ws[i].data|
    ensures SameShape(nn, r)
  {
    nn.(ws := nn.ws[i := nn.ws[i].(data := nn.ws[i].data[idx := v])])
  }

  /** The network with entry `k` of bias row `i` set to `v`. */
  function SetBias(nn: NN, i: nat, k: nat, v: real): (r: NN)
    requires Shaped(nn) && i < |nn.bs| && k < |nn.bs[i].data|
    ensures SameShape(nn, r)
  {
    nn.(bs := nn.bs[i := nn.bs[i].(data := nn.bs[i].data[k := v])])
  }

  /** Putting the saved value back undoes the nudge. */
  lemma RestoreWeight(nn: NN, i: nat, idx: nat, v: real)
    requires Shaped(nn) && i < |nn.ws| && idx < |nn.ws[i].data|
    ensures SetWeight(SetWeight(nn, i, idx, v), i, idx, nn.ws[i].data[idx]) == nn
  {
    assert nn.ws[i].data[idx := v][idx := nn.ws[i].data[idx]] == nn.ws[i].data;
  }

  lemma RestoreBias(nn: NN, i: nat, k: nat, v: real)
    requires Shaped(nn) && i < |nn.bs| && k < |nn.bs[i].data|
    ensures SetBias(SetBias(nn, i, k, v), i, k, nn.bs[i].data[k]) == nn
  {
    assert nn.bs[i].data[k := v][k := nn.bs[i].data[k]] == nn.bs[i].data;
  }

  /** The forward difference quotient of the cost at `probe`, a nudged copy of `nn`. */
  function Slope(sigmoid: real -> real, span: Span, nn: NN, probe: NN, ins: seq<seq<real>>, outs: seq<seq<real>>, eps: real): real
    requires SameShape(nn, probe) && CostFits(span, nn.architecture, ins, outs) && eps != 0.0
  {
    (GetCost(sigmoid, span, probe, ins, outs) - GetCost(sigmoid, span, nn, ins, outs)) / eps
  }

  /** The slope for weight `idx` of matrix `i`. */
  function WeightSlope(sigmoid: real -> real, span: Span, nn: NN, ins: seq<seq<real>>, outs: seq<seq<real>>, eps: real, i: nat, idx: nat): real
    requires Shaped(nn) && CostFits(span, nn.architecture, ins, outs) && eps != 0.0
    requires i < |nn.ws| && idx < |nn.ws[i].data|
  {
    Slope(sigmoid, span, nn, SetWeight(nn, i, idx, nn.ws[i].data[idx] + eps), ins, outs, eps)
  }

  /** The slope for entry `k` of bias row `i`. */
  function BiasSlope(sigmoid: real -> real, span: Span, nn: NN, ins: seq<seq<real>>, outs: seq<seq<real>>, eps: real, i: nat, k: nat): real
    requires Shaped(nn) && CostFits(span, nn.architecture, ins, outs) && eps != 0.0
    requires i < |nn.bs| && k < |nn.bs[i].data|
  {
    Slope(sigmoid, span, nn, SetBias(nn, i, k, nn.bs[i].data[k] + eps), ins, outs, eps)
  }

  /** The first `n` flat entries of `data` hold the slopes of weight matrix `i`. */
  predicate WeightSlopesUpTo(sigmoid: real -> real, span: Span, nn: NN, ins: seq<seq<real>>, outs: seq<seq<real>>, eps: real,
                             i: nat, data: seq<real>, n: nat)
    requires Shaped(nn) && CostFits(span, nn.architecture, ins, outs) && eps != 0.0
    requires i < |nn.ws| && n <= |data| == |nn.ws[i].data|
  {
    forall idx :: 0 <= idx < n ==> data[idx] == WeightSlope(sigmoid, span, nn, ins, outs, eps, i, idx)
  }

  /** The first `n` entries of `data` hold the slopes of bias row `i`. */
  predicate BiasSlopesUpTo(sigmoid: real -> real, span: Span, nn: NN, ins: seq<seq<real>>, outs: seq<seq<real>>, eps: real,
                           i: nat, data: seq<real>, n: nat)
    requires Shaped(nn) && CostFits(span, nn.architecture, ins, outs) && eps != 0.0
    requires i < |nn.bs| && n <= |data| == |nn.bs[i].data|
  {
    forall k :: 0 <= k < n ==> data[k] == BiasSlope(sigmoid, span, nn, ins, outs, eps, i, k)
  }

  /** `getCost` of two networks that differ only in their activation rows. */
  lemma GetCostIgnoresActivations(sigmoid: real -> real, span: Span, nn: NN, other: NN, ins: seq<seq<real>>, outs: seq<seq<real>>)
    requires SameShape(nn, other) && nn.ws == other.ws && nn.bs == other.bs
    requires CostFits(span, nn.architecture, ins, outs)
    ensures GetCost(sigmoid, span, nn, ins, outs) == GetCost(sigmoid, span, other, ins, outs)
  {
    CostIgnoresActivations(sigmoid, span, nn, other, ins, outs, |ins|);
  }

  /**
   * The weight slopes of two networks that differ only in their activation
   * rows agree: what `getCost`'s forward passes leave in `as` does not
   * change the later quotients.
   */
  lemma WeightSlopesIgnoreActivations(sigmoid: real -> real, span: Span, nn: NN, other: NN, ins: seq<seq<real>>, outs: seq<seq<real>>,
                                      eps: real, i: nat, wd: seq<real>)
    requires SameShape(nn, other) && nn.ws == other.ws && nn.bs == other.bs
    requires CostFits(span, nn.architecture, ins, outs) && eps != 0.0 && i < |nn.ws| && |wd| == |nn.ws[i].data|
    requires WeightSlopesUpTo(sigmoid, span, other, ins, outs, eps, i, wd, |wd|)
    ensures WeightSlopesUpTo(sigmoid, span, nn, ins, outs, eps, i, wd, |wd|)
  {
    GetCostIgnoresActivations(sigmoid, span, nn, other, ins, outs);
    forall idx | 0 <= idx < |wd|
      ensures wd[idx] == WeightSlope(sigmoid, span, nn, ins, outs, eps, i, idx)
    {
      var v := nn.ws[i].data[idx] + eps;
      GetCostIgnoresActivations(sigmoid, span, SetWeight(nn, i, idx, v), SetWeight(other, i, idx, v), ins, outs);
    }
  }

  /** The same for the bias slopes. */
  lemma BiasSlopesIgnoreActivations(sigmoid: real -> real, span: Span, nn: NN, other: NN, ins: seq<seq<real>>, outs: seq<seq<real>>,
                                    eps: real, i: nat, bd: seq<real>)
    requires SameShape(nn, other) && nn.ws == other.ws && nn.bs == other.bs
    requires CostFits(span, nn.architecture, ins, outs) && eps != 0.0 && i < |nn.bs| && |bd| == |nn.bs[i].data|
    requires BiasSlopesUpTo(sigmoid, span, other, ins, outs, eps, i, bd, |bd|)
    ensures BiasSlopesUpTo(sigmoid, span, nn, ins, outs, eps, i, bd, |bd|)
  {
    GetCostIgnoresActivations(sigmoid, span, nn, other, ins, outs);
    forall k | 0 <= k < |bd|
      ensures bd[k] == BiasSlope(sigmoid, span, nn, ins, outs, eps, i, k)
    {
      var v := nn.bs[i].data[k] + eps;
      GetCostIgnoresActivations(sigmoid, span, SetBias(nn, i, k, v), SetBias(other, i, k, v), ins, outs);
    }
  }

  /**
   * The `j`, `k` loops over weight matrix `i`: each weight is saved,
   * nudged, the quotient stored at the same position of the gradient's
   * matrix, and the saved value put back. The network comes back exactly
   * as it went in.
   */
  method WeightLoop(sigmoid: real -> real, span: Span, nn: NN, ins: seq<seq<real>>, outs: seq<seq<real>>, eps: real,
                    cost: real, i: nat, gw: Mat) returns (after: NN, r: Mat)
    requires Shaped(nn) && CostFits(span, nn.architecture, ins, outs) && eps != 0.0
    requires cost == GetCost(sigmoid, span, nn, ins, outs)
    requires i < |nn.ws| && HasShape(gw, nn.ws[i].rows, nn.ws[i].cols) && |gw.data| == |nn.ws[i].data|
    ensures SameShape(nn, after) && after.(acts := nn.acts) == nn
    ensures HasShape(r, gw.rows, gw.cols)
    ensures WeightSlopesUpTo(sigmoid, span, nn, ins, outs, eps, i, r.data, |r.data|)
  {
    after := nn;
    var data := gw.data;
    var j := 0;
    while j < after.ws[i].rows
      invariant after == nn && 0 <= j <= gw.rows && |data| == |gw.data|
      invariant j * gw.cols <= |data|
      invariant WeightSlopesUpTo(sigmoid, span, nn, ins, outs, eps, i, data, j * gw.cols)
    {
      var k := 0;
      while k < after.ws[i].cols
        invariant after == nn && 0 <= k <= gw.cols && |data| == |gw.data|
        invariant j * gw.cols + k <= |data|
        invariant WeightSlopesUpTo(sigmoid, span, nn, ins, outs, eps, i, data, j * gw.cols + k)
      {
        var at := Index(after.ws[i], j, k);
        var saved := At(after.ws[i], j, k);
        after := SetWeight(after, i, at, after.ws[i].data[at] + eps);
        data := data[Index(gw, j, k) := (GetCost(sigmoid, span, after, ins, outs) - cost) / eps];
        RestoreWeight(nn, i, at, nn.ws[i].data[at] + eps);
        after := SetWeight(after, i, at, saved);
        k := k + 1;
      }
      NextRow(j, gw.cols);
      j := j + 1;
    }
    r := gw.(data := data);
  }

  /**
   * The `k` loop over bias row `i`: the same save, nudge, record, restore
   * for each entry.
   */
  method BiasLoop(sigmoid: real -> real, span: Span, nn: NN, ins: seq<seq<real>>, outs: seq<seq<real>>, eps: real,
                  cost: real, i: nat, gb: Mat) returns (after: NN, r: Mat)
    requires Shaped(nn) && CostFits(span, nn.architecture, ins, outs) && eps != 0.0
    requires cost == GetCost(sigmoid, span, nn, ins, outs)
    requires i < |nn.bs| && HasShape(gb, 1, nn.bs[i].cols) && |gb.data| == |nn.bs[i].data|
    ensures SameShape(nn, after) && after.(acts := nn.acts) == nn
    ensures HasShape(r, 1, gb.cols)
    ensures BiasSlopesUpTo(sigmoid, span, nn, ins, outs, eps, i, r.data, |r.data|)
  {
    after := nn;
    var data := gb.data;
    var k := 0;
    while k < after.bs[i].cols
      invariant after == nn && 0 <= k <= gb.cols && |data| == gb.cols
      invariant BiasSlopesUpTo(sigmoid, span, nn, ins, outs, eps, i, data, k)
    {
      var saved := after.bs[i].data[k];
      after := SetBias(after, i, k, after.bs[i].data[k] + eps);
      data := data[k := (GetCost(sigmoid, span, after, ins, outs) - cost) / eps];
      RestoreBias(nn, i, k, nn.bs[i].data[k] + eps);
      after := SetBias(after, i, k, saved);
      k := k + 1;
    }
    r := gb.(data := data);
  }

  /**
   * One pass of the loop over the links: the weight loop and then the bias
   * loop of link `i`, run on `nn` as the earlier passes left it.
   */
  method LinkSlopes(sigmoid: real -> real, span: Span, nn: NN, before: NN, ins: seq<seq<real>>, outs: seq<seq<real>>, eps: real,
                    cost: real, i: nat, gw0: Mat, gb0: Mat) returns (after: NN, gw: Mat, gb: Mat)
    requires Shaped(nn) && CostFits(span, nn.architecture, ins, outs) && eps != 0.0
    requires SameShape(nn, before) && before.(acts := nn.acts) == nn
    requires cost == GetCost(sigmoid, span, nn, ins, outs)
    requires i < |nn.ws| && HasShape(gw0, nn.ws[i].rows, nn.ws[i].cols) && |gw0.data| == |nn.ws[i].data|
    requires HasShape(gb0, 1, nn.bs[i].cols) && |gb0.data| == |nn.bs[i].data|
    ensures SameShape(nn, after) && after.(acts := nn.acts) == nn
    ensures HasShape(gw, gw0.rows, gw0.cols) && HasShape(gb, 1, gb0.cols)
    ensures WeightSlopesUpTo(sigmoid, span, nn, ins, outs, eps, i, gw.data, |gw.data|)
    ensures BiasSlopesUpTo(sigmoid, span, nn, ins, outs, eps, i, gb.data, |gb.data|)
  {
    GetCostIgnoresActivations(sigmoid, span, nn, before, ins, outs);
    var mid;
    mid, gw := WeightLoop(sigmoid, span, before, ins, outs, eps, cost, i, gw0);
    GetCostIgnoresActivations(sigmoid, span, before, mid, ins, outs);
    after, gb := BiasLoop(sigmoid, span, mid, ins, outs, eps, cost, i, gb0);
    WeightSlopesIgnoreActivations(sigmoid, span, nn, before, ins, outs, eps, i, gw.data);
    BiasSlopesIgnoreActivations(sigmoid, span, nn, mid, ins, outs, eps, i, gb.data);
  }

  /** Every weight and bias entry of `g` holds its slope at `nn`. */
  predicate AllSlopes(sigmoid: real -> real, span: Span, nn: NN, ins: seq<seq<real>>, outs: seq<seq<real>>, eps: real, g: NN, n: nat)
    requires SameShape(nn, g) && CostFits(span, nn.architecture, ins, outs) && eps != 0.0
    requires n <= |nn.ws|
  {
    forall i :: 0 <= i < n ==>
      && |g.ws[i].data| == |nn.ws[i].data| && |g.bs[i].data| == |nn.bs[i].data|
      && WeightSlopesUpTo(sigmoid, span, nn, ins, outs, eps, i, g.ws[i].data, |g.ws[i].data|)
      && BiasSlopesUpTo(sigmoid, span, nn, ins, outs, eps, i, g.bs[i].data, |g.bs[i].data|)
  }

  /**
   * The body shared by `numGrad` and `finiteDiff`, starting from the
   * gradient network `g0` they allocate: the cost is measured once, then
   * the weights and biases of each link in turn. Every weight and bias of
   * the result is its slope, the activation rows are `g0`'s, and `nn` is
   * handed back unchanged.
   */
  method Slopes(sigmoid: real -> real, span: Span, nn: NN, ins: seq<seq<real>>, outs: seq<seq<real>>, eps: real, g0: NN)
    returns (g: NN, after: NN)
    requires Shaped(nn) && CostFits(span, nn.architecture, ins, outs) && eps != 0.0
    requires SameShape(nn, g0)
    ensures SameShape(nn, after) && after.(acts := nn.acts) == nn
    ensures SameShape(nn, g) && g.acts == g0.acts && g.layers == g0.layers
    ensures AllSlopes(sigmoid, span, nn, ins, outs, eps, g, |g.ws|)
  {
    var cost := GetCost(sigmoid, span, nn, ins, outs);
    g := g0;
    after := nn;
    var i := 0;
    while i < nn.layers - 1
      invariant after.(acts := nn.acts) == nn && SameShape(nn, after) && 0 <= i <= |nn.ws|
      invariant SameShape(nn, g) && g.acts == g0.acts && g.layers == g0.layers
      invariant AllSlopes(sigmoid, span, nn, ins, outs, eps, g, i)
    {
      var gw, gb;
      SameShapeParams(nn, g, i);
      after, gw, gb := LinkSlopes(sigmoid, span, nn, after, ins, outs, eps, cost, i, g.ws[i], g.bs[i]);
      g := g.(ws := g.ws[i := gw], bs := g.bs[i := gb]);
      i := i + 1;
    }
  }

  /** `numGrad(nn, ins, outs)` of src/neural.ts: `eps = 1e-4`, the gradient allocated by `initNN`. */
  method NumGrad(sigmoid: real -> real, nn: NN, ins: seq<seq<real>>, outs: seq<seq<real>>, rand: (nat, nat) -> real)
    returns (g: NN, after: NN)
    requires Shaped(nn) && CostFits(OverOutput, nn.architecture, ins, outs)
    ensures SameShape(nn, after) && after.(acts := nn.acts) == nn
    ensures SameShape(nn, g) && g.acts == ZeroRows(nn.architecture)
    ensures AllSlopes(sigmoid, OverOutput, nn, ins, outs, NumGradEps, g, |g.ws|)
  {
    g, after := Slopes(sigmoid, OverOutput, nn, ins, outs, NumGradEps, InitNN(nn.architecture, rand));
  }

  const NumGradEps: real := 0.0001

  /** `finiteDiff(nn, ins, outs, eps)` of neural.ts: the gradient allocated by the looping `initNN`, all zero. */
  method FiniteDiff(sigmoid: real -> real, nn: NN, ins: seq<seq<real>>, outs: seq<seq<real>>, eps: real)
    returns (g: NN, after: NN)
    requires Shaped(nn) && CostFits(OverTarget, nn.architecture, ins, outs) && eps != 0.0
    ensures SameShape(nn, after) && after.(acts := nn.acts) == nn
    ensures SameShape(nn, g) && g.acts == ZeroRows(nn.architecture)
    ensures AllSlopes(sigmoid, OverTarget, nn, ins, outs, eps, g, |g.ws|)
  {
    var g0 := InitNNRoot(nn.architecture);
    g, after := Slopes(sigmoid, OverTarget, nn, ins, outs, eps, g0);
  }

  /** `finiteDiff`'s default step. */
  const FiniteDiffEps: real := 0.001
}
