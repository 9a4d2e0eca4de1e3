/**
 * The network record of the two stand-alone files: `layers` counts the
 * activation rows, `architecture[k]` is the width of row `k`, `as[k]` is a
 * 1×architecture[k] matrix, and between rows `k` and `k + 1` sit the weights
 * `ws[k]` (architecture[k]×architecture[k+1]) and the biases `bs[k]`
 * (1×architecture[k+1]). The source's `as` is written `acts` here, since
 * `as` is a keyword.
 */
module FlatNet {
  import opened Prims
  import opened FlatMatrix

  datatype NN = NN(layers: nat, architecture: seq<nat>, acts: seq<Mat>, ws: seq<Mat>, bs: seq<Mat>)

  /** The number of weight (and bias) matrices of a network of `n` rows: `slice(0, -1)` of `n` entries. */
  function Links(n: nat): nat
  {
    if n == 0 then 0 else n - 1
  }

  /** Every activation row is 1×architecture[k]. */
  predicate ActsShaped(architecture: seq<nat>, acts: seq<Mat>)
  {
    |acts| == |architecture| && forall k :: 0 <= k < |acts| ==> HasShape(acts[k], 1, architecture[k])
  }

  /** Weights and biases sit between consecutive rows, shaped by the widths on both sides. */
  predicate ParamsShaped(architecture: seq<nat>, ws: seq<Mat>, bs: seq<Mat>)
  {
    && |ws| == Links(|architecture|) && |bs| == Links(|architecture|)
    && (forall i :: 0 <= i < |ws| ==> HasShape(ws[i], architecture[i], architecture[i + 1]))
    && (forall i :: 0 <= i < |bs| ==> HasShape(bs[i], 1, architecture[i + 1]))
  }

  /** The shape `initNN` and `zeroNN` build. */
  predicate Shaped(nn: NN)
  {
    && nn.layers == |nn.architecture|
    && ActsShaped(nn.architecture, nn.acts)
    && ParamsShaped(nn.architecture, nn.ws, nn.bs)
  }

  /** Two networks of the same architecture. */
  predicate SameShape(nn: NN, other: NN)
  {
    Shaped(nn) && Shaped(other) && nn.architecture == other.architecture
  }

  /** Weight matrix and bias row `i` of two networks of the same shape have the same dimensions. */
  lemma SameShapeParams(nn: NN, other: NN, i: nat)
    requires SameShape(nn, other) && i < |nn.ws|
    ensures HasShape(other.ws[i], nn.ws[i].rows, nn.ws[i].cols) && |other.ws[i].data| == |nn.ws[i].data|
    ensures HasShape(other.bs[i], 1, nn.bs[i].cols) && |other.bs[i].data| == |nn.bs[i].data|
  {
    assert HasShape(nn.ws[i], nn.architecture[i], nn.architecture[i + 1]);
    assert HasShape(other.ws[i], nn.architecture[i], nn.architecture[i + 1]);
  }

  // ---------------------------------------------------------------------
  // initNN, zeroNN and fillRand

  function Zero(rows: nat, cols: nat): (m: Mat)
    ensures HasShape(m, rows, cols)
  {
    Create(rows, cols, 0.0)
  }

  /** Zero activation rows, one per width. */
  function ZeroRows(architecture: seq<nat>): (acts: seq<Mat>)
    ensures ActsShaped(architecture, acts)
    ensures forall k :: 0 <= k < |acts| ==> acts[k] == Zero(1, architecture[k])
  {
    seq(|architecture|, k requires 0 <= k < |architecture| => Zero(1, architecture[k]))
  }

  /** Zero bias rows, one per link, each as wide as the row it feeds. */
  function ZeroBiases(architecture: seq<nat>): (bs: seq<Mat>)
    ensures |bs| == Links(|architecture|)
    ensures forall i :: 0 <= i < |bs| ==> bs[i] == Zero(1, architecture[i + 1])
  {
    seq(Links(|architecture|), i requires 0 <= i < Links(|architecture|) => Zero(1, architecture[i + 1]))
  }

  /** Zero weight matrices, one per link. */
  function ZeroWeights(architecture: seq<nat>): (ws: seq<Mat>)
    ensures |ws| == Links(|architecture|)
    ensures forall i :: 0 <= i < |ws| ==> ws[i] == Zero(architecture[i], architecture[i + 1])
  {
    seq(Links(|architecture|), i requires 0 <= i < Links(|architecture|) => Zero(architecture[i], architecture[i + 1]))
  }

  /** `randomMatrix` for every link: one generator value per weight matrix and flat position. */
  function DrawnWeights(architecture: seq<nat>, rand: (nat, nat) -> real): (ws: seq<Mat>)
    ensures |ws| == Links(|architecture|)
    ensures forall i :: 0 <= i < |ws| ==> HasShape(ws[i], architecture[i], architecture[i + 1])
    ensures forall i, idx :: 0 <= i < |ws| && 0 <= idx < |ws[i].data| ==> ws[i].data[idx] == rand(i, idx)
  {
    seq(Links(|architecture|), i requires 0 <= i < Links(|architecture|) => Drawn(architecture[i], architecture[i + 1], Curry(rand, i)))
  }

  /** The generator of matrix `i`. */
  function Curry(rand: (nat, nat) -> real, i: nat): (f: nat -> real)
    ensures forall idx :: f(idx) == rand(i, idx)
  {
    (idx: nat) => rand(i, idx)
  }

  /** A rows×cols matrix whose entries come from the generator, position by position. */
  function Drawn(rows: nat, cols: nat, rand: nat -> real): (m: Mat)
    ensures HasShape(m, rows, cols)
    ensures forall idx :: 0 <= idx < |m.data| ==> m.data[idx] == rand(idx)
  {
    Mat(rows, cols, seq(rows * cols, idx requires 0 <= idx => rand(idx)))
  }

  /**
   * `initNN(architecture)` of src/neural.ts: zero activations and biases,
   * weights from the generator (`randomMatrix`), one generator value per
   * weight matrix and flat position.
   */
  function InitNN(architecture: seq<nat>, rand: (nat, nat) -> real): (nn: NN)
    ensures Shaped(nn) && nn.architecture == architecture && nn.layers == |architecture|
    ensures forall k :: 0 <= k < |nn.acts| ==> nn.acts[k] == Zero(1, architecture[k])
    ensures forall i :: 0 <= i < |nn.bs| ==> nn.bs[i] == Zero(1, architecture[i + 1])
    ensures forall i, idx :: 0 <= i < |nn.ws| && 0 <= idx < |nn.ws[i].data| ==> nn.ws[i].data[idx] == rand(i, idx)
  {
    NN(|architecture|, architecture, ZeroRows(architecture), DrawnWeights(architecture, rand), ZeroBiases(architecture))
  }

  /** `zeroNN(architecture)`: the same shape with every entry zero. */
  function ZeroNN(architecture: seq<nat>): (nn: NN)
    ensures Shaped(nn) && nn.architecture == architecture && nn.layers == |architecture|
    ensures forall k :: 0 <= k < |nn.acts| ==> nn.acts[k] == Zero(1, architecture[k])
    ensures forall i :: 0 <= i < |nn.ws| ==> nn.ws[i] == Zero(architecture[i], architecture[i + 1])
    ensures forall i :: 0 <= i < |nn.bs| ==> nn.bs[i] == Zero(1, architecture[i + 1])
  {
    NN(|architecture|, architecture, ZeroRows(architecture), ZeroWeights(architecture), ZeroBiases(architecture))
  }

  /** `zeroNN` is `initNN` with a generator that always draws zero. */
  lemma ZeroNNIsZeroDraw(architecture: seq<nat>)
    ensures ZeroNN(architecture) == InitNN(architecture, (i, idx) => 0.0)
  {
    var z, r := ZeroNN(architecture), InitNN(architecture, (i, idx) => 0.0);
    assert z.ws == r.ws by {
      forall i | 0 <= i < |z.ws|
        ensures z.ws[i] == r.ws[i]
      {
        assert z.ws[i].data == r.ws[i].data;
      }
    }
  }

  /** `zeroArray(n)` of neural.ts: `n` zeros. */
  function ZeroArray(n: nat): (a: seq<real>)
    ensures |a| == n && forall i :: 0 <= i < n ==> a[i] == 0.0
  {
    seq(n, _ => 0.0)
  }

  /** A matrix record holding `zeroArray(rows * cols)` is the zero matrix `createMatrix` builds. */
  lemma ZeroArrayMatrix(rows: nat, cols: nat)
    ensures Mat(rows, cols, ZeroArray(rows * cols)) == Zero(rows, cols)
  {
    assert ZeroArray(rows * cols) == Zero(rows, cols).data;
  }

  /**
   * `initNN(layers)` of neural.ts: row 0 first, then for each further width
   * the weights from the previous row (whose width is read back from
   * `as[i - 1].cols`), the biases and the row itself, all zero. It builds
   * exactly `zeroNN`.
   */
  method InitNNRoot(widths: seq<nat>) returns (nn: NN)
    requires 0 < |widths|
    ensures nn == ZeroNN(widths)
  {
    ZeroArrayMatrix(1, widths[0]);
    var acts := [Mat(1, widths[0], ZeroArray(widths[0]))];
    var ws: seq<Mat> := [];
    var bs: seq<Mat> := [];
    var i := 1;
    while i < |widths|
      invariant 1 <= i <= |widths|
      invariant |acts| == i && |ws| == i - 1 && |bs| == i - 1
      invariant forall k :: 0 <= k < i ==> acts[k] == Zero(1, widths[k])
      invariant forall k :: 0 <= k < i - 1 ==> ws[k] == Zero(widths[k], widths[k + 1])
      invariant forall k :: 0 <= k < i - 1 ==> bs[k] == Zero(1, widths[k + 1])
    {
      var rows := acts[i - 1].cols;
      ZeroArrayMatrix(rows, widths[i]);
      ZeroArrayMatrix(1, widths[i]);
      ws := ws + [Mat(rows, widths[i], ZeroArray(rows * widths[i]))];
      bs := bs + [Mat(1, widths[i], ZeroArray(widths[i]))];
      acts := acts + [Mat(1, widths[i], ZeroArray(widths[i]))];
      i := i + 1;
    }
    assert acts == ZeroRows(widths) && ws == ZeroWeights(widths) && bs == ZeroBiases(widths);
    nn := NN(|widths|, widths, acts, ws, bs);
  }

  /**
   * `fillRand(nn)`: for each of the first `layers - 1` links, fresh weight
   * and bias data of exactly rows×cols entries drawn from the generators;
   * shapes, activations and any further matrices are left alone.
   */
  function FillRand(nn: NN, wRand: (nat, nat) -> real, bRand: (nat, nat) -> real): (r: NN)
    requires Links(nn.layers) <= |nn.ws| && Links(nn.layers) <= |nn.bs|
    ensures r.layers == nn.layers && r.architecture == nn.architecture && r.acts == nn.acts
    ensures Redrawn(nn.ws, r.ws, Links(nn.layers), wRand) && Redrawn(nn.bs, r.bs, Links(nn.layers), bRand)
  {
    nn.(ws := Redraw(nn.ws, Links(nn.layers), wRand), bs := Redraw(nn.bs, Links(nn.layers), bRand))
  }

  /**
   * `after` is `before` with the data of its first `n` matrices replaced by
   * exactly rows×cols generator values; shapes and the other matrices are
   * unchanged.
   */
  predicate Redrawn(before: seq<Mat>, after: seq<Mat>, n: nat, rand: (nat, nat) -> real)
  {
    && n <= |before| && |after| == |before|
    && (forall i :: 0 <= i < |after| ==> after[i].rows == before[i].rows && after[i].cols == before[i].cols)
    && (forall i :: 0 <= i < n ==> WellFormed(after[i]))
    && (forall i, idx :: 0 <= i < n && 0 <= idx < |after[i].data| ==> after[i].data[idx] == rand(i, idx))
    && (forall i :: n <= i < |after| ==> after[i] == before[i])
  }

  /** `randArray(rows * cols, -1, 1)` for each of the first `n` matrices. */
  function Redraw(ms: seq<Mat>, n: nat, rand: (nat, nat) -> real): (r: seq<Mat>)
    requires n <= |ms|
    ensures Redrawn(ms, r, n, rand)
  {
    seq(|ms|, i requires 0 <= i < |ms| => if i < n then Drawn(ms[i].rows, ms[i].cols, Curry(rand, i)) else ms[i])
  }

  /** On a shaped network `fillRand` keeps the shape. */
  lemma FillRandKeepsShape(nn: NN, wRand: (nat, nat) -> real, bRand: (nat, nat) -> real)
    requires Shaped(nn)
    ensures SameShape(nn, FillRand(nn, wRand, bRand))
  {
  }

  // ---------------------------------------------------------------------
  // forward

  /** The input vector as the 1×n matrix `forward` puts in `as[0]`. */
  function Row(v: seq<real>): (m: Mat)
    ensures HasShape(m, 1, |v|) && m.data == v
  {
    Mat(1, |v|, v)
  }

  /**
   * Row `k` of a forward pass on `input`, layer by layer from the input
   * row: the reference the in-place loop is measured against.
   */
  function Layer(sigmoid: real -> real, nn: NN, input: seq<real>, k: nat): (m: Mat)
    requires Shaped(nn) && k < nn.layers && |input| == nn.architecture[0]
    ensures HasShape(m, 1, nn.architecture[k])
    decreases k, 1
  {
    if k == 0 then Row(input) else Step(sigmoid, nn, input, k)
  }

  /**
   * One pass of `forward`'s loop, producing row `k` from row `k - 1`:
   * `multiplyMatrix(as[k - 1], ws[k - 1], as[k])`, `sumMatrix(as[k], bs[k - 1])`,
   * `activateMatrix(as[k])`.
   */
  function Step(sigmoid: real -> real, nn: NN, input: seq<real>, k: nat): (m: Mat)
    requires Shaped(nn) && 0 < k < nn.layers && |input| == nn.architecture[0]
    ensures HasShape(m, 1, nn.architecture[k])
    decreases k, 0
  {
    Activate(sigmoid, SumInto(Multiply(Layer(sigmoid, nn, input, k - 1), nn.ws[k - 1], nn.acts[k]).value, nn.bs[k - 1]))
  }

  /** The data `forward` returns: the last row. */
  function Output(sigmoid: real -> real, nn: NN, input: seq<real>): (out: seq<real>)
    requires Shaped(nn) && 0 < nn.layers && |input| == nn.architecture[0]
    ensures |out| == nn.architecture[nn.layers - 1]
  {
    Layer(sigmoid, nn, input, nn.layers - 1).data
  }

  /** With a squashing sigmoid, every row past the input lies strictly between 0 and 1. */
  lemma LayerInUnitInterval(sigmoid: real -> real, nn: NN, input: seq<real>, k: nat, j: nat)
    requires Squashes(sigmoid)
    requires Shaped(nn) && 0 < k < nn.layers && |input| == nn.architecture[0]
    requires j < nn.architecture[k]
    ensures 0.0 < Layer(sigmoid, nn, input, k).data[j] < 1.0
  {
    var m := Layer(sigmoid, nn, input, k);
    assert m == Step(sigmoid, nn, input, k);
    assert m.data[j] == At(m, 0, j);
  }

  /**
   * The pass does not read what the activation rows held before: two
   * networks that differ only there compute the same rows.
   */
  lemma {:induction false} LayerIgnoresActivations(sigmoid: real -> real, nn: NN, other: NN, input: seq<real>, k: nat)
    requires SameShape(nn, other) && nn.ws == other.ws && nn.bs == other.bs
    requires k < nn.layers && |input| == nn.architecture[0]
    ensures Layer(sigmoid, nn, input, k) == Layer(sigmoid, other, input, k)
  {
    if k > 0 {
      LayerIgnoresActivations(sigmoid, nn, other, input, k - 1);
      var prev := Layer(sigmoid, nn, input, k - 1);
      MultiplyOverwrites(prev, nn.ws[k - 1], nn.acts[k], other.acts[k]);
      assert Layer(sigmoid, nn, input, k) == Step(sigmoid, nn, input, k) == Step(sigmoid, other, input, k);
    }
  }

  /** Rows `0..i` of `acts` already hold the reference rows. */
  predicate Through(sigmoid: real -> real, nn: NN, input: seq<real>, acts: seq<Mat>, i: nat)
    requires Shaped(nn) && i < nn.layers && |input| == nn.architecture[0]
  {
    |acts| == nn.layers && forall k :: 0 <= k <= i ==> acts[k] == Layer(sigmoid, nn, input, k)
  }

  lemma ExtendThrough(sigmoid: real -> real, nn: NN, input: seq<real>, acts: seq<Mat>, i: nat, next: Mat)
    requires Shaped(nn) && i + 1 < nn.layers && |input| == nn.architecture[0]
    requires Through(sigmoid, nn, input, acts, i) && next == Layer(sigmoid, nn, input, i + 1)
    ensures Through(sigmoid, nn, input, acts[i + 1 := next], i + 1)
  {
  }

  /**
   * `forward(nn, input)`: `as[0]` takes the input, and each later row is
   * overwritten in index order from the row before, as in `Step`. Weights,
   * biases and shapes are untouched; every row ends equal to the reference
   * `Layer`, and the returned data is the last row.
   */
  method Forward(sigmoid: real -> real, nn: NN, input: seq<real>) returns (r: NN, out: seq<real>)
    requires Shaped(nn) && 0 < nn.layers && |input| == nn.architecture[0]
    ensures SameShape(nn, r) && r == nn.(acts := r.acts)
    ensures forall k :: 0 <= k < nn.layers ==> r.acts[k] == Layer(sigmoid, nn, input, k)
    ensures out == Output(sigmoid, nn, input)
  {
    var acts := nn.acts[0 := Row(input)];
    var i := 0;
    while i < nn.layers - 1
      invariant 0 <= i < nn.layers && ActsShaped(nn.architecture, acts)
      invariant Through(sigmoid, nn, input, acts, i)
      invariant forall k :: i < k < nn.layers ==> acts[k] == nn.acts[k]
    {
      var product := Multiply(acts[i], nn.ws[i], acts[i + 1]).value;
      var next := Activate(sigmoid, SumInto(product, nn.bs[i]));
      assert next == Step(sigmoid, nn, input, i + 1) == Layer(sigmoid, nn, input, i + 1);
      ExtendThrough(sigmoid, nn, input, acts, i, next);
      acts := acts[i + 1 := next];
      i := i + 1;
    }
    r := nn.(acts := acts);
    out := acts[nn.layers - 1].data;
  }
}
