/**
 * The simple recurrent layer: `forward` runs the sequence through
 * `h_t = tanh(Win·x_t + Wrec·h_{t-1} + b)` from a zero state and records the
 * inputs and hidden states; `backward` walks the recorded steps from the last
 * to the first (backpropagation through time), accumulates all three
 * gradients, and only then applies Adam to every parameter tensor with the
 * gradients divided by the sequence length.
 */
module Recurrent {
  import opened Prims
  import opened Vectors
  import opened Adam

  datatype Rnn = Rnn(
    inputSize: nat,
    hiddenSize: nat,
    inputWeights: AdamMatrix,      // inputWeights, mInputWeights, vInputWeights
    recurrentWeights: AdamMatrix,  // recurrentWeights, mRecurrentWeights, vRecurrentWeights
    biases: AdamVector,            // biases, mBiases, vBiases
    hiddenState: Vector,
    lastInputs: seq<Vector>,
    lastHiddenStates: seq<Vector>,
    adamT: nat)

  /** Parameters and moments are shaped by the two sizes. */
  predicate ParamsShaped(r: Rnn)
  {
    && MatrixShaped(r.inputWeights, r.hiddenSize, r.inputSize)
    && MatrixShaped(r.recurrentWeights, r.hiddenSize, r.hiddenSize)
    && VectorShaped(r.biases, r.hiddenSize)
  }

  /** The layer's invariant: shaped parameters, a hidden state of width hiddenSize, and one recorded hidden state per recorded input. */
  predicate Valid(r: Rnn)
  {
    && ParamsShaped(r)
    && |r.hiddenState| == r.hiddenSize
    && IsShape(r.lastHiddenStates, |r.lastInputs|, r.hiddenSize)
    && AllAtLeast(r.lastInputs, r.inputSize)
  }

  /**
   * `new SimpleRNN(inputSize, hiddenSize)`: parameters drawn from the
   * generators, every moment zero, a zero hidden state, empty caches and a
   * step counter of 0.
   */
  function New(inputSize: nat, hiddenSize: nat, inInit: (nat, nat) -> real, recInit: (nat, nat) -> real,
               bInit: nat -> real): (r: Rnn)
    ensures Valid(r) && r.inputSize == inputSize && r.hiddenSize == hiddenSize
    ensures IsShape(r.inputWeights.param, hiddenSize, inputSize)
    ensures IsShape(r.recurrentWeights.param, hiddenSize, hiddenSize)
    ensures |r.biases.param| == hiddenSize
    ensures forall i, j :: 0 <= i < hiddenSize && 0 <= j < inputSize ==> r.inputWeights.param[i][j] == inInit(i, j)
    ensures forall i, j :: 0 <= i < hiddenSize && 0 <= j < hiddenSize ==> r.recurrentWeights.param[i][j] == recInit(i, j)
    ensures forall i :: 0 <= i < hiddenSize ==> r.biases.param[i] == bInit(i)
    ensures MatrixFresh(r.inputWeights) && MatrixFresh(r.recurrentWeights) && VectorFresh(r.biases)
    ensures AllZero(r.hiddenState)
    ensures r.lastInputs == [] && r.lastHiddenStates == [] && r.adamT == 0
  {
    Rnn(inputSize, hiddenSize,
        NewMatrix(InitializeMatrix(hiddenSize, inputSize, inInit), hiddenSize, inputSize),
        NewMatrix(InitializeMatrix(hiddenSize, hiddenSize, recInit), hiddenSize, hiddenSize),
        NewVector(InitializeVector(hiddenSize, bInit)),
        Zeros(hiddenSize), [], [], 0)
  }

  // ---------------------------------------------------------------------
  // Forward

  /** One step of the recurrence: `tanh(Win·x + Wrec·h + b)`. */
  function Cell(tanh: real -> real, r: Rnn, h: Vector, x: Vector): (c: Vector)
    requires ParamsShaped(r) && |h| == r.hiddenSize && r.inputSize <= |x|
    ensures |c| == r.hiddenSize
    ensures forall i :: 0 <= i < r.hiddenSize ==>
              c[i] == tanh(Sum(Products(r.inputWeights.param[i], x))
                           + Sum(Products(r.recurrentWeights.param[i], h))
                           + r.biases.param[i])
  {
    var summed := AddVectors(AddVectors(MatVec(r.inputWeights.param, x), MatVec(r.recurrentWeights.param, h)),
                             r.biases.param);
    seq(r.hiddenSize, i requires 0 <= i < r.hiddenSize => tanh(summed[i]))
  }

  /** The hidden state before step `t`: zero at the start, the state after step `t-1` otherwise. */
  function Prev(hs: seq<Vector>, t: nat, n: nat): (h: Vector)
    requires t <= |hs| && IsShape(hs, |hs|, n)
    ensures |h| == n
    ensures t == 0 ==> h == Zeros(n)
    ensures 0 < t ==> h == hs[t - 1]
  {
    if t == 0 then Zeros(n) else hs[t - 1]
  }

  /** Step `t` of `hs` is the recurrence applied to input `t` and the state before step `t`. */
  predicate Recurs(tanh: real -> real, r: Rnn, hs: seq<Vector>, xs: seq<Vector>, t: nat)
    requires ParamsShaped(r) && AllAtLeast(xs, r.inputSize) && IsShape(hs, |hs|, r.hiddenSize)
    requires t < |hs| && t < |xs|
  {
    hs[t] == Cell(tanh, r, Prev(hs, t, r.hiddenSize), xs[t])
  }

  /** The hidden states of a run over `xs` from the zero state, built step by step. */
  function Hidden(tanh: real -> real, r: Rnn, xs: seq<Vector>): (hs: seq<Vector>)
    requires ParamsShaped(r) && AllAtLeast(xs, r.inputSize)
    ensures IsShape(hs, |xs|, r.hiddenSize)
    ensures forall t :: 0 <= t < |xs| ==> Recurs(tanh, r, hs, xs, t)
    decreases |xs|
  {
    if |xs| == 0 then []
    else
      var n := |xs| - 1;
      var hs := Hidden(tanh, r, xs[..n]);
      var all := hs + [Cell(tanh, r, Prev(hs, n, r.hiddenSize), xs[n])];
      HiddenSnoc(tanh, r, xs, xs[..n], hs, all);
      all
  }

  /** Appending the next step keeps every earlier step's recurrence. */
  lemma HiddenSnoc(tanh: real -> real, r: Rnn, xs: seq<Vector>, prefix: seq<Vector>, hs: seq<Vector>, all: seq<Vector>)
    requires ParamsShaped(r) && AllAtLeast(xs, r.inputSize) && 0 < |xs|
    requires IsShape(hs, |xs| - 1, r.hiddenSize)
    requires prefix == xs[..|xs| - 1]
    requires forall t :: 0 <= t < |xs| - 1 ==> Recurs(tanh, r, hs, prefix, t)
    requires all == hs + [Cell(tanh, r, Prev(hs, |xs| - 1, r.hiddenSize), xs[|xs| - 1])]
    ensures IsShape(all, |xs|, r.hiddenSize)
    ensures forall t :: 0 <= t < |xs| ==> Recurs(tanh, r, all, xs, t)
  {
    ShapeSnoc(hs, Cell(tanh, r, Prev(hs, |xs| - 1, r.hiddenSize), xs[|xs| - 1]), r.hiddenSize);
    forall t | 0 <= t < |xs|
      ensures Recurs(tanh, r, all, xs, t)
    {
      HiddenSnocAt(tanh, r, xs, prefix, hs, all, t);
    }
  }

  lemma ShapeSnoc(m: Matrix, row: Vector, cols: nat)
    requires IsShape(m, |m|, cols) && |row| == cols
    ensures IsShape(m + [row], |m| + 1, cols)
  {
    assert forall i :: 0 <= i < |m| ==> (m + [row])[i] == m[i];
  }

  lemma HiddenSnocAt(tanh: real -> real, r: Rnn, xs: seq<Vector>, prefix: seq<Vector>, hs: seq<Vector>, all: seq<Vector>,
                     t: nat)
    requires ParamsShaped(r) && AllAtLeast(xs, r.inputSize) && t < |xs|
    requires IsShape(hs, |xs| - 1, r.hiddenSize)
    requires prefix == xs[..|xs| - 1]
    requires t < |xs| - 1 ==> Recurs(tanh, r, hs, prefix, t)
    requires all == hs + [Cell(tanh, r, Prev(hs, |xs| - 1, r.hiddenSize), xs[|xs| - 1])]
    requires IsShape(all, |xs|, r.hiddenSize)
    ensures Recurs(tanh, r, all, xs, t)
  {
    var n := |xs| - 1;
    var h := Prev(hs, t, r.hiddenSize);
    assert Prev(all, t, r.hiddenSize) == h by {
      if 0 < t {
        assert all[t - 1] == hs[t - 1];
      }
    }
    if t < n {
      assert all[t] == hs[t];
      assert prefix[t] == xs[t];
    } else {
      assert all[n] == Cell(tanh, r, Prev(hs, n, r.hiddenSize), xs[n]);
    }
  }

  datatype Pass = Pass(layer: Rnn, out: seq<Vector>)

  /**
   * `forward(sequence)`: both caches and the hidden state are reset first;
   * there is one hidden-width output per step, the hidden-state cache equals
   * the outputs, the input cache is the sequence, the hidden state is the
   * last output, and nothing else changes.
   */
  function Forward(tanh: real -> real, r: Rnn, sequence: seq<Vector>): (p: Pass)
    requires Valid(r) && AllAtLeast(sequence, r.inputSize)
    ensures Valid(p.layer)
    ensures p.layer == r.(hiddenState := p.layer.hiddenState, lastInputs := sequence, lastHiddenStates := p.out)
    ensures IsShape(p.out, |sequence|, r.hiddenSize)
    ensures p.layer.hiddenState == Prev(p.out, |sequence|, r.hiddenSize)
  {
    var hs := Hidden(tanh, r, sequence);
    Pass(r.(hiddenState := Prev(hs, |hs|, r.hiddenSize), lastInputs := sequence, lastHiddenStates := hs), hs)
  }

  /**
   * Output `t` of `forward` is the recurrence applied to input `t` and the
   * previous output, the zero state before the first.
   */
  lemma ForwardRecurrence(tanh: real -> real, r: Rnn, sequence: seq<Vector>)
    requires Valid(r) && AllAtLeast(sequence, r.inputSize)
    ensures var hs := Forward(tanh, r, sequence).out;
            forall t :: 0 <= t < |sequence| ==> hs[t] == Cell(tanh, r, Prev(hs, t, r.hiddenSize), sequence[t])
  {
    var hs := Forward(tanh, r, sequence).out;
    forall t | 0 <= t < |sequence|
      ensures hs[t] == Cell(tanh, r, Prev(hs, t, r.hiddenSize), sequence[t])
    {
      assert Recurs(tanh, r, hs, sequence, t);
    }
  }

  /** Two layers agree on their sizes and on the three parameter tensors. */
  predicate SameParams(a: Rnn, b: Rnn)
  {
    && a.inputSize == b.inputSize && a.hiddenSize == b.hiddenSize
    && a.inputWeights.param == b.inputWeights.param
    && a.recurrentWeights.param == b.recurrentWeights.param
    && a.biases.param == b.biases.param
  }

  /**
   * No state carries across calls of `forward`: two layers with the same
   * parameters produce the same hidden states, whatever their caches, hidden
   * states, moments or step counters hold.
   */
  lemma {:induction false} HiddenDependsOnlyOnParams(tanh: real -> real, a: Rnn, b: Rnn, xs: seq<Vector>)
    requires ParamsShaped(a) && ParamsShaped(b) && SameParams(a, b) && AllAtLeast(xs, a.inputSize)
    ensures Hidden(tanh, a, xs) == Hidden(tanh, b, xs)
    decreases |xs|
  {
    if |xs| > 0 {
      HiddenDependsOnlyOnParams(tanh, a, b, xs[..|xs| - 1]);
    }
  }

  // ---------------------------------------------------------------------
  // Backward through time

  /** Every recorded step has a row of `dOut` at least hiddenSize wide. */
  predicate GradientFits(r: Rnn, dOut: seq<Vector>)
  {
    |r.lastInputs| <= |dOut| && forall t :: 0 <= t < |r.lastInputs| ==> r.hiddenSize <= |dOut[t]|
  }

  /**
   * The local gradient of one step: `dTotal = dOut_t + dHiddenNext`,
   * `dTanh = 1 - h²` from the recorded hidden state `h` (not from a
   * pre-activation), and `dPre = clipValue(dTotal * dTanh, 1)` entrywise.
   */
  function LocalGradient(clip: Clip, dOutT: Vector, next: Vector, h: Vector, n: nat): (dp: Vector)
    requires n <= |dOutT| && n <= |next| && n <= |h|
    ensures |dp| == n
  {
    var dTotal := seq(n, i requires 0 <= i < n => dOutT[i] + next[i]);
    var dTanh := seq(n, i requires 0 <= i < n => 1.0 - h[i] * h[i]);
    seq(n, i requires 0 <= i < n => clip(dTotal[i] * dTanh[i], 1.0))
  }

  /** `dPre` at step `t`, from `dOut[t]`, the gradient arriving from step `t+1` and the recorded `h_t`. */
  function DPreAt(clip: Clip, r: Rnn, dOut: seq<Vector>, t: nat): (dp: Vector)
    requires Valid(r) && GradientFits(r, dOut) && t < |r.lastInputs|
    ensures |dp| == r.hiddenSize
    decreases |r.lastInputs| - t, 1
  {
    LocalGradient(clip, dOut[t], DHiddenNext(clip, r, dOut, t), r.lastHiddenStates[t], r.hiddenSize)
  }

  /**
   * The gradient flowing into step `t` from step `t+1`: zero for the last
   * step, otherwise `Wrecᵀ·dPre_{t+1}` with the recurrent weights before the
   * update.
   */
  function DHiddenNext(clip: Clip, r: Rnn, dOut: seq<Vector>, t: nat): (dh: Vector)
    requires Valid(r) && GradientFits(r, dOut) && t < |r.lastInputs|
    ensures |dh| == r.hiddenSize
    decreases |r.lastInputs| - t, 0
  {
    if t + 1 == |r.lastInputs| then Zeros(r.hiddenSize)
    else TransposeMatVec(r.recurrentWeights.param, DPreAt(clip, r, dOut, t + 1), r.hiddenSize)
  }

  /** `dPre` for every step. */
  function DPres(clip: Clip, r: Rnn, dOut: seq<Vector>): (ds: seq<Vector>)
    requires Valid(r) && GradientFits(r, dOut)
    ensures IsShape(ds, |r.lastInputs|, r.hiddenSize)
  {
    seq(|r.lastInputs|, t requires 0 <= t < |r.lastInputs| => DPreAt(clip, r, dOut, t))
  }

  /** The previous hidden state of every step (`prevHidden`). */
  function Prevs(r: Rnn): (ps: seq<Vector>)
    requires Valid(r)
    ensures IsShape(ps, |r.lastInputs|, r.hiddenSize)
    ensures forall t :: 0 <= t < |r.lastInputs| ==> ps[t] == Prev(r.lastHiddenStates, t, r.hiddenSize)
  {
    seq(|r.lastInputs|, t requires 0 <= t < |r.lastInputs| => Prev(r.lastHiddenStates, t, r.hiddenSize))
  }

  /** `dInputs[t] = Winᵀ·dPre_t` for every step. */
  function InputGradients(w: Matrix, ds: seq<Vector>, rows: nat, cols: nat): (g: seq<Vector>)
    requires IsShape(w, rows, cols) && AllAtLeast(ds, rows)
    ensures IsShape(g, |ds|, cols)
    ensures forall t, k :: 0 <= t < |ds| && 0 <= k < cols ==> g[t][k] == Sum(Products(Column(w, k), ds[t]))
  {
    seq(|ds|, t requires 0 <= t < |ds| => TransposeMatVec(w, ds[t], cols))
  }

  /**
   * BPTT gradients only flow backwards in time: `dPre` at step `t` depends
   * on the output gradients of steps `t` and later, never on earlier ones.
   */
  lemma {:induction false} DPreIsCausal(clip: Clip, r: Rnn, d1: seq<Vector>, d2: seq<Vector>, t: nat)
    requires Valid(r) && GradientFits(r, d1) && GradientFits(r, d2) && t < |r.lastInputs|
    requires forall s :: t <= s < |r.lastInputs| ==> d1[s] == d2[s]
    ensures DPreAt(clip, r, d1, t) == DPreAt(clip, r, d2, t)
    decreases |r.lastInputs| - t
  {
    if t + 1 < |r.lastInputs| {
      DPreIsCausal(clip, r, d1, d2, t + 1);
    }
  }

  /**
   * `backward(dOut, learningRate)` on a recorded sequence of length T > 0:
   * T rows of input gradients of width inputSize; only the three parameter
   * tensors and the step counter change, the counter by exactly one, and the
   * caches and the hidden state are untouched.
   */
  function Backward(clip: Clip, sqrt: NonNegFn, r: Rnn, dOut: seq<Vector>, lr: real): (p: Pass)
    requires Valid(r) && 0 < |r.lastInputs| && GradientFits(r, dOut)
    ensures Valid(p.layer)
    ensures p.layer == r.(inputWeights := p.layer.inputWeights, recurrentWeights := p.layer.recurrentWeights,
                          biases := p.layer.biases, adamT := r.adamT + 1)
    ensures IsShape(p.out, |r.lastInputs|, r.inputSize)
  {
    Update(sqrt, r, DPres(clip, r, dOut), lr)
  }

  /**
   * What `backward` computes: the input gradients use the input weights
   * before the update; each parameter element moves by one Adam step on its
   * gradient accumulated over all T steps and divided by T; all three
   * updates use the same step count.
   */
  lemma BackwardUpdates(clip: Clip, sqrt: NonNegFn, r: Rnn, dOut: seq<Vector>, lr: real)
    requires Valid(r) && 0 < |r.lastInputs| && GradientFits(r, dOut)
    ensures Updated(sqrt, r, DPres(clip, r, dOut), lr, Backward(clip, sqrt, r, dOut, lr))
  {
  }

  /**
   * What one backward pass does with the per-step gradients `ds`: input
   * gradients from the input weights before the update, and one Adam step
   * per parameter element at step count `adamT + 1` on the sum over all
   * steps divided by their number.
   */
  predicate Updated(sqrt: NonNegFn, r: Rnn, ds: seq<Vector>, lr: real, p: Pass)
    requires Valid(r) && 0 < |r.lastInputs| && IsShape(ds, |r.lastInputs|, r.hiddenSize)
    requires ParamsShaped(p.layer) && p.layer.inputSize == r.inputSize && p.layer.hiddenSize == r.hiddenSize
    requires IsShape(p.out, |r.lastInputs|, r.inputSize)
  {
    var n := |r.lastInputs| as real;
    && (forall t, k :: 0 <= t < |r.lastInputs| && 0 <= k < r.inputSize ==>
          p.out[t][k] == Sum(Products(Column(r.inputWeights.param, k), ds[t])))
    && (forall j, k :: 0 <= j < r.hiddenSize && 0 <= k < r.inputSize ==>
          MatrixAt(p.layer.inputWeights, j, k)
          == Step(sqrt, MatrixAt(r.inputWeights, j, k), ProductSum(ds, r.lastInputs, j, k) / n, lr, r.adamT + 1))
    && (forall j, k :: 0 <= j < r.hiddenSize && 0 <= k < r.hiddenSize ==>
          MatrixAt(p.layer.recurrentWeights, j, k)
          == Step(sqrt, MatrixAt(r.recurrentWeights, j, k), ProductSum(ds, Prevs(r), j, k) / n, lr, r.adamT + 1))
    && (forall j :: 0 <= j < r.hiddenSize ==>
          VectorAt(p.layer.biases, j) == Step(sqrt, VectorAt(r.biases, j), EntrySum(ds, j) / n, lr, r.adamT + 1))
  }

  /** The parameter update of `backward` given the per-step gradients. */
  function Update(sqrt: NonNegFn, r: Rnn, ds: seq<Vector>, lr: real): (p: Pass)
    requires Valid(r) && 0 < |r.lastInputs| && IsShape(ds, |r.lastInputs|, r.hiddenSize)
    ensures Valid(p.layer)
    ensures p.layer == r.(inputWeights := p.layer.inputWeights, recurrentWeights := p.layer.recurrentWeights,
                          biases := p.layer.biases, adamT := r.adamT + 1)
    ensures IsShape(p.out, |r.lastInputs|, r.inputSize)
  {
    var t := r.adamT + 1;
    var win := UpdateMatrix(sqrt, r.inputWeights, ds, r.lastInputs, lr, t, r.hiddenSize, r.inputSize);
    var wrec := UpdateMatrix(sqrt, r.recurrentWeights, ds, Prevs(r), lr, t, r.hiddenSize, r.hiddenSize);
    var b := UpdateVector(sqrt, r.biases, ds, lr, t, r.hiddenSize);
    Pass(r.(inputWeights := win, recurrentWeights := wrec, biases := b, adamT := t),
         InputGradients(r.inputWeights.param, ds, r.hiddenSize, r.inputSize))
  }

  /**
   * The accumulation loop of `backward`, from the last recorded step down to
   * the first: it yields the sums over all steps of the per-step gradients
   * defined above, and the per-step input gradients.
   */
  method Bptt(clip: Clip, r: Rnn, dOut: seq<Vector>)
    returns (dInputWeights: Matrix, dRecurrentWeights: Matrix, dBiases: Vector, dInputs: seq<Vector>)
    requires Valid(r) && GradientFits(r, dOut)
    ensures dInputWeights == OuterSum(DPres(clip, r, dOut), r.lastInputs, r.hiddenSize, r.inputSize)
    ensures dRecurrentWeights == OuterSum(DPres(clip, r, dOut), Prevs(r), r.hiddenSize, r.hiddenSize)
    ensures dBiases == VectorSum(DPres(clip, r, dOut), r.hiddenSize)
    ensures dInputs == InputGradients(r.inputWeights.param, DPres(clip, r, dOut), r.hiddenSize, r.inputSize)
  {
    var n := r.hiddenSize;
    var m := r.inputSize;
    ghost var ds := DPres(clip, r, dOut);
    ghost var ps := Prevs(r);
    dInputWeights := ZeroMatrix(n, m);
    dRecurrentWeights := ZeroMatrix(n, n);
    dBiases := Zeros(n);
    dInputs := ZeroMatrix(|r.lastInputs|, m);
    var dHiddenNext := Zeros(n);
    var t := |r.lastInputs|;
    while t > 0
      invariant 0 <= t <= |r.lastInputs| && |dInputs| == |r.lastInputs|
      invariant dInputWeights == OuterSum(ds[t..], r.lastInputs[t..], n, m)
      invariant dRecurrentWeights == OuterSum(ds[t..], ps[t..], n, n)
      invariant dBiases == VectorSum(ds[t..], n)
      invariant forall s :: t <= s < |r.lastInputs| ==> dInputs[s] == TransposeMatVec(r.inputWeights.param, ds[s], m)
      invariant t < |r.lastInputs| ==> dHiddenNext == TransposeMatVec(r.recurrentWeights.param, ds[t], n)
      invariant t == |r.lastInputs| ==> dHiddenNext == Zeros(n)
      decreases t
    {
      t := t - 1;
      assert dHiddenNext == DHiddenNext(clip, r, dOut, t);
      var dPre := LocalGradient(clip, dOut[t], dHiddenNext, r.lastHiddenStates[t], n);
      assert dPre == ds[t];
      var input := r.lastInputs[t];
      var prevHidden := if t > 0 then r.lastHiddenStates[t - 1] else Zeros(n);
      assert prevHidden == ps[t];
      assert ds[t..][1..] == ds[t + 1..] && r.lastInputs[t..][1..] == r.lastInputs[t + 1..] && ps[t..][1..] == ps[t + 1..];
      dBiases := AddVectors(dBiases, dPre);
      dInputWeights := AddMatrices(dInputWeights, Outer(dPre, input, n, m));
      dRecurrentWeights := AddMatrices(dRecurrentWeights, Outer(dPre, prevHidden, n, n));
      dInputs := dInputs[t := TransposeMatVec(r.inputWeights.param, dPre, m)];
      dHiddenNext := TransposeMatVec(r.recurrentWeights.param, dPre, n);
    }
    assert ds[0..] == ds && r.lastInputs[0..] == r.lastInputs && ps[0..] == ps;
  }

  /**
   * `backward` as the source orders it: every gradient is accumulated by
   * the loop first, the step counter is bumped once, and only then are the
   * three parameter tensors updated from the averaged gradients. The result
   * is the reference `Backward`.
   */
  method BackwardInPlace(clip: Clip, sqrt: NonNegFn, r: Rnn, dOut: seq<Vector>, lr: real) returns (p: Pass)
    requires Valid(r) && 0 < |r.lastInputs| && GradientFits(r, dOut)
    ensures p == Backward(clip, sqrt, r, dOut, lr)
  {
    var dInputWeights, dRecurrentWeights, dBiases, dInputs := Bptt(clip, r, dOut);
    var count := |r.lastInputs| as real;
    var t := r.adamT + 1;
    var win := StepMatrix(sqrt, r.inputWeights, ScaleMatrix(dInputWeights, count), lr, t, r.hiddenSize, r.inputSize);
    var wrec := StepMatrix(sqrt, r.recurrentWeights, ScaleMatrix(dRecurrentWeights, count), lr, t,
                           r.hiddenSize, r.hiddenSize);
    var b := StepVector(sqrt, r.biases, ScaleVector(dBiases, count), lr, t, r.hiddenSize);
    p := Pass(r.(inputWeights := win, recurrentWeights := wrec, biases := b, adamT := t), dInputs);
  }

  // ---------------------------------------------------------------------
  // Checkpoints

  /** What `serialize` records: the three parameter tensors, without moments or caches. */
  datatype Params = Params(inputWeights: Matrix, recurrentWeights: Matrix, biases: Vector)

  function Serialize(r: Rnn): (s: Params)
    ensures s.inputWeights == r.inputWeights.param && s.recurrentWeights == r.recurrentWeights.param
    ensures s.biases == r.biases.param
  {
    Params(r.inputWeights.param, r.recurrentWeights.param, r.biases.param)
  }

  /** The recorded tensors fit a layer of these sizes. */
  predicate ParamsFit(s: Params, inputSize: nat, hiddenSize: nat)
  {
    && IsShape(s.inputWeights, hiddenSize, inputSize)
    && IsShape(s.recurrentWeights, hiddenSize, hiddenSize)
    && |s.biases| == hiddenSize
  }

  /**
   * `load(serialized)`: the three parameter tensors are replaced as given,
   * without any shape check; moments, caches, hidden state and the step
   * counter are kept. A checkpoint that fits keeps the layer valid.
   */
  function Load(r: Rnn, s: Params): (l: Rnn)
    ensures l.inputWeights.param == s.inputWeights && l.recurrentWeights.param == s.recurrentWeights
    ensures l.biases.param == s.biases
    ensures l.inputSize == r.inputSize && l.hiddenSize == r.hiddenSize && l.adamT == r.adamT
    ensures l.inputWeights.m == r.inputWeights.m && l.inputWeights.v == r.inputWeights.v
    ensures l.recurrentWeights.m == r.recurrentWeights.m && l.recurrentWeights.v == r.recurrentWeights.v
    ensures l.biases.m == r.biases.m && l.biases.v == r.biases.v
    ensures l.hiddenState == r.hiddenState && l.lastInputs == r.lastInputs && l.lastHiddenStates == r.lastHiddenStates
    ensures Valid(r) && ParamsFit(s, r.inputSize, r.hiddenSize) ==> Valid(l)
  {
    r.(inputWeights := r.inputWeights.(param := s.inputWeights),
       recurrentWeights := r.recurrentWeights.(param := s.recurrentWeights),
       biases := r.biases.(param := s.biases))
  }

  /** Loading a layer's own checkpoint changes nothing, and a loaded checkpoint is what serializing gives back. */
  lemma LoadSerialize(r: Rnn, s: Params)
    ensures Load(r, Serialize(r)) == r
    ensures Serialize(Load(r, s)) == s
  {
  }
}
