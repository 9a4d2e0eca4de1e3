/**
 * The fully-connected layer: `forward` computes `activation(W·x + b)` for
 * every sample of a batch and records the batch and the pre-activations;
 * `backward` turns the gradient of the loss with respect to the outputs into
 * the gradient with respect to the inputs, and updates weights and biases
 * with Adam using the gradients averaged over the batch.
 */
module DenseLayer {
  import opened Results
  import opened Prims
  import opened Vectors
  import opened Activations
  import opened Adam

  /** What `forward` records for `backward`: the batch and one pre-activation vector per sample. */
  datatype Cache = Cache(input: seq<Vector>, pre: seq<Vector>)

  datatype Dense = Dense(
    inputSize: nat,
    outputSize: nat,
    act: Activation,        // activation / dActivation
    weights: AdamMatrix,    // weights, mWeights, vWeights
    biases: AdamVector,     // biases, mBiases, vBiases
    cache: Option<Cache>,   // lastInput, lastPreActivations (null before the first forward)
    adamT: nat)

  /** The cache holds one pre-activation of width `outputSize` per sample, and samples are wide enough. */
  predicate CacheFits(c: Cache, inputSize: nat, outputSize: nat)
  {
    |c.pre| == |c.input| && AllAtLeast(c.input, inputSize) && IsShape(c.pre, |c.input|, outputSize)
  }

  /** The layer's invariant: parameters and moments are shaped by the sizes, and so is the cache. */
  predicate Valid(d: Dense)
  {
    && MatrixShaped(d.weights, d.outputSize, d.inputSize)
    && VectorShaped(d.biases, d.outputSize)
    && (d.cache.Some? ==> CacheFits(d.cache.value, d.inputSize, d.outputSize))
  }

  /**
   * `new Dense(inputSize, outputSize, activation, dActivation)`: weights are
   * outputSize×inputSize and biases have outputSize entries, both drawn from
   * the generators; all four moment tensors are zero; the step counter is 0;
   * nothing is cached.
   */
  function New(inputSize: nat, outputSize: nat, act: Activation, wInit: (nat, nat) -> real, bInit: nat -> real): (d: Dense)
    ensures Valid(d)
    ensures d.inputSize == inputSize && d.outputSize == outputSize && d.act == act
    ensures IsShape(d.weights.param, outputSize, inputSize) && |d.biases.param| == outputSize
    ensures forall j, k :: 0 <= j < outputSize && 0 <= k < inputSize ==> d.weights.param[j][k] == wInit(j, k)
    ensures MatrixFresh(d.weights) && VectorFresh(d.biases)
    ensures d.adamT == 0 && d.cache.None?
  {
    Dense(inputSize, outputSize, act,
          NewMatrix(InitializeMatrix(outputSize, inputSize, wInit), outputSize, inputSize),
          NewVector(InitializeVector(outputSize, bInit)),
          None, 0)
  }

  datatype Pass = Pass(layer: Dense, out: seq<Vector>)

  /** `addVectors(multiplyMatrixVector(weights, x), biases)` for one sample. */
  function PreActivation(d: Dense, x: Vector): (pre: Vector)
    requires Valid(d) && d.inputSize <= |x|
    ensures |pre| == d.outputSize
    ensures forall j :: 0 <= j < d.outputSize ==>
              pre[j] == Sum(Products(d.weights.param[j], x)) + d.biases.param[j]
  {
    AddVectors(MatVec(d.weights.param, x), d.biases.param)
  }

  /**
   * `forward(input)`: one output of width outputSize per sample, each the
   * activation of that sample's pre-activation; the cache is replaced by the
   * batch and exactly one pre-activation per sample; nothing else changes.
   */
  function Forward(d: Dense, input: seq<Vector>): (r: Pass)
    requires Valid(d) && AllAtLeast(input, d.inputSize)
    ensures Valid(r.layer)
    ensures r.layer.cache.Some? && r.layer == d.(cache := r.layer.cache)
    ensures r.layer.cache.value.input == input && |r.layer.cache.value.pre| == |input|
    ensures forall i :: 0 <= i < |input| ==> r.layer.cache.value.pre[i] == PreActivation(d, input[i])
    ensures IsShape(r.out, |input|, d.outputSize)
    ensures forall i, j :: 0 <= i < |input| && 0 <= j < d.outputSize ==>
              r.out[i][j] == Apply(d.act, r.layer.cache.value.pre[i][j])
  {
    var pre := seq(|input|, i requires 0 <= i < |input| => PreActivation(d, input[i]));
    var out := seq(|input|, i requires 0 <= i < |input| =>
                   seq(d.outputSize, j requires 0 <= j < d.outputSize => Apply(d.act, pre[i][j])));
    Pass(d.(cache := Some(Cache(input, pre))), out)
  }

  /** `dOut` has a row for every cached sample, each at least outputSize wide. */
  predicate GradientFits(c: Cache, dOut: seq<Vector>, outputSize: nat)
  {
    |c.input| <= |dOut| && forall i :: 0 <= i < |c.input| ==> outputSize <= |dOut[i]|
  }

  /** Sample `i`'s `dPre[j] = clipValue(dOut[i][j] * dActivation(pre[i][j]), 1)`. */
  function DPre(clip: Clip, d: Dense, c: Cache, dOut: seq<Vector>, i: nat): (dp: Vector)
    requires CacheFits(c, d.inputSize, d.outputSize) && GradientFits(c, dOut, d.outputSize)
    requires i < |c.input|
    ensures |dp| == d.outputSize
  {
    seq(d.outputSize, j requires 0 <= j < d.outputSize => clip(dOut[i][j] * Derivative(d.act, c.pre[i][j]), 1.0))
  }

  function DPres(clip: Clip, d: Dense, c: Cache, dOut: seq<Vector>): (ds: seq<Vector>)
    requires CacheFits(c, d.inputSize, d.outputSize) && GradientFits(c, dOut, d.outputSize)
    ensures |ds| == |c.input| && IsShape(ds, |c.input|, d.outputSize)
  {
    seq(|c.input|, i requires 0 <= i < |c.input| => DPre(clip, d, c, dOut, i))
  }

  /** The precondition of `backward` on a layer that has a cache. */
  predicate CanBackward(d: Dense, dOut: seq<Vector>)
  {
    d.cache.Some? ==> 0 < |d.cache.value.input| && GradientFits(d.cache.value, dOut, d.outputSize)
  }

  /**
   * `dInput[i][k] = Σ_j w[j][k] * dPre[i][j]`, summed over the rows of `w`
   * (outputSize) for every input column `k`.
   */
  function InputGradient(w: Matrix, ds: seq<Vector>, rows: nat, cols: nat): (g: seq<Vector>)
    requires IsShape(w, rows, cols) && AllAtLeast(ds, rows)
    ensures IsShape(g, |ds|, cols)
    ensures forall i, k :: 0 <= i < |ds| && 0 <= k < cols ==> g[i][k] == Sum(Products(Column(w, k), ds[i]))
  {
    seq(|ds|, i requires 0 <= i < |ds| => TransposeMatVec(w, ds[i], cols))
  }

  /**
   * `backward(dOut, learningRate)`. Without a cached forward pass it fails
   * with "No forward pass input recorded." Otherwise it returns one row of
   * input gradients per sample, bumps the step counter by exactly one, and
   * keeps the cache, the sizes and the activation; what the new parameters
   * and the input gradients are is `BackwardUpdates`.
   */
  function Backward(clip: Clip, sqrt: NonNegFn, d: Dense, dOut: seq<Vector>, lr: real): (r: Result<Pass>)
    requires Valid(d) && CanBackward(d, dOut)
    ensures r.Err? <==> d.cache.None?
    ensures r.Err? ==> r.error == NoForwardPass
    ensures r.Ok? ==>
              var l := r.value.layer;
              && Valid(l)
              && l.adamT == d.adamT + 1
              && l.cache == d.cache
              && l.inputSize == d.inputSize && l.outputSize == d.outputSize && l.act == d.act
              && IsShape(r.value.out, |d.cache.value.input|, d.inputSize)
  {
    match d.cache
    case None => Err(NoForwardPass)
    case Some(c) =>
      var ds := DPres(clip, d, c, dOut);
      var t := d.adamT + 1;
      var w := UpdateMatrix(sqrt, d.weights, ds, c.input, lr, t, d.outputSize, d.inputSize);
      var b := UpdateVector(sqrt, d.biases, ds, lr, t, d.outputSize);
      Ok(Pass(d.(weights := w, biases := b, adamT := t), InputGradient(d.weights.param, ds, d.outputSize, d.inputSize)))
  }

  /**
   * What one backward pass computes from the per-sample gradients `ds` of a
   * cached batch: input gradients from the weights as they were before the
   * update, and one Adam step per weight and bias at step count `adamT + 1`
   * on its gradient summed over the batch and divided by the batch size.
   */
  predicate Updated(sqrt: NonNegFn, d: Dense, ds: seq<Vector>, lr: real, p: Pass)
    requires Valid(d) && d.cache.Some? && 0 < |d.cache.value.input|
    requires IsShape(ds, |d.cache.value.input|, d.outputSize)
    requires Valid(p.layer) && p.layer.inputSize == d.inputSize && p.layer.outputSize == d.outputSize
    requires IsShape(p.out, |d.cache.value.input|, d.inputSize)
  {
    var c := d.cache.value;
    var n := |c.input| as real;
    && (forall i, k :: 0 <= i < |c.input| && 0 <= k < d.inputSize ==>
          p.out[i][k] == Sum(Products(Column(d.weights.param, k), ds[i])))
    && (forall j, k :: 0 <= j < d.outputSize && 0 <= k < d.inputSize ==>
          MatrixAt(p.layer.weights, j, k)
          == Step(sqrt, MatrixAt(d.weights, j, k), ProductSum(ds, c.input, j, k) / n, lr, d.adamT + 1))
    && (forall j :: 0 <= j < d.outputSize ==>
          VectorAt(p.layer.biases, j) == Step(sqrt, VectorAt(d.biases, j), EntrySum(ds, j) / n, lr, d.adamT + 1))
  }

  /**
   * The updates of `backward` on a cached batch: the input gradients use the
   * weights before the update, and weights and biases both take one Adam
   * step at the same step count on the batch-summed gradients divided by
   * the batch size.
   */
  lemma BackwardUpdates(clip: Clip, sqrt: NonNegFn, d: Dense, dOut: seq<Vector>, lr: real)
    requires Valid(d) && CanBackward(d, dOut) && d.cache.Some?
    ensures Backward(clip, sqrt, d, dOut, lr).Ok?
    ensures Updated(sqrt, d, DPres(clip, d, d.cache.value, dOut), lr, Backward(clip, sqrt, d, dOut, lr).value)
  {
  }

  /**
   * The input gradient `backward` returns for a sample is the adjoint of the
   * forward pass's linear map at the pre-update weights: for any input-sized
   * `x`, `⟨x, dInput[i]⟩ = ⟨W·x, dPre[i]⟩`.
   */
  lemma InputGradientIsAdjoint(clip: Clip, sqrt: NonNegFn, d: Dense, dOut: seq<Vector>, lr: real, i: nat, x: Vector)
    requires Valid(d) && CanBackward(d, dOut) && d.cache.Some?
    requires i < |d.cache.value.input| && |x| == d.inputSize
    ensures Backward(clip, sqrt, d, dOut, lr).Ok?
    ensures Dot(x, Backward(clip, sqrt, d, dOut, lr).value.out[i])
         == Dot(MatVec(d.weights.param, x), DPres(clip, d, d.cache.value, dOut)[i])
  {
    var ds := DPres(clip, d, d.cache.value, dOut);
    assert Backward(clip, sqrt, d, dOut, lr).value.out[i] == TransposeMatVec(d.weights.param, ds[i], d.inputSize) by {
      assert Backward(clip, sqrt, d, dOut, lr).value.out == InputGradient(d.weights.param, ds, d.outputSize, d.inputSize);
    }
    TransposeIsAdjoint(d.weights.param, x, ds[i]);
  }

  /**
   * The output of `forward` depends only on the sizes, the activation and
   * the weight and bias tensors: moments, step counter and cache play no
   * part.
   */
  lemma ForwardDependsOnlyOnParams(a: Dense, b: Dense, input: seq<Vector>)
    requires Valid(a) && Valid(b) && AllAtLeast(input, a.inputSize)
    requires a.inputSize == b.inputSize && a.outputSize == b.outputSize && a.act == b.act
    requires a.weights.param == b.weights.param && a.biases.param == b.biases.param
    ensures Forward(a, input).out == Forward(b, input).out
  {
    var oa := Forward(a, input).out;
    var ob := Forward(b, input).out;
    forall i | 0 <= i < |input|
      ensures oa[i] == ob[i]
    {
      assert PreActivation(a, input[i]) == PreActivation(b, input[i]);
    }
  }

  // ---------------------------------------------------------------------
  // Checkpoints

  /** What `serialize` records: weights and biases, without moments or cache. */
  datatype Params = Params(weights: Matrix, biases: Vector)

  function Serialize(d: Dense): (s: Params)
    ensures s.weights == d.weights.param && s.biases == d.biases.param
  {
    Params(d.weights.param, d.biases.param)
  }

  /** The recorded tensors fit a layer of these sizes. */
  predicate ParamsFit(s: Params, inputSize: nat, outputSize: nat)
  {
    IsShape(s.weights, outputSize, inputSize) && |s.biases| == outputSize
  }

  /**
   * `load(serialized)`: weights and biases are replaced as given, without
   * any shape check; moments, cache, activation and step counter are kept.
   * A checkpoint that fits keeps the layer valid.
   */
  function Load(d: Dense, s: Params): (l: Dense)
    ensures l.weights.param == s.weights && l.biases.param == s.biases
    ensures l.inputSize == d.inputSize && l.outputSize == d.outputSize && l.act == d.act && l.adamT == d.adamT
    ensures l.weights.m == d.weights.m && l.weights.v == d.weights.v
    ensures l.biases.m == d.biases.m && l.biases.v == d.biases.v
    ensures l.cache == d.cache
    ensures Valid(d) && ParamsFit(s, d.inputSize, d.outputSize) ==> Valid(l)
  {
    d.(weights := d.weights.(param := s.weights), biases := d.biases.(param := s.biases))
  }

  /** Loading a layer's own checkpoint changes nothing, and a loaded checkpoint is what serializing gives back. */
  lemma LoadSerialize(d: Dense, s: Params)
    ensures Load(d, Serialize(d)) == d
    ensures Serialize(Load(d, s)) == s
  {
  }
}
