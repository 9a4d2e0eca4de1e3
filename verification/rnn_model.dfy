/**
 * The sequence model: a simple recurrent layer followed by a dense readout
 * with the identity activation. `forward` runs the recurrent layer over the
 * sequence and the readout over its hidden states; `train` measures the mean
 * squared error, runs `backward` on the readout with the plain difference
 * and then on the recurrent layer with the gradient the readout returned.
 * A checkpoint records the architecture and both layers' parameters, and
 * `load` refuses one whose architecture differs.
 */
module RnnModel {
  import opened Results
  import opened Prims
  import opened Vectors
  import opened Activations
  import opened Loss
  import R = Recurrent
  import D = DenseLayer

  datatype Model = Model(inputSize: nat, hiddenSize: nat, outputSize: nat, rnn: R.Rnn, dense: D.Dense)

  /** Both layers are valid, sized by the model's architecture, and the readout is linear. */
  predicate Valid(m: Model)
  {
    && R.Valid(m.rnn) && D.Valid(m.dense)
    && m.rnn.inputSize == m.inputSize && m.rnn.hiddenSize == m.hiddenSize
    && m.dense.inputSize == m.hiddenSize && m.dense.outputSize == m.outputSize
    && m.dense.act == Identity
  }

  /**
   * `new RNNModel(inputSize, hiddenSize, outputSize)`: a fresh recurrent
   * layer inputSize→hiddenSize and a fresh identity dense layer
   * hiddenSize→outputSize.
   */
  function New(inputSize: nat, hiddenSize: nat, outputSize: nat,
               inInit: (nat, nat) -> real, recInit: (nat, nat) -> real, bInit: nat -> real,
               wInit: (nat, nat) -> real, dInit: nat -> real): (m: Model)
    ensures Valid(m)
    ensures m.inputSize == inputSize && m.hiddenSize == hiddenSize && m.outputSize == outputSize
    ensures m.rnn == R.New(inputSize, hiddenSize, inInit, recInit, bInit)
    ensures m.dense == D.New(hiddenSize, outputSize, Identity, wInit, dInit)
  {
    Model(inputSize, hiddenSize, outputSize,
          R.New(inputSize, hiddenSize, inInit, recInit, bInit),
          D.New(hiddenSize, outputSize, Identity, wInit, dInit))
  }

  datatype Pass = Pass(model: Model, out: seq<Vector>)

  /**
   * Both layers hold a recorded pass over the same `steps > 0` steps, so
   * that `backward` can run on them.
   */
  predicate Recorded(m: Model, steps: nat)
  {
    && Valid(m) && 0 < steps
    && m.dense.cache.Some? && |m.dense.cache.value.input| == steps
    && |m.rnn.lastInputs| == steps
  }

  /**
   * `forward(sequence)`: the recurrent layer runs over the sequence and the
   * readout over its hidden states, giving one output of width outputSize
   * per step; both layers record this pass and nothing else changes.
   */
  function Forward(tanh: real -> real, m: Model, sequence: seq<Vector>): (p: Pass)
    requires Valid(m) && AllAtLeast(sequence, m.inputSize)
    ensures Valid(p.model)
    ensures var h := R.Forward(tanh, m.rnn, sequence);
            && p.model.rnn == h.layer
            && p.model.dense == D.Forward(m.dense, h.out).layer
            && IsShape(p.out, |sequence|, m.outputSize)
    ensures p.model == m.(rnn := p.model.rnn, dense := p.model.dense)
    ensures 0 < |sequence| ==> Recorded(p.model, |sequence|)
  {
    var h := R.Forward(tanh, m.rnn, sequence);
    var o := D.Forward(m.dense, h.out);
    Pass(m.(rnn := h.layer, dense := o.layer), o.out)
  }

  /** Each output is an affine function of that step's hidden state: the readout is linear. */
  lemma ForwardIsAffine(tanh: real -> real, m: Model, sequence: seq<Vector>, t: nat, j: nat)
    requires Valid(m) && AllAtLeast(sequence, m.inputSize)
    requires t < |sequence| && j < m.outputSize
    ensures var h := R.Forward(tanh, m.rnn, sequence).out;
            Forward(tanh, m, sequence).out[t][j] == Sum(Products(m.dense.weights.param[j], h[t])) + m.dense.biases.param[j]
  {
    var h := R.Forward(tanh, m.rnn, sequence);
    var o := D.Forward(m.dense, h.out);
    assert o.out[t][j] == o.layer.cache.value.pre[t][j];
  }

  /**
   * The backward half of `train` on a recorded pass: the readout's
   * `backward` runs first, on `dOut`, and the recurrent layer's `backward`
   * then runs on the input gradient the readout returned. The model stays
   * valid, keeps its architecture, and each layer takes exactly one step.
   */
  function Backward(clip: Clip, sqrt: NonNegFn, m: Model, dOut: seq<Vector>, lr: real): (r: Model)
    requires Recorded(m, |m.rnn.lastInputs|) && D.GradientFits(m.dense.cache.value, dOut, m.outputSize)
    ensures Valid(r)
    ensures r.inputSize == m.inputSize && r.hiddenSize == m.hiddenSize && r.outputSize == m.outputSize
    ensures r.dense.adamT == m.dense.adamT + 1 && r.rnn.adamT == m.rnn.adamT + 1
    ensures var g := D.Backward(clip, sqrt, m.dense, dOut, lr);
            && g.Ok?
            && r.dense == g.value.layer
            && r.rnn == R.Backward(clip, sqrt, m.rnn, g.value.out, lr).layer
  {
    var g := D.Backward(clip, sqrt, m.dense, dOut, lr).value;
    var rnn := R.Backward(clip, sqrt, m.rnn, g.out, lr).layer;
    m.(dense := g.layer, rnn := rnn)
  }

  /** What `train` returns and the model it leaves behind. */
  datatype Trained = Trained(model: Model, loss: real)

  /**
   * `train(sequence, target, learningRate)` on a non-empty sequence: the
   * loss is the mean squared error of the forward pass made before any
   * parameter changes, hence non-negative, and the model is the one that
   * pass left behind, stepped by `Backward` on `output - target`.
   */
  function Train(clip: Clip, tanh: real -> real, sqrt: NonNegFn, m: Model, sequence: seq<Vector>,
                 target: seq<Vector>, lr: real): (t: Trained)
    requires Valid(m) && AllAtLeast(sequence, m.inputSize) && 0 < |sequence|
    requires TargetFits(Forward(tanh, m, sequence).out, target)
    ensures var f := Forward(tanh, m, sequence);
            && t.loss == MeanSquares(f.out, target)
            && t.model == Backward(clip, sqrt, f.model, Seed(f.out, target), lr)
    ensures 0.0 <= t.loss
    ensures Valid(t.model)
    ensures t.model.inputSize == m.inputSize && t.model.hiddenSize == m.hiddenSize
    ensures t.model.outputSize == m.outputSize
  {
    var f := Forward(tanh, m, sequence);
    Trained(Backward(clip, sqrt, f.model, Seed(f.out, target), lr), MeanSquares(f.out, target))
  }

  // ---------------------------------------------------------------------
  // Checkpoints

  datatype Architecture = Architecture(inputSize: nat, hiddenSize: nat, outputSize: nat)

  /** The object `serialize` returns: a type tag, the architecture and both layers' parameters. */
  datatype Checkpoint = Checkpoint(kind: string, architecture: Architecture, rnn: R.Params, dense: D.Params)

  const Kind: string := "RNNModel"

  function Serialize(m: Model): (s: Checkpoint)
    ensures s.kind == Kind
    ensures s.architecture == Architecture(m.inputSize, m.hiddenSize, m.outputSize)
    ensures s.rnn == R.Serialize(m.rnn) && s.dense == D.Serialize(m.dense)
  {
    Checkpoint(Kind, Architecture(m.inputSize, m.hiddenSize, m.outputSize), R.Serialize(m.rnn), D.Serialize(m.dense))
  }

  /** The checkpoint's layer parameters fit the architecture it records. */
  predicate Fits(s: Checkpoint)
  {
    && R.ParamsFit(s.rnn, s.architecture.inputSize, s.architecture.hiddenSize)
    && D.ParamsFit(s.dense, s.architecture.hiddenSize, s.architecture.outputSize)
  }

  /**
   * `load(serialized)`: fails with "Model architecture does not match the
   * saved model!" exactly when one of the three sizes differs, and then
   * nothing is loaded; otherwise both layers load their parameters. The
   * type tag is not checked.
   */
  function Load(m: Model, s: Checkpoint): (r: Result<Model>)
    ensures r.Err? <==> s.architecture != Architecture(m.inputSize, m.hiddenSize, m.outputSize)
    ensures r.Err? ==> r.error == ArchitectureMismatch
    ensures r.Ok? ==> r.value == m.(rnn := R.Load(m.rnn, s.rnn), dense := D.Load(m.dense, s.dense))
    ensures r.Ok? && Valid(m) && Fits(s) ==> Valid(r.value)
  {
    if s.architecture.inputSize != m.inputSize
       || s.architecture.hiddenSize != m.hiddenSize
       || s.architecture.outputSize != m.outputSize
    then Err(ArchitectureMismatch)
    else Ok(m.(rnn := R.Load(m.rnn, s.rnn), dense := D.Load(m.dense, s.dense)))
  }

  /** A model's own checkpoint loads back into it without changing anything. */
  lemma LoadOwnCheckpoint(m: Model)
    ensures Load(m, Serialize(m)) == Ok(m)
  {
    R.LoadSerialize(m.rnn, R.Serialize(m.rnn));
    D.LoadSerialize(m.dense, D.Serialize(m.dense));
  }

  /**
   * Loading the checkpoint of another model of the same architecture makes
   * this model predict exactly what the other one does, whatever the
   * caches, moments or step counters of either.
   */
  lemma LoadRestoresPredictions(tanh: real -> real, m: Model, saved: Model, sequence: seq<Vector>)
    requires Valid(m) && Valid(saved) && AllAtLeast(sequence, m.inputSize)
    requires Architecture(m.inputSize, m.hiddenSize, m.outputSize)
          == Architecture(saved.inputSize, saved.hiddenSize, saved.outputSize)
    ensures Load(m, Serialize(saved)).Ok?
    ensures Valid(Load(m, Serialize(saved)).value)
    ensures Forward(tanh, Load(m, Serialize(saved)).value, sequence).out == Forward(tanh, saved, sequence).out
  {
    var l := Load(m, Serialize(saved)).value;
    assert Fits(Serialize(saved));
    R.HiddenDependsOnlyOnParams(tanh, l.rnn, saved.rnn, sequence);
    var h := R.Forward(tanh, l.rnn, sequence).out;
    assert h == R.Forward(tanh, saved.rnn, sequence).out;
    D.ForwardDependsOnlyOnParams(l.dense, saved.dense, h);
  }
}
