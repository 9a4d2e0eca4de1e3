/**
 * The feed-forward model: a chain of dense layers. `forward` passes the
 * batch through the layers in index order; `train` runs `forward`, computes
 * the mean squared error against the target, seeds the gradient with the
 * plain difference and runs `backward` from the last layer to the first,
 * each layer receiving the gradient the layer after it returned.
 */
module NeuralNetwork {
  import opened Results
  import opened Prims
  import opened Vectors
  import opened Activations
  import opened Loss
  import opened Adam
  import D = DenseLayer

  datatype Network = Network(layers: seq<D.Dense>)

  /** Every layer is valid and each layer's output width is the next layer's input width. */
  predicate Chained(layers: seq<D.Dense>)
  {
    && (forall i :: 0 <= i < |layers| ==> D.Valid(layers[i]))
    && (forall i :: 0 <= i < |layers| - 1 ==> Linked(layers, i))
  }

  /** Layer `i`'s output width is layer `i + 1`'s input width. */
  predicate Linked(layers: seq<D.Dense>, i: nat)
    requires i + 1 < |layers|
  {
    layers[i].outputSize == layers[i + 1].inputSize
  }

  /** Dropping the first layer of a chain leaves a chain. */
  lemma ChainedTail(layers: seq<D.Dense>)
    requires Chained(layers) && 0 < |layers|
    ensures Chained(layers[1..])
    ensures 1 < |layers| ==> layers[0].outputSize == layers[1].inputSize
  {
    var rest := layers[1..];
    forall i | 0 <= i < |rest| - 1
      ensures Linked(rest, i)
    {
      assert Linked(layers, i + 1);
    }
    if 1 < |layers| {
      assert Linked(layers, 0);
    }
  }

  /** Layer `i` of a new network: `new Dense(layerSizes[i], layerSizes[i + 1])`, with relu. */
  function Layer(sizes: seq<nat>, wInit: nat -> (nat, nat) -> real, bInit: nat -> nat -> real, i: nat): (d: D.Dense)
    requires i + 1 < |sizes|
    ensures D.Valid(d) && d.inputSize == sizes[i] && d.outputSize == sizes[i + 1] && d.act == Relu
  {
    D.New(sizes[i], sizes[i + 1], Relu, wInit(i), bInit(i))
  }

  /**
   * `new NeuralNetwork(layerSizes)`: `layerSizes.length - 1` layers (none for
   * fewer than two sizes), layer `i` a fresh relu layer mapping
   * `layerSizes[i]` inputs to `layerSizes[i + 1]` outputs, so consecutive
   * layers fit together.
   */
  function New(sizes: seq<nat>, wInit: nat -> (nat, nat) -> real, bInit: nat -> nat -> real): (n: Network)
    ensures |n.layers| == if |sizes| == 0 then 0 else |sizes| - 1
    ensures Chained(n.layers)
    ensures forall i :: 0 <= i < |n.layers| ==> n.layers[i] == Layer(sizes, wInit, bInit, i)
  {
    var count := if |sizes| == 0 then 0 else |sizes| - 1;
    Network(seq(count, i requires 0 <= i < count => Layer(sizes, wInit, bInit, i)))
  }

  /** The batch is wide enough for the first layer. */
  predicate Accepts(layers: seq<D.Dense>, input: seq<Vector>)
  {
    0 < |layers| ==> AllAtLeast(input, layers[0].inputSize)
  }

  /** The updated layers and the data leaving the chain. */
  datatype Run = Run(layers: seq<D.Dense>, out: seq<Vector>)

  /** Every layer has recorded a forward pass over a batch of `batch` samples. */
  predicate Ready(layers: seq<D.Dense>, batch: nat)
  {
    && Chained(layers)
    && forall i :: 0 <= i < |layers| ==> layers[i].cache.Some? && |layers[i].cache.value.input| == batch
  }

  /** Appending a layer that fits after the last one keeps the chain ready. */
  lemma ReadySnoc(front: seq<D.Dense>, last: D.Dense, batch: nat)
    requires Ready(front, batch) && D.Valid(last) && last.cache.Some? && |last.cache.value.input| == batch
    requires 0 < |front| ==> front[|front| - 1].outputSize == last.inputSize
    ensures Ready(front + [last], batch)
  {
    var all := front + [last];
    assert forall i :: 0 <= i < |front| ==> all[i] == front[i];
    forall i | 0 <= i < |all| - 1
      ensures Linked(all, i)
    {
      if i < |front| - 1 {
        assert Linked(front, i);
      }
    }
  }

  /** Putting a layer that fits before the first one keeps the chain ready. */
  lemma ReadyCons(first: D.Dense, rest: seq<D.Dense>, batch: nat)
    requires Ready(rest, batch) && D.Valid(first) && first.cache.Some? && |first.cache.value.input| == batch
    requires 0 < |rest| ==> first.outputSize == rest[0].inputSize
    ensures Ready([first] + rest, batch)
  {
    var all := [first] + rest;
    assert forall i :: 0 < i < |all| ==> all[i] == rest[i - 1];
    forall i | 0 <= i < |all| - 1
      ensures Linked(all, i)
    {
      if 0 < i {
        assert Linked(rest, i - 1);
      }
    }
  }

  lemma Associative<T>(a: seq<T>, b: seq<T>, c: seq<T>)
    ensures a + b + c == a + (b + c)
  {
  }

  /** Any prefix of a ready chain is ready. */
  lemma ReadyPrefix(layers: seq<D.Dense>, batch: nat, k: nat)
    requires Ready(layers, batch) && k <= |layers|
    ensures Ready(layers[..k], batch)
  {
    assert forall i :: 0 <= i < k ==> layers[..k][i] == layers[i];
    forall i | 0 <= i < k - 1
      ensures Linked(layers[..k], i)
    {
      assert Linked(layers, i);
    }
  }

  /** In a chain, the layer before `i` produces what layer `i` takes. */
  lemma LinkedAt(layers: seq<D.Dense>, i: nat)
    requires Chained(layers) && i <= |layers|
    ensures 0 < i < |layers| ==> layers[i - 1].outputSize == layers[i].inputSize
  {
    if 0 < i < |layers| {
      assert Linked(layers, i - 1);
    }
  }

  /**
   * The data that enters layer `i` (and, for `i == |layers|`, leaves the
   * chain), defined position by position: the batch itself for layer 0, and
   * otherwise the output of layer `i - 1` on the data that entered it.
   */
  function Feed(layers: seq<D.Dense>, input: seq<Vector>, i: nat): (a: seq<Vector>)
    requires Chained(layers) && Accepts(layers, input) && i <= |layers|
    ensures |a| == |input|
    ensures i < |layers| ==> AllAtLeast(a, layers[i].inputSize)
    ensures 0 < i ==> IsShape(a, |input|, layers[i - 1].outputSize)
  {
    if i == 0 then input
    else
      LinkedAt(layers, i);
      D.Forward(layers[i - 1], Feed(layers, input, i - 1)).out
  }

  /**
   * `forward(input)`: the layers are run front to back, each on the output of
   * the one before it; every layer changes only its cache, and all caches
   * end up holding a batch of the input's size.
   */
  function Forward(layers: seq<D.Dense>, input: seq<Vector>): (r: Run)
    requires Chained(layers) && Accepts(layers, input)
    ensures |r.layers| == |layers| && Ready(r.layers, |input|)
    ensures forall i :: 0 <= i < |layers| ==> r.layers[i] == layers[i].(cache := r.layers[i].cache)
    ensures |r.out| == |input|
    ensures 0 < |layers| ==> IsShape(r.out, |input|, layers[|layers| - 1].outputSize)
    decreases |layers|
  {
    if |layers| == 0 then Run([], input)
    else
      var p := D.Forward(layers[0], input);
      ChainedTail(layers);
      var rest := Forward(layers[1..], p.out);
      var all := [p.layer] + rest.layers;
      assert forall i :: 0 < i < |layers| ==> layers[1..][i - 1] == layers[i] && all[i] == rest.layers[i - 1];
      ReadyCons(p.layer, rest.layers, |input|);
      Run(all, rest.out)
  }

  /** Dropping the first layer and feeding its output to the rest gives the rest the same data. */
  lemma {:induction false} FeedDropFirst(layers: seq<D.Dense>, input: seq<Vector>, i: nat)
    requires Chained(layers) && Accepts(layers, input) && 0 < i <= |layers|
    ensures Chained(layers[1..]) && Accepts(layers[1..], D.Forward(layers[0], input).out)
    ensures Feed(layers[1..], D.Forward(layers[0], input).out, i - 1) == Feed(layers, input, i)
  {
    ChainedTail(layers);
    if i > 1 {
      FeedDropFirst(layers, input, i - 1);
    }
  }

  /** `forward` over a non-empty chain: the first layer's pass, then the rest on its output. */
  lemma ForwardUnfold(layers: seq<D.Dense>, input: seq<Vector>)
    requires Chained(layers) && Accepts(layers, input) && 0 < |layers|
    ensures Chained(layers[1..]) && Accepts(layers[1..], D.Forward(layers[0], input).out)
    ensures var p := D.Forward(layers[0], input);
            var rest := Forward(layers[1..], p.out);
            && Forward(layers, input).layers == [p.layer] + rest.layers
            && Forward(layers, input).out == rest.out
  {
    ChainedTail(layers);
  }

  /**
   * What `forward` does to each layer: layer `i` is left exactly as its own
   * `forward` leaves it on the data that enters it, and the chain returns the
   * data that leaves the last layer.
   */
  lemma {:induction false} ForwardFeeds(layers: seq<D.Dense>, input: seq<Vector>)
    requires Chained(layers) && Accepts(layers, input)
    ensures forall i :: 0 <= i < |layers| ==>
              Forward(layers, input).layers[i] == D.Forward(layers[i], Feed(layers, input, i)).layer
    ensures Forward(layers, input).out == Feed(layers, input, |layers|)
    decreases |layers|
  {
    if |layers| > 0 {
      var p := D.Forward(layers[0], input);
      ForwardUnfold(layers, input);
      var rest := Forward(layers[1..], p.out);
      FeedDropFirst(layers, input, |layers|);
      ForwardFeeds(layers[1..], p.out);
      forall i | 0 <= i < |layers|
        ensures Forward(layers, input).layers[i] == D.Forward(layers[i], Feed(layers, input, i)).layer
      {
        if 0 < i {
          FeedDropFirst(layers, input, i);
          assert layers[1..][i - 1] == layers[i];
          assert Forward(layers, input).layers[i] == rest.layers[i - 1];
        }
      }
    }
  }

  /** `after` is `before` one `backward` later: one more Adam step, same cache, sizes and activation. */
  predicate Stepped(before: D.Dense, after: D.Dense)
  {
    && after.adamT == before.adamT + 1
    && after.cache == before.cache
    && after.inputSize == before.inputSize && after.outputSize == before.outputSize
    && after.act == before.act
  }

  /**
   * The backward sweep of `train`: `backward` is called on every layer, from
   * the last to the first, and never fails because every layer has a
   * recorded forward pass; each step counter grows by one, and caches, sizes
   * and activations are kept.
   */
  function Backward(clip: Clip, sqrt: NonNegFn, layers: seq<D.Dense>, batch: nat, grad: seq<Vector>, lr: real)
    : (r: Run)
    requires Ready(layers, batch) && 0 < batch
    requires 0 < |layers| ==> D.CanBackward(layers[|layers| - 1], grad)
    ensures |r.layers| == |layers| && Ready(r.layers, batch)
    ensures forall i :: 0 <= i < |layers| ==> Stepped(layers[i], r.layers[i])
    decreases |layers|
  {
    if |layers| == 0 then Run([], grad)
    else
      var n := |layers|;
      LastStep(clip, sqrt, layers, batch, grad, lr);
      var last := D.Backward(clip, sqrt, layers[n - 1], grad, lr).value;
      var rest := Backward(clip, sqrt, layers[..n - 1], batch, last.out, lr);
      SweepSnoc(layers, batch, rest.layers, last.layer);
      Run(rest.layers + [last.layer], rest.out)
  }

  /**
   * `backward` of the last layer of a ready chain succeeds, steps that
   * layer, and returns a gradient the layer before it accepts.
   */
  lemma LastStep(clip: Clip, sqrt: NonNegFn, layers: seq<D.Dense>, batch: nat, g: seq<Vector>, lr: real)
    requires Ready(layers, batch) && 0 < batch && 0 < |layers|
    requires D.CanBackward(layers[|layers| - 1], g)
    ensures Ready(layers[..|layers| - 1], batch)
    ensures var r := D.Backward(clip, sqrt, layers[|layers| - 1], g, lr);
            && r.Ok? && D.Valid(r.value.layer) && Stepped(layers[|layers| - 1], r.value.layer)
            && (1 < |layers| ==> D.CanBackward(layers[..|layers| - 1][|layers| - 2], r.value.out))
  {
    ReadyPrefix(layers, batch, |layers| - 1);
    LinkedAt(layers, |layers| - 1);
  }

  /** Putting the updated last layer after the updated others gives a ready chain stepped layer by layer. */
  lemma SweepSnoc(layers: seq<D.Dense>, batch: nat, rest: seq<D.Dense>, last: D.Dense)
    requires Ready(layers, batch) && 0 < |layers| && D.Valid(last) && Stepped(layers[|layers| - 1], last)
    requires |rest| == |layers| - 1 && Ready(rest, batch)
    requires forall i :: 0 <= i < |rest| ==> Stepped(layers[..|layers| - 1][i], rest[i])
    ensures Ready(rest + [last], batch)
    ensures forall i :: 0 <= i < |layers| ==> Stepped(layers[i], (rest + [last])[i])
  {
    var n := |layers|;
    var all := rest + [last];
    assert forall i :: 0 <= i < n - 1 ==> layers[..n - 1][i] == layers[i] && all[i] == rest[i];
    LinkedAt(layers, n - 1);
    ReadySnoc(rest, last, batch);
  }

  /** One step of the sweep: the last layer of a prefix is updated first, and the rest is swept with the gradient it returns. */
  lemma BackwardUnfold(clip: Clip, sqrt: NonNegFn, layers: seq<D.Dense>, batch: nat, g: seq<Vector>, lr: real, i: nat)
    requires Ready(layers, batch) && 0 < batch && 0 < i <= |layers|
    requires D.CanBackward(layers[i - 1], g)
    ensures Ready(layers[..i - 1], batch) && Ready(layers[..i], batch)
    ensures var p := D.Backward(clip, sqrt, layers[i - 1], g, lr).value;
            && (1 < i ==> D.CanBackward(layers[i - 2], p.out))
            && Backward(clip, sqrt, layers[..i], batch, g, lr)
               == Run(Backward(clip, sqrt, layers[..i - 1], batch, p.out, lr).layers + [p.layer],
                      Backward(clip, sqrt, layers[..i - 1], batch, p.out, lr).out)
  {
    ReadyPrefix(layers, batch, i);
    ReadyPrefix(layers, batch, i - 1);
    LinkedAt(layers, i - 1);
    assert layers[..i][..i - 1] == layers[..i - 1];
    assert layers[..i][i - 1] == layers[i - 1];
  }

  /** What the backward loop has built once the layers from `i` on are updated and `g` is the gradient for layer `i - 1`. */
  predicate SweptFrom(clip: Clip, sqrt: NonNegFn, layers: seq<D.Dense>, batch: nat, grad: seq<Vector>, lr: real,
                      i: nat, updated: seq<D.Dense>, g: seq<Vector>)
    requires Ready(layers, batch) && 0 < batch
    requires 0 < |layers| ==> D.CanBackward(layers[|layers| - 1], grad)
  {
    && i <= |layers|
    && Ready(layers[..i], batch)
    && (0 < i ==> D.CanBackward(layers[i - 1], g))
    && Backward(clip, sqrt, layers, batch, grad, lr)
       == Run(Backward(clip, sqrt, layers[..i], batch, g, lr).layers + updated,
              Backward(clip, sqrt, layers[..i], batch, g, lr).out)
  }

  /** One turn of the backward loop: layer `i - 1` is updated and its returned gradient taken along. */
  lemma SweepStep(clip: Clip, sqrt: NonNegFn, layers: seq<D.Dense>, batch: nat, grad: seq<Vector>, lr: real,
                  i: nat, updated: seq<D.Dense>, g: seq<Vector>)
    requires Ready(layers, batch) && 0 < batch
    requires 0 < |layers| ==> D.CanBackward(layers[|layers| - 1], grad)
    requires 0 < i && SweptFrom(clip, sqrt, layers, batch, grad, lr, i, updated, g)
    ensures D.CanBackward(layers[i - 1], g) && D.Backward(clip, sqrt, layers[i - 1], g, lr).Ok?
    ensures var p := D.Backward(clip, sqrt, layers[i - 1], g, lr).value;
            SweptFrom(clip, sqrt, layers, batch, grad, lr, i - 1, [p.layer] + updated, p.out)
  {
    BackwardUnfold(clip, sqrt, layers, batch, g, lr, i);
    var p := D.Backward(clip, sqrt, layers[i - 1], g, lr).value;
    var rest := Backward(clip, sqrt, layers[..i - 1], batch, p.out, lr);
    Associative(rest.layers, [p.layer], updated);
  }

  /**
   * The loop of `train` that runs `backward` from the last layer to the
   * first, each call taking the gradient the previous one returned; it
   * updates every layer exactly as the backward sweep does and ends with the
   * same gradient.
   */
  method BackwardLoop(clip: Clip, sqrt: NonNegFn, layers: seq<D.Dense>, batch: nat, grad: seq<Vector>, lr: real)
    returns (updated: seq<D.Dense>, g: seq<Vector>)
    requires Ready(layers, batch) && 0 < batch
    requires 0 < |layers| ==> D.CanBackward(layers[|layers| - 1], grad)
    ensures updated == Backward(clip, sqrt, layers, batch, grad, lr).layers
    ensures g == Backward(clip, sqrt, layers, batch, grad, lr).out
  {
    updated := [];
    g := grad;
    var i := |layers|;
    assert layers[..i] == layers;
    while i > 0
      invariant SweptFrom(clip, sqrt, layers, batch, grad, lr, i, updated, g)
      decreases i
    {
      SweepStep(clip, sqrt, layers, batch, grad, lr, i, updated, g);
      var p := D.Backward(clip, sqrt, layers[i - 1], g, lr).value;
      updated := [p.layer] + updated;
      g := p.out;
      i := i - 1;
    }
    assert [] + updated == updated;
  }

  /** What `train` returns and the network it leaves behind. */
  datatype Trained = Trained(net: Network, loss: real)

  /**
   * What the second half of `train` needs from the forward pass `run`: a
   * non-empty batch, every layer ready for it, a target covering the output,
   * and an output as wide as the last layer.
   */
  predicate Sweepable(run: Run, target: seq<Vector>)
  {
    && 0 < |run.out| && Ready(run.layers, |run.out|) && TargetFits(run.out, target)
    && (0 < |run.layers| ==> IsShape(run.out, |run.out|, run.layers[|run.layers| - 1].outputSize))
  }

  /** The seed `output - target` is a gradient the last layer accepts. */
  lemma SeedAccepted(run: Run, target: seq<Vector>)
    requires Sweepable(run, target)
    ensures 0 < |run.layers| ==> D.CanBackward(run.layers[|run.layers| - 1], Seed(run.out, target))
  {
  }

  /**
   * The second half of `train`, after the forward pass `run` over a
   * non-empty batch: the loss is the mean squared error of `run`'s output,
   * non-negative, and the backward sweep is seeded with `output - target`;
   * the chain stays intact.
   */
  function LossAndSweep(clip: Clip, sqrt: NonNegFn, run: Run, target: seq<Vector>, lr: real): (t: Trained)
    requires Sweepable(run, target)
    ensures t.loss == MeanSquares(run.out, target) && 0.0 <= t.loss
    ensures (SeedAccepted(run, target);
             t.net.layers == Backward(clip, sqrt, run.layers, |run.out|, Seed(run.out, target), lr).layers)
    ensures |t.net.layers| == |run.layers| && Chained(t.net.layers)
  {
    SeedAccepted(run, target);
    var back := Backward(clip, sqrt, run.layers, |run.out|, Seed(run.out, target), lr);
    Trained(Network(back.layers), MeanSquares(run.out, target))
  }

  /** A forward pass over a non-empty batch with a covering target can be swept. */
  lemma ForwardSweepable(net: Network, input: seq<Vector>, target: seq<Vector>)
    requires Chained(net.layers) && Accepts(net.layers, input) && 0 < |input|
    requires TargetFits(Forward(net.layers, input).out, target)
    ensures Sweepable(Forward(net.layers, input), target)
  {
  }

  /**
   * `train(input, target, learningRate)`: the loss is the mean squared
   * error of the forward pass made before any parameter changes, so it is
   * non-negative and zero on a perfect fit; the backward sweep is seeded
   * with `output - target` and leaves every layer one Adam step further,
   * with the caches of this forward pass.
   */
  function Train(clip: Clip, sqrt: NonNegFn, net: Network, input: seq<Vector>, target: seq<Vector>, lr: real)
    : (t: Trained)
    requires Chained(net.layers) && Accepts(net.layers, input) && 0 < |input|
    requires TargetFits(Forward(net.layers, input).out, target)
    ensures var run := Forward(net.layers, input);
            (ForwardSweepable(net, input, target);
             SeedAccepted(run, target);
             && t.loss == MeanSquares(run.out, target)
             && t.net.layers == Backward(clip, sqrt, run.layers, |input|, Seed(run.out, target), lr).layers)
    ensures 0.0 <= t.loss
    ensures |t.net.layers| == |net.layers| && Chained(t.net.layers)
  {
    ForwardSweepable(net, input, target);
    LossAndSweep(clip, sqrt, Forward(net.layers, input), target, lr)
  }
}
