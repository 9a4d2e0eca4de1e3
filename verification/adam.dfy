/**
 * The Adam update both layer types apply after every backward pass:
 *
 *   m := β1·m + (1-β1)·g
 *   v := β2·v + (1-β2)·g·g
 *   param -= lr · (m / (1-β1^t)) / (sqrt(v / (1-β2^t)) + ε)
 *
 * with β1 = 0.9, β2 = 0.999, ε = 1e-8 and `t` the layer's step counter after
 * it was incremented. A parameter tensor is kept together with its two moment
 * tensors of the same shape.
 */
module Adam {
  import opened Prims
  import opened Vectors

  const Beta1: real := 0.9
  const Beta2: real := 0.999
  const Epsilon: real := 0.00000001

  /** `Math.pow(b, t)` for a whole-number exponent. */
  function Pow(b: real, t: nat): real
  {
    if t == 0 then 1.0 else b * Pow(b, t - 1)
  }

  lemma {:induction false} PowPositive(b: real, t: nat)
    requires 0.0 < b
    ensures 0.0 < Pow(b, t)
  {
    if t > 0 {
      PowPositive(b, t - 1);
    }
  }

  lemma {:induction false} PowBelowOne(b: real, t: nat)
    requires 0.0 < b < 1.0 && 1 <= t
    ensures Pow(b, t) < 1.0
  {
    if t > 1 {
      PowBelowOne(b, t - 1);
      PowPositive(b, t - 1);
    }
  }

  lemma ShrinkBy(b: real, p: real)
    requires 0.0 < b < 1.0 && 0.0 < p
    ensures 0.0 < b * p < p
  {
    assert p - b * p == (1.0 - b) * p;
  }

  /** Dividing by a positive number keeps the sign. */
  lemma DivSign(a: real, d: real)
    requires 0.0 < d
    ensures 0.0 < a ==> 0.0 < a / d
    ensures a < 0.0 ==> a / d < 0.0
    ensures a == 0.0 ==> a / d == 0.0
  {
    var q := a / d;
    assert q * d == a;
  }

  /**
   * The bias-correction denominators `1 - b^t` are positive from the first
   * step on, never exceed 1, and strictly increase with every step.
   */
  lemma CorrectionIncreasing(b: real, t: nat)
    requires 0.0 < b < 1.0
    ensures 1 <= t ==> 0.0 < 1.0 - Pow(b, t)
    ensures 1.0 - Pow(b, t) < 1.0 - Pow(b, t + 1) < 1.0
  {
    PowPositive(b, t);
    ShrinkBy(b, Pow(b, t));
    assert Pow(b, t + 1) == b * Pow(b, t);
    if 1 <= t {
      PowBelowOne(b, t);
    }
  }

  /** A parameter element together with its first and second moment. */
  datatype Moment = Moment(param: real, m: real, v: real)

  /**
   * One Adam step on one element with averaged gradient `g` at step count `t`.
   * The first moment moves to a point between its old value and `g`, the
   * second moment stays non-negative, and the parameter moves against the
   * sign of the new first moment (not at all when it is zero).
   */
  function Step(sqrt: NonNegFn, x: Moment, g: real, lr: real, t: nat): (r: Moment)
    requires 1 <= t
    ensures (x.m <= r.m <= g) || (g <= r.m <= x.m)
    ensures 0.0 <= x.v ==> 0.0 <= r.v
    ensures r.m == 0.0 ==> r.param == x.param
    ensures 0.0 < lr && 0.0 < r.m ==> r.param < x.param
    ensures 0.0 < lr && r.m < 0.0 ==> r.param > x.param
  {
    CorrectionIncreasing(Beta1, t);
    CorrectionIncreasing(Beta2, t);
    var m := Beta1 * x.m + (1.0 - Beta1) * g;
    var v := Beta2 * x.v + (1.0 - Beta2) * g * g;
    var mHat := m / (1.0 - Pow(Beta1, t));
    var vHat := v / (1.0 - Pow(Beta2, t));
    var denom := sqrt(vHat) + Epsilon;
    DivSign(m, 1.0 - Pow(Beta1, t));
    assert 0.0 < lr && 0.0 < m ==> 0.0 < lr * mHat;
    assert 0.0 < lr && m < 0.0 ==> lr * mHat < 0.0;
    DivSign(lr * mHat, denom);
    Moment(x.param - (lr * mHat) / denom, m, v)
  }

  /**
   * Bias correction is exact on the first step from zero moments: the
   * corrected moments are `g` and `g·g`, so the step is `lr·g / (sqrt(g·g) + ε)`.
   */
  lemma FirstStepUnbiased(sqrt: NonNegFn, param: real, g: real, lr: real)
    ensures Step(sqrt, Moment(param, 0.0, 0.0), g, lr, 1)
         == Moment(param - (lr * g) / (sqrt(g * g) + Epsilon), (1.0 - Beta1) * g, (1.0 - Beta2) * g * g)
  {
    assert Pow(Beta1, 1) == Beta1 && Pow(Beta2, 1) == Beta2;
    var mHat := ((1.0 - Beta1) * g) / (1.0 - Pow(Beta1, 1));
    var vHat := ((1.0 - Beta2) * g * g) / (1.0 - Pow(Beta2, 1));
    assert mHat == g;
    assert vHat == g * g;
    assert Step(sqrt, Moment(param, 0.0, 0.0), g, lr, 1)
        == Moment(param - (lr * mHat) / (sqrt(vHat) + Epsilon), (1.0 - Beta1) * g, (1.0 - Beta2) * g * g);
  }

  // ---------------------------------------------------------------------
  // Whole tensors

  datatype AdamMatrix = AdamMatrix(param: Matrix, m: Matrix, v: Matrix)

  datatype AdamVector = AdamVector(param: Vector, m: Vector, v: Vector)

  predicate NonNegative(v: Vector)
  {
    forall i :: 0 <= i < |v| ==> 0.0 <= v[i]
  }

  predicate NonNegativeMatrix(v: Matrix)
  {
    forall i, j :: 0 <= i < |v| && 0 <= j < |v[i]| ==> 0.0 <= v[i][j]
  }

  /** Parameter and both moments are `rows`×`cols`; the second moment is non-negative. */
  predicate MatrixShaped(a: AdamMatrix, rows: nat, cols: nat)
  {
    IsShape(a.param, rows, cols) && IsShape(a.m, rows, cols) && IsShape(a.v, rows, cols)
    && NonNegativeMatrix(a.v)
  }

  predicate VectorShaped(a: AdamVector, n: nat)
  {
    |a.param| == n && |a.m| == n && |a.v| == n && NonNegative(a.v)
  }

  /** Both moment tensors are all zero. */
  predicate MatrixFresh(a: AdamMatrix)
  {
    AllZeroMatrix(a.m) && AllZeroMatrix(a.v)
  }

  predicate VectorFresh(a: AdamVector)
  {
    AllZero(a.m) && AllZero(a.v)
  }

  /** A parameter matrix with zero-filled moments, as the layer constructors allocate them. */
  function NewMatrix(param: Matrix, rows: nat, cols: nat): (a: AdamMatrix)
    requires IsShape(param, rows, cols)
    ensures MatrixShaped(a, rows, cols) && MatrixFresh(a) && a.param == param
  {
    InitializeWithZero(rows, cols);
    AdamMatrix(param, InitializeMatrix(rows, cols, (i: nat, j: nat) => 0.0),
               InitializeMatrix(rows, cols, (i: nat, j: nat) => 0.0))
  }

  /** `Array(n).fill(0)` moments. */
  function NewVector(param: Vector): (a: AdamVector)
    ensures VectorShaped(a, |param|) && VectorFresh(a) && a.param == param
  {
    AdamVector(param, Zeros(|param|), Zeros(|param|))
  }

  /** The element at `[i][j]` of a parameter matrix and its moments. */
  function MatrixAt(a: AdamMatrix, i: nat, j: nat): Moment
    requires i < |a.param| && i < |a.m| && i < |a.v|
    requires j < |a.param[i]| && j < |a.m[i]| && j < |a.v[i]|
  {
    Moment(a.param[i][j], a.m[i][j], a.v[i][j])
  }

  function VectorAt(a: AdamVector, i: nat): Moment
    requires i < |a.param| && i < |a.m| && i < |a.v|
  {
    Moment(a.param[i], a.m[i], a.v[i])
  }

  /** The Adam step applied to every element of a matrix, all at the same step count `t`. */
  function StepMatrix(sqrt: NonNegFn, a: AdamMatrix, g: Matrix, lr: real, t: nat, rows: nat, cols: nat): (r: AdamMatrix)
    requires MatrixShaped(a, rows, cols) && IsShape(g, rows, cols) && 1 <= t
    ensures MatrixShaped(r, rows, cols)
    ensures forall i, j :: 0 <= i < rows && 0 <= j < cols ==>
              MatrixAt(r, i, j) == Step(sqrt, MatrixAt(a, i, j), g[i][j], lr, t)
  {
    var s := seq(rows, i requires 0 <= i < rows =>
                 seq(cols, j requires 0 <= j < cols => Step(sqrt, MatrixAt(a, i, j), g[i][j], lr, t)));
    AdamMatrix(seq(rows, i requires 0 <= i < rows => seq(cols, j requires 0 <= j < cols => s[i][j].param)),
               seq(rows, i requires 0 <= i < rows => seq(cols, j requires 0 <= j < cols => s[i][j].m)),
               seq(rows, i requires 0 <= i < rows => seq(cols, j requires 0 <= j < cols => s[i][j].v)))
  }

  /** The Adam step applied to every element of a vector at step count `t`. */
  function StepVector(sqrt: NonNegFn, a: AdamVector, g: Vector, lr: real, t: nat, n: nat): (r: AdamVector)
    requires VectorShaped(a, n) && |g| == n && 1 <= t
    ensures VectorShaped(r, n)
    ensures forall i :: 0 <= i < n ==> VectorAt(r, i) == Step(sqrt, VectorAt(a, i), g[i], lr, t)
  {
    var s := seq(n, i requires 0 <= i < n => Step(sqrt, VectorAt(a, i), g[i], lr, t));
    AdamVector(seq(n, i requires 0 <= i < n => s[i].param),
               seq(n, i requires 0 <= i < n => s[i].m),
               seq(n, i requires 0 <= i < n => s[i].v))
  }

  /**
   * Adam applied to a weight matrix whose raw gradient is the accumulated
   * `Σ_i ds[i] ⊗ xs[i]`, divided by the number of items before the moments
   * see it.
   */
  function UpdateMatrix(sqrt: NonNegFn, a: AdamMatrix, ds: seq<Vector>, xs: seq<Vector>, lr: real, t: nat,
                        rows: nat, cols: nat): (r: AdamMatrix)
    requires MatrixShaped(a, rows, cols) && 1 <= t
    requires 0 < |ds| == |xs| && AllAtLeast(ds, rows) && AllAtLeast(xs, cols)
    ensures MatrixShaped(r, rows, cols)
    ensures forall j, k :: 0 <= j < rows && 0 <= k < cols ==>
              MatrixAt(r, j, k) == Step(sqrt, MatrixAt(a, j, k), ProductSum(ds, xs, j, k) / (|ds| as real), lr, t)
  {
    var g := OuterSum(ds, xs, rows, cols);
    forall j, k | 0 <= j < rows && 0 <= k < cols
      ensures g[j][k] == ProductSum(ds, xs, j, k)
    {
      OuterSumEntry(ds, xs, rows, cols, j, k);
    }
    StepMatrix(sqrt, a, ScaleMatrix(g, |ds| as real), lr, t, rows, cols)
  }

  /** Adam applied to a bias vector whose raw gradient is `Σ_i ds[i]`, divided by the number of items. */
  function UpdateVector(sqrt: NonNegFn, a: AdamVector, ds: seq<Vector>, lr: real, t: nat, n: nat): (r: AdamVector)
    requires VectorShaped(a, n) && 1 <= t
    requires 0 < |ds| && AllAtLeast(ds, n)
    ensures VectorShaped(r, n)
    ensures forall j :: 0 <= j < n ==>
              VectorAt(r, j) == Step(sqrt, VectorAt(a, j), EntrySum(ds, j) / (|ds| as real), lr, t)
  {
    var g := VectorSum(ds, n);
    forall j | 0 <= j < n
      ensures g[j] == EntrySum(ds, j)
    {
      VectorSumEntry(ds, n, j);
    }
    StepVector(sqrt, a, ScaleVector(g, |ds| as real), lr, t, n)
  }
}
