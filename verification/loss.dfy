/**
 * The loss both models' `train` compute: the squared differences between
 * output and target, summed over every entry of every output row (in the
 * order the `map` visits them) and divided by the number of rows. The
 * gradient they feed to the last layer is the plain difference
 * `output - target`, not scaled by anything.
 */
module Loss {
  import opened Vectors

  /** The target has a row for every output row, each at least as wide. */
  predicate TargetFits(output: seq<Vector>, target: seq<Vector>)
  {
    |output| <= |target| && forall i :: 0 <= i < |output| ==> |output[i]| <= |target[i]|
  }

  /** `diff = val - target[i][j]` for every output entry. */
  function Seed(output: seq<Vector>, target: seq<Vector>): (d: seq<Vector>)
    requires TargetFits(output, target)
    ensures |d| == |output|
    ensures forall i :: 0 <= i < |output| ==> |d[i]| == |output[i]|
    ensures forall i, j :: 0 <= i < |output| && 0 <= j < |output[i]| ==> d[i][j] == output[i][j] - target[i][j]
  {
    seq(|output|, i requires 0 <= i < |output| =>
        seq(|output[i]|, j requires 0 <= j < |output[i]| => output[i][j] - target[i][j]))
  }

  /** `loss += diff * diff` over the first `n` entries of a difference row. */
  function RowSquares(d: Vector, n: nat): real
    requires n <= |d|
  {
    if n == 0 then 0.0 else RowSquares(d, n - 1) + d[n - 1] * d[n - 1]
  }

  /** `loss` after the first `n` rows. */
  function Squares(d: seq<Vector>, n: nat): real
    requires n <= |d|
  {
    if n == 0 then 0.0 else Squares(d, n - 1) + RowSquares(d[n - 1], |d[n - 1]|)
  }

  /** `loss / output.length` for a non-empty output. */
  function MeanSquares(output: seq<Vector>, target: seq<Vector>): (loss: real)
    requires TargetFits(output, target) && 0 < |output|
    ensures 0.0 <= loss
    ensures (forall i, j :: 0 <= i < |output| && 0 <= j < |output[i]| ==> output[i][j] == target[i][j]) ==> loss == 0.0
  {
    var d := Seed(output, target);
    SquaresNonNegative(d, |d|);
    Squares(d, |d|) / (|output| as real)
  }

  lemma {:induction false} RowSquaresNonNegative(d: Vector, n: nat)
    requires n <= |d|
    ensures 0.0 <= RowSquares(d, n)
    ensures (forall j :: 0 <= j < n ==> d[j] == 0.0) ==> RowSquares(d, n) == 0.0
  {
    if n > 0 {
      RowSquaresNonNegative(d, n - 1);
    }
  }

  /** The sum of squares is non-negative, and zero when every difference is zero. */
  lemma {:induction false} SquaresNonNegative(d: seq<Vector>, n: nat)
    requires n <= |d|
    ensures 0.0 <= Squares(d, n)
    ensures (forall i, j :: 0 <= i < n && 0 <= j < |d[i]| ==> d[i][j] == 0.0) ==> Squares(d, n) == 0.0
  {
    if n > 0 {
      SquaresNonNegative(d, n - 1);
      RowSquaresNonNegative(d[n - 1], |d[n - 1]|);
    }
  }
}
