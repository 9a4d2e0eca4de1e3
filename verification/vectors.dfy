/**
 * Nested-array vector and matrix helpers: matrix-times-vector, vector
 * addition, shaped allocation, and the transposed products and gradient
 * sums the layers' backward passes are built from.
 *
 * A vector is a sequence of reals and a matrix is a sequence of rows. The
 * mathematical sum `Sum` (folded from the front) is the reference that the
 * left-to-right accumulations of the source are proved against.
 */
module Vectors {

  type Vector = seq<real>
  type Matrix = seq<seq<real>>

  /** `m` has exactly `rows` rows, each of length `cols`. */
  predicate IsShape(m: Matrix, rows: nat, cols: nat)
  {
    |m| == rows && forall i :: 0 <= i < rows ==> |m[i]| == cols
  }

  /** Same number of rows, and row by row the same length. */
  predicate SameShape(a: Matrix, b: Matrix)
  {
    |a| == |b| && forall i :: 0 <= i < |a| ==> |a[i]| == |b[i]|
  }

  function Zeros(n: nat): Vector
  {
    seq(n, _ => 0.0)
  }

  function ZeroMatrix(rows: nat, cols: nat): Matrix
  {
    seq(rows, _ => Zeros(cols))
  }

  predicate AllZero(v: Vector)
  {
    forall i :: 0 <= i < |v| ==> v[i] == 0.0
  }

  predicate AllZeroMatrix(m: Matrix)
  {
    forall i, j :: 0 <= i < |m| && 0 <= j < |m[i]| ==> m[i][j] == 0.0
  }

  // ---------------------------------------------------------------------
  // Sums

  /** The sum of a sequence of reals. */
  function Sum(s: seq<real>): real
  {
    if |s| == 0 then 0.0 else s[0] + Sum(s[1..])
  }

  lemma {:induction false} SumSnoc(s: seq<real>, x: real)
    ensures Sum(s + [x]) == Sum(s) + x
  {
    if |s| == 0 {
      assert s + [x] == [x];
      assert [x][1..] == [];
    } else {
      assert (s + [x])[1..] == s[1..] + [x];
      SumSnoc(s[1..], x);
    }
  }

  /** Element-wise products `a[i] * b[i]` over the indices of `a`. */
  function Products(a: Vector, b: Vector): Vector
    requires |a| <= |b|
  {
    seq(|a|, i requires 0 <= i < |a| => a[i] * b[i])
  }

  /** The first `n` terms of `row.reduce((sum, val, idx) => sum + val * v[idx], 0)`. */
  function DotPrefix(row: Vector, v: Vector, n: nat): real
    requires n <= |row| <= |v|
  {
    if n == 0 then 0.0 else DotPrefix(row, v, n - 1) + row[n - 1] * v[n - 1]
  }

  function Dot(row: Vector, v: Vector): real
    requires |row| <= |v|
  {
    DotPrefix(row, v, |row|)
  }

  lemma {:induction false} DotPrefixIsSum(row: Vector, v: Vector, n: nat)
    requires n <= |row| <= |v|
    ensures DotPrefix(row, v, n) == Sum(Products(row, v)[..n])
  {
    var p := Products(row, v);
    if n > 0 {
      DotPrefixIsSum(row, v, n - 1);
      assert p[..n] == p[..n - 1] + [p[n - 1]];
      SumSnoc(p[..n - 1], p[n - 1]);
    } else {
      assert p[..0] == [];
    }
  }

  /** The left-to-right accumulation of `reduce` is the sum of the element-wise products. */
  lemma DotIsSum(row: Vector, v: Vector)
    requires |row| <= |v|
    ensures Dot(row, v) == Sum(Products(row, v))
  {
    DotPrefixIsSum(row, v, |row|);
    assert Products(row, v)[..|row|] == Products(row, v);
  }

  // ---------------------------------------------------------------------
  // src/utils/math.ts

  /**
   * `multiplyMatrixVector`: one entry per matrix row, entry `i` the sum of
   * `row[idx] * vector[idx]` over the row's indices. Every row must be no
   * longer than the vector (a longer row would read past its end).
   */
  function MatVec(m: Matrix, v: Vector): (r: Vector)
    requires forall i :: 0 <= i < |m| ==> |m[i]| <= |v|
    ensures |r| == |m|
    ensures forall i :: 0 <= i < |m| ==> r[i] == Sum(Products(m[i], v))
  {
    var r := seq(|m|, i requires 0 <= i < |m| => Dot(m[i], v));
    forall i | 0 <= i < |m|
      ensures r[i] == Sum(Products(m[i], v))
    {
      DotIsSum(m[i], v);
    }
    r
  }

  /** `addVectors`: as long as `vec1`, entry `i` is `vec1[i] + vec2[i]`. */
  function AddVectors(vec1: Vector, vec2: Vector): (r: Vector)
    requires |vec1| <= |vec2|
    ensures |r| == |vec1|
    ensures forall i :: 0 <= i < |vec1| ==> r[i] == vec1[i] + vec2[i]
  {
    seq(|vec1|, i requires 0 <= i < |vec1| => vec1[i] + vec2[i])
  }

  /**
   * `initializeMatrix(rows, cols, initFunc)`: `gen(i, j)` stands for the value
   * the generator yields for row `i`, column `j`.
   */
  function InitializeMatrix(rows: nat, cols: nat, gen: (nat, nat) -> real): (r: Matrix)
    ensures IsShape(r, rows, cols)
    ensures forall i, j :: 0 <= i < rows && 0 <= j < cols ==> r[i][j] == gen(i, j)
  {
    seq(rows, i requires 0 <= i < rows => seq(cols, j requires 0 <= j < cols => gen(i, j)))
  }

  /** `initializeVector(size, initFunc)`. */
  function InitializeVector(size: nat, gen: nat -> real): (r: Vector)
    ensures |r| == size
    ensures forall i :: 0 <= i < size ==> r[i] == gen(i)
  {
    seq(size, i requires 0 <= i < size => gen(i))
  }

  /** With the generator `() => 0` the allocation is the zero matrix. */
  lemma InitializeWithZero(rows: nat, cols: nat)
    ensures InitializeMatrix(rows, cols, (i: nat, j: nat) => 0.0) == ZeroMatrix(rows, cols)
    ensures AllZeroMatrix(ZeroMatrix(rows, cols))
  {
    var a := InitializeMatrix(rows, cols, (i: nat, j: nat) => 0.0);
    forall i | 0 <= i < rows
      ensures a[i] == ZeroMatrix(rows, cols)[i]
    {
    }
  }

  // ---------------------------------------------------------------------
  // Algebra of the helpers

  lemma {:induction false} DotPrefixWithZeros(row: Vector, z: Vector, n: nat)
    requires n <= |row| <= |z| && AllZero(z)
    ensures DotPrefix(row, z, n) == 0.0
  {
    if n > 0 {
      DotPrefixWithZeros(row, z, n - 1);
    }
  }

  /** Multiplying by the zero vector gives the zero vector. */
  lemma MatVecZero(m: Matrix, n: nat)
    requires forall i :: 0 <= i < |m| ==> |m[i]| <= n
    ensures MatVec(m, Zeros(n)) == Zeros(|m|)
  {
    forall i | 0 <= i < |m|
      ensures MatVec(m, Zeros(n))[i] == 0.0
    {
      DotPrefixWithZeros(m[i], Zeros(n), |m[i]|);
    }
  }

  lemma {:induction false} DotPrefixCombine(x: Vector, a: Vector, b: Vector, c: Vector, s: real, n: nat)
    requires |a| == |b| == |c| == |x| && n <= |x|
    requires forall k :: 0 <= k < |a| ==> a[k] == b[k] + s * c[k]
    ensures DotPrefix(x, a, n) == DotPrefix(x, b, n) + s * DotPrefix(x, c, n)
  {
    if n > 0 {
      DotPrefixCombine(x, a, b, c, s, n - 1);
      calc {
        DotPrefix(x, a, n);
        DotPrefix(x, a, n - 1) + x[n - 1] * a[n - 1];
        DotPrefix(x, b, n - 1) + s * DotPrefix(x, c, n - 1) + x[n - 1] * (b[n - 1] + s * c[n - 1]);
        DotPrefix(x, b, n - 1) + x[n - 1] * b[n - 1] + s * (DotPrefix(x, c, n - 1) + x[n - 1] * c[n - 1]);
      }
    }
  }

  lemma {:induction false} DotPrefixCommutes(a: Vector, b: Vector, n: nat)
    requires |a| == |b| && n <= |a|
    ensures DotPrefix(a, b, n) == DotPrefix(b, a, n)
  {
    if n > 0 {
      DotPrefixCommutes(a, b, n - 1);
    }
  }

  /** Matrix-times-vector distributes over vector addition. */
  lemma MatVecLinear(m: Matrix, x: Vector, y: Vector)
    requires |x| == |y|
    requires forall i :: 0 <= i < |m| ==> |m[i]| == |x|
    ensures MatVec(m, AddVectors(x, y)) == AddVectors(MatVec(m, x), MatVec(m, y))
  {
    var s := AddVectors(x, y);
    forall i | 0 <= i < |m|
      ensures MatVec(m, s)[i] == MatVec(m, x)[i] + MatVec(m, y)[i]
    {
      DotPrefixCommutes(m[i], s, |m[i]|);
      DotPrefixCommutes(m[i], x, |m[i]|);
      DotPrefixCommutes(m[i], y, |m[i]|);
      DotPrefixCombine(m[i], s, x, y, 1.0, |m[i]|);
    }
  }

  // ---------------------------------------------------------------------
  // Transposed products (the `sum += W[j][k] * d[j]` loops of the backward passes)

  /** `sum` after the first `n` iterations of `for j: sum += w[j][k] * d[j]`. */
  function ColumnDot(w: Matrix, k: nat, d: Vector, n: nat): real
    requires n <= |w| && n <= |d|
    requires forall j :: 0 <= j < n ==> k < |w[j]|
  {
    if n == 0 then 0.0 else ColumnDot(w, k, d, n - 1) + w[n - 1][k] * d[n - 1]
  }

  /** Column `k` of `w`: the entries `w[j][k]` for every row `j`. */
  function Column(w: Matrix, k: nat): (c: Vector)
    requires forall j :: 0 <= j < |w| ==> k < |w[j]|
  {
    seq(|w|, j requires 0 <= j < |w| => w[j][k])
  }

  lemma {:induction false} ColumnDotIsDot(w: Matrix, k: nat, d: Vector, n: nat)
    requires n <= |w| <= |d|
    requires forall j :: 0 <= j < |w| ==> k < |w[j]|
    ensures ColumnDot(w, k, d, n) == DotPrefix(Column(w, k), d, n)
  {
    if n > 0 {
      ColumnDotIsDot(w, k, d, n - 1);
    }
  }

  /**
   * `Wᵀ·d` for a matrix with `cols` columns: entry `k` is the loop
   * `for j: sum += w[j][k] * d[j]`, which is column `k` dotted with `d`.
   */
  function TransposeMatVec(w: Matrix, d: Vector, cols: nat): (r: Vector)
    requires |w| <= |d|
    requires forall j :: 0 <= j < |w| ==> cols <= |w[j]|
    ensures |r| == cols
    ensures forall k :: 0 <= k < cols ==> r[k] == Sum(Products(Column(w, k), d))
  {
    var r := seq(cols, k requires 0 <= k < cols => ColumnDot(w, k, d, |w|));
    forall k | 0 <= k < cols
      ensures r[k] == Sum(Products(Column(w, k), d))
    {
      ColumnDotIsDot(w, k, d, |w|);
      DotIsSum(Column(w, k), d);
    }
    r
  }

  /** The vector of the first `n` partial column sums, used to prove the adjoint identity. */
  function PartialTranspose(w: Matrix, d: Vector, cols: nat, n: nat): Vector
    requires n <= |w| && n <= |d|
    requires forall j :: 0 <= j < |w| ==> cols <= |w[j]|
  {
    seq(cols, k requires 0 <= k < cols => ColumnDot(w, k, d, n))
  }

  lemma {:induction false} AdjointPrefix(w: Matrix, x: Vector, d: Vector, n: nat)
    requires IsShape(w, |d|, |x|) && n <= |w|
    ensures Dot(x, PartialTranspose(w, d, |x|, n)) == DotPrefix(MatVec(w, x), d, n)
  {
    var u := PartialTranspose(w, d, |x|, n);
    if n == 0 {
      assert AllZero(u);
      DotPrefixWithZeros(x, u, |x|);
    } else {
      var prev := PartialTranspose(w, d, |x|, n - 1);
      AdjointPrefix(w, x, d, n - 1);
      DotPrefixCombine(x, u, prev, w[n - 1], d[n - 1], |x|);
      DotPrefixCommutes(x, w[n - 1], |x|);
    }
  }

  /**
   * The adjoint identity `⟨x, Wᵀd⟩ = ⟨Wx, d⟩`: the input gradient a backward
   * pass returns is exactly the transpose of the forward pass's linear map.
   */
  lemma TransposeIsAdjoint(w: Matrix, x: Vector, d: Vector)
    requires IsShape(w, |d|, |x|)
    ensures Dot(x, TransposeMatVec(w, d, |x|)) == Dot(MatVec(w, x), d)
  {
    AdjointPrefix(w, x, d, |w|);
  }

  // ---------------------------------------------------------------------
  // Gradient accumulation

  /** `rows`×`cols` outer product: entry `[j][k]` is `d[j] * x[k]`. */
  function Outer(d: Vector, x: Vector, rows: nat, cols: nat): Matrix
    requires rows <= |d| && cols <= |x|
  {
    seq(rows, j requires 0 <= j < rows => seq(cols, k requires 0 <= k < cols => d[j] * x[k]))
  }

  function AddMatrices(a: Matrix, b: Matrix): Matrix
    requires SameShape(a, b)
  {
    seq(|a|, j requires 0 <= j < |a| => AddVectors(a[j], b[j]))
  }

  /** Every vector of `ds` has at least `n` entries. */
  predicate AllAtLeast(ds: seq<Vector>, n: nat)
  {
    forall i :: 0 <= i < |ds| ==> n <= |ds[i]|
  }

  /** `Σ_i Outer(ds[i], xs[i])`: the accumulated weight gradient of a batch or a sequence. */
  function OuterSum(ds: seq<Vector>, xs: seq<Vector>, rows: nat, cols: nat): (r: Matrix)
    requires |ds| == |xs| && AllAtLeast(ds, rows) && AllAtLeast(xs, cols)
    ensures IsShape(r, rows, cols)
    decreases |ds|
  {
    if |ds| == 0 then ZeroMatrix(rows, cols)
    else AddMatrices(OuterSum(ds[1..], xs[1..], rows, cols), Outer(ds[0], xs[0], rows, cols))
  }

  /** `Σ_i ds[i]` over the first `n` entries: the accumulated bias gradient. */
  function VectorSum(ds: seq<Vector>, n: nat): (r: Vector)
    requires AllAtLeast(ds, n)
    ensures |r| == n
    decreases |ds|
  {
    if |ds| == 0 then Zeros(n) else AddVectors(VectorSum(ds[1..], n), ds[0])
  }

  /** `Σ_i ds[i][j] * xs[i][k]`. */
  function ProductSum(ds: seq<Vector>, xs: seq<Vector>, j: nat, k: nat): real
    requires |ds| == |xs| && AllAtLeast(ds, j + 1) && AllAtLeast(xs, k + 1)
  {
    Sum(seq(|ds|, i requires 0 <= i < |ds| => ds[i][j] * xs[i][k]))
  }

  /** `Σ_i ds[i][j]`. */
  function EntrySum(ds: seq<Vector>, j: nat): real
    requires AllAtLeast(ds, j + 1)
  {
    Sum(seq(|ds|, i requires 0 <= i < |ds| => ds[i][j]))
  }

  /** Entry `[j][k]` of an accumulated outer-product sum is the sum of the per-item products. */
  lemma {:induction false} OuterSumEntry(ds: seq<Vector>, xs: seq<Vector>, rows: nat, cols: nat, j: nat, k: nat)
    requires |ds| == |xs| && AllAtLeast(ds, rows) && AllAtLeast(xs, cols)
    requires j < rows && k < cols
    ensures OuterSum(ds, xs, rows, cols)[j][k] == ProductSum(ds, xs, j, k)
    decreases |ds|
  {
    var s := seq(|ds|, i requires 0 <= i < |ds| => ds[i][j] * xs[i][k]);
    if |ds| > 0 {
      OuterSumEntry(ds[1..], xs[1..], rows, cols, j, k);
      var t := seq(|ds| - 1, i requires 0 <= i < |ds| - 1 => ds[1..][i][j] * xs[1..][i][k]);
      assert |s[1..]| == |t|;
      forall i | 0 <= i < |t|
        ensures s[1..][i] == t[i]
      {
      }
      assert s[1..] == t;
    }
  }

  /** Entry `j` of an accumulated vector sum is the sum of the items' entries `j`. */
  lemma {:induction false} VectorSumEntry(ds: seq<Vector>, n: nat, j: nat)
    requires AllAtLeast(ds, n) && j < n
    ensures VectorSum(ds, n)[j] == EntrySum(ds, j)
    decreases |ds|
  {
    var s := seq(|ds|, i requires 0 <= i < |ds| => ds[i][j]);
    if |ds| > 0 {
      VectorSumEntry(ds[1..], n, j);
      var t := seq(|ds| - 1, i requires 0 <= i < |ds| - 1 => ds[1..][i][j]);
      assert |s[1..]| == |t|;
      forall i | 0 <= i < |t|
        ensures s[1..][i] == t[i]
      {
      }
      assert s[1..] == t;
    }
  }

  /** `m` with every entry divided by `n` (the `/ batchSize`, `/ T` averaging). */
  function ScaleMatrix(m: Matrix, n: real): Matrix
    requires n != 0.0
  {
    seq(|m|, j requires 0 <= j < |m| => seq(|m[j]|, k requires 0 <= k < |m[j]| => m[j][k] / n))
  }

  function ScaleVector(v: Vector, n: real): Vector
    requires n != 0.0
  {
    seq(|v|, j requires 0 <= j < |v| => v[j] / n)
  }
}
