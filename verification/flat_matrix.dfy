/**
 * The flat-index matrices of the two stand-alone network files: a matrix is
 * `{rows, cols, data}` and entry `(r, c)` lives at `data[r * cols + c]`.
 * The helpers are the same in both files: `createMatrix`, `at`/`matAt`,
 * `multiplyMatrix` (which checks three shapes and throws), `sumMatrix` and
 * `activateMatrix`. The in-place updates of the source become functions
 * returning the new matrix; the arguments they only read are untouched by
 * construction.
 */
module FlatMatrix {
  import opened Results
  import opened Prims

  datatype Mat = Mat(rows: nat, cols: nat, data: seq<real>)

  /** The data array holds exactly one entry per position. */
  predicate WellFormed(m: Mat)
  {
    |m.data| == m.rows * m.cols
  }

  /** A well-formed matrix of the given shape. */
  predicate HasShape(m: Mat, rows: nat, cols: nat)
  {
    m.rows == rows && m.cols == cols && WellFormed(m)
  }

  // ---------------------------------------------------------------------
  // Index arithmetic

  lemma MulMonotone(a: nat, b: nat, c: nat)
    requires a <= b
    ensures a * c <= b * c
  {
  }

  /** `at(mat, row, col)`: the flat position of entry `(row, col)`. */
  function Index(m: Mat, row: nat, col: nat): (idx: nat)
    requires row < m.rows && col < m.cols
    ensures idx < m.rows * m.cols
  {
    MulMonotone(row + 1, m.rows, m.cols);
    row * m.cols + col
  }

  /** Row-major positions are a bijection: position `idx` is entry `(idx / cols, idx % cols)`, and back. */
  lemma IndexSplit(m: Mat, idx: nat)
    requires idx < m.rows * m.cols
    ensures 0 < m.cols && idx / m.cols < m.rows && idx % m.cols < m.cols
    ensures Index(m, idx / m.cols, idx % m.cols) == idx
  {
    if m.rows <= idx / m.cols {
      MulMonotone(m.rows, idx / m.cols, m.cols);
    }
  }

  lemma IndexJoin(m: Mat, row: nat, col: nat)
    requires row < m.rows && col < m.cols
    ensures Index(m, row, col) / m.cols == row && Index(m, row, col) % m.cols == col
  {
    var idx := Index(m, row, col);
    var q, r := idx / m.cols, idx % m.cols;
    assert q * m.cols + r == row * m.cols + col;
    if q < row {
      MulMonotone(q + 1, row, m.cols);
    } else if row < q {
      MulMonotone(row + 1, q, m.cols);
    }
  }

  /** `matAt(m, row, col)`. */
  function At(m: Mat, row: nat, col: nat): real
    requires WellFormed(m) && row < m.rows && col < m.cols
  {
    m.data[Index(m, row, col)]
  }

  /** `createMatrix(rows, cols, value)`: `rows * cols` entries, all equal to `value`. */
  function Create(rows: nat, cols: nat, value: real): (m: Mat)
    ensures HasShape(m, rows, cols)
    ensures forall r, c :: 0 <= r < rows && 0 <= c < cols ==> At(m, r, c) == value
  {
    Mat(rows, cols, seq(rows * cols, _ => value))
  }

  /** The `rows`×`cols` matrix whose entry `(r, c)` is `f(r, c)`, laid out row by row. */
  function Tabulate(rows: nat, cols: nat, f: (nat, nat) -> real): (m: Mat)
    ensures HasShape(m, rows, cols)
    ensures forall r, c :: 0 <= r < rows && 0 <= c < cols ==> At(m, r, c) == f(r, c)
  {
    var shape := Mat(rows, cols, []);
    var data := seq(rows * cols, idx requires 0 <= idx < rows * cols =>
                    IndexSplit(shape, idx); f(idx / cols, idx % cols));
    var m := Mat(rows, cols, data);
    assert forall r, c :: 0 <= r < rows && 0 <= c < cols ==> At(m, r, c) == f(r, c) by {
      forall r, c | 0 <= r < rows && 0 <= c < cols
        ensures At(m, r, c) == f(r, c)
      {
        IndexJoin(m, r, c);
      }
    }
    m
  }

  // ---------------------------------------------------------------------
  // multiplyMatrix

  /** The first `n` terms of `dst[i][j] += matAt(a, i, k) * matAt(b, k, j)`, from `k = 0` up. */
  function RowCol(a: Mat, b: Mat, i: nat, j: nat, n: nat): real
    requires WellFormed(a) && WellFormed(b) && a.cols == b.rows
    requires i < a.rows && j < b.cols && n <= a.cols
  {
    if n == 0 then 0.0 else RowCol(a, b, i, j, n - 1) + At(a, i, n - 1) * At(b, n - 1, j)
  }

  /** The product entry that belongs at flat position `idx` of a `dst` of `b.cols` columns. */
  function ProductAt(a: Mat, b: Mat, dst: Mat, idx: nat): real
    requires WellFormed(a) && WellFormed(b) && a.cols == b.rows
    requires dst.rows == a.rows && dst.cols == b.cols && idx < dst.rows * dst.cols
  {
    IndexSplit(dst, idx);
    RowCol(a, b, idx / dst.cols, idx % dst.cols, a.cols)
  }

  /**
   * `multiplyMatrix(a, b, dst)`: the three shape checks, in the source's
   * order, each with its own error; when all pass, entry `(i, j)` of the
   * new `dst` is the row-by-column sum and nothing of the old `dst` but its
   * shape is left.
   */
  function Multiply(a: Mat, b: Mat, dst: Mat): (r: Result<Mat>)
    requires WellFormed(a) && WellFormed(b) && WellFormed(dst)
    ensures a.cols != b.rows ==> r == Err(ColumnsShouldEqualRows)
    ensures a.cols == b.rows && dst.rows != a.rows ==> r == Err(DstRowsDiffer)
    ensures a.cols == b.rows && dst.rows == a.rows && dst.cols != b.cols ==> r == Err(DstColsDiffer)
    ensures r.Ok? <==> a.cols == b.rows && dst.rows == a.rows && dst.cols == b.cols
    ensures r.Ok? ==> HasShape(r.value, dst.rows, dst.cols)
    ensures r.Ok? ==> forall i, j :: 0 <= i < dst.rows && 0 <= j < dst.cols ==>
                        At(r.value, i, j) == RowCol(a, b, i, j, a.cols)
  {
    if a.cols != b.rows then Err(ColumnsShouldEqualRows)
    else if dst.rows != a.rows then Err(DstRowsDiffer)
    else if dst.cols != b.cols then Err(DstColsDiffer)
    else
      var data := seq(dst.rows * dst.cols, idx requires 0 <= idx < dst.rows * dst.cols => ProductAt(a, b, dst, idx));
      var m := Mat(dst.rows, dst.cols, data);
      assert forall i, j :: 0 <= i < dst.rows && 0 <= j < dst.cols ==> At(m, i, j) == RowCol(a, b, i, j, a.cols) by {
        forall i, j | 0 <= i < dst.rows && 0 <= j < dst.cols
          ensures At(m, i, j) == RowCol(a, b, i, j, a.cols)
        {
          IndexJoin(dst, i, j);
        }
      }
      Ok(m)
  }

  /** Only the shape of `dst` matters: whatever it held before is overwritten. */
  lemma MultiplyOverwrites(a: Mat, b: Mat, dst: Mat, other: Mat)
    requires WellFormed(a) && WellFormed(b) && WellFormed(dst) && WellFormed(other)
    requires dst.rows == other.rows && dst.cols == other.cols
    ensures Multiply(a, b, dst) == Multiply(a, b, other)
  {
    if Multiply(a, b, dst).Ok? {
      var m, n := Multiply(a, b, dst).value, Multiply(a, b, other).value;
      assert m.data == n.data by {
        assert forall idx :: 0 <= idx < |m.data| ==> m.data[idx] == n.data[idx];
      }
    }
  }

  /**
   * The innermost loop of `multiplyMatrix` for one entry: the entry at
   * `at` is reset to zero and then accumulated over `k`; no other entry
   * changes.
   */
  method AccumulateEntry(a: Mat, b: Mat, data: seq<real>, at: nat, i: nat, j: nat) returns (out: seq<real>)
    requires WellFormed(a) && WellFormed(b) && a.cols == b.rows
    requires i < a.rows && j < b.cols && at < |data|
    ensures out == data[at := RowCol(a, b, i, j, a.cols)]
  {
    out := data[at := 0.0];
    var k := 0;
    while k < a.cols
      invariant 0 <= k <= a.cols
      invariant out == data[at := RowCol(a, b, i, j, k)]
    {
      assert RowCol(a, b, i, j, k + 1) == RowCol(a, b, i, j, k) + At(a, i, k) * At(b, k, j);
      out := out[at := out[at] + At(a, i, k) * At(b, k, j)];
      k := k + 1;
    }
  }

  /** The first `n` flat positions of `data` already hold their product entries. */
  predicate Done(a: Mat, b: Mat, dst: Mat, data: seq<real>, n: nat)
    requires WellFormed(a) && WellFormed(b) && a.cols == b.rows
    requires dst.rows == a.rows && dst.cols == b.cols && |data| == dst.rows * dst.cols && n <= |data|
  {
    forall idx :: 0 <= idx < n ==> data[idx] == ProductAt(a, b, dst, idx)
  }

  /** Writing entry `(i, j)` at its flat position extends the finished prefix by one. */
  lemma DoneStep(a: Mat, b: Mat, dst: Mat, data: seq<real>, i: nat, j: nat)
    requires WellFormed(a) && WellFormed(b) && a.cols == b.rows
    requires dst.rows == a.rows && dst.cols == b.cols && |data| == dst.rows * dst.cols
    requires i < dst.rows && j < dst.cols
    requires Done(a, b, dst, data, Index(dst, i, j))
    ensures Done(a, b, dst, data[Index(dst, i, j) := RowCol(a, b, i, j, a.cols)], Index(dst, i, j) + 1)
  {
    IndexJoin(dst, i, j);
  }

  /** A data array finished everywhere is the data of `Multiply`. */
  lemma DoneAll(a: Mat, b: Mat, dst: Mat, data: seq<real>)
    requires WellFormed(a) && WellFormed(b) && WellFormed(dst) && a.cols == b.rows
    requires dst.rows == a.rows && dst.cols == b.cols && |data| == dst.rows * dst.cols
    requires Done(a, b, dst, data, |data|)
    ensures Multiply(a, b, dst) == Ok(Mat(dst.rows, dst.cols, data))
  {
    var m := Multiply(a, b, dst).value;
    assert m.data == data by {
      assert forall idx :: 0 <= idx < |data| ==> m.data[idx] == data[idx];
    }
  }

  /**
   * The three nested loops of `multiplyMatrix`, writing `dst.data` in place
   * row by row and column by column. The result is `Multiply`.
   */
  method MultiplyInPlace(a: Mat, b: Mat, dst: Mat) returns (r: Result<Mat>)
    requires WellFormed(a) && WellFormed(b) && WellFormed(dst)
    ensures r == Multiply(a, b, dst)
  {
    if a.cols != b.rows {
      return Err(ColumnsShouldEqualRows);
    }
    if dst.rows != a.rows {
      return Err(DstRowsDiffer);
    }
    if dst.cols != b.cols {
      return Err(DstColsDiffer);
    }
    var data := dst.data;
    var i := 0;
    while i < a.rows
      invariant 0 <= i <= a.rows && |data| == dst.rows * dst.cols
      invariant i * dst.cols <= |data|
      invariant Done(a, b, dst, data, i * dst.cols)
    {
      var j := 0;
      while j < b.cols
        invariant 0 <= j <= b.cols && |data| == dst.rows * dst.cols
        invariant i * dst.cols + j <= |data|
        invariant Done(a, b, dst, data, i * dst.cols + j)
      {
        var at := Index(dst, i, j);
        DoneStep(a, b, dst, data, i, j);
        data := AccumulateEntry(a, b, data, at, i, j);
        j := j + 1;
      }
      NextRow(i, dst.cols);
      i := i + 1;
    }
    DoneAll(a, b, dst, data);
    r := Ok(Mat(dst.rows, dst.cols, data));
  }

  lemma NextRow(i: nat, cols: nat)
    ensures (i + 1) * cols == i * cols + cols
  {
  }

  // ---------------------------------------------------------------------
  // sumMatrix and activateMatrix

  /**
   * `sumMatrix(a, b)`: `b` is added into `a` entry by entry, `b` read at the
   * same row and column (through its own column count). `a` keeps its shape.
   */
  function SumInto(a: Mat, b: Mat): (r: Mat)
    requires WellFormed(a) && WellFormed(b) && a.rows <= b.rows && a.cols <= b.cols
    ensures HasShape(r, a.rows, a.cols)
    ensures forall i, j :: 0 <= i < a.rows && 0 <= j < a.cols ==> At(r, i, j) == At(a, i, j) + At(b, i, j)
  {
    var data := seq(a.rows * a.cols, idx requires 0 <= idx < a.rows * a.cols =>
                    IndexSplit(a, idx); a.data[idx] + At(b, idx / a.cols, idx % a.cols));
    var m := Mat(a.rows, a.cols, data);
    assert forall i, j :: 0 <= i < a.rows && 0 <= j < a.cols ==> At(m, i, j) == At(a, i, j) + At(b, i, j) by {
      forall i, j | 0 <= i < a.rows && 0 <= j < a.cols
        ensures At(m, i, j) == At(a, i, j) + At(b, i, j)
      {
        IndexJoin(a, i, j);
      }
    }
    m
  }

  /** `activateMatrix(m)`: every entry is replaced by its sigmoid. */
  function Activate(sigmoid: real -> real, m: Mat): (r: Mat)
    requires WellFormed(m)
    ensures HasShape(r, m.rows, m.cols)
    ensures forall i, j :: 0 <= i < m.rows && 0 <= j < m.cols ==> At(r, i, j) == sigmoid(At(m, i, j))
  {
    Mat(m.rows, m.cols, seq(|m.data|, idx requires 0 <= idx < |m.data| => sigmoid(m.data[idx])))
  }

  /**
   * One layer of `forward` on a single row `a`: entry `j` of
   * `activateMatrix(sumMatrix(multiplyMatrix(a, w, dst), b))` is the sigmoid
   * of the row-by-column sum plus bias `j`.
   */
  lemma LayerEntry(sigmoid: real -> real, a: Mat, w: Mat, b: Mat, dst: Mat, j: nat)
    requires HasShape(a, 1, w.rows) && WellFormed(w) && HasShape(b, 1, w.cols) && HasShape(dst, 1, w.cols)
    requires j < w.cols
    ensures Multiply(a, w, dst).Ok?
    ensures At(Activate(sigmoid, SumInto(Multiply(a, w, dst).value, b)), 0, j)
         == sigmoid(RowCol(a, w, 0, j, w.rows) + At(b, 0, j))
  {
    var product := Multiply(a, w, dst).value;
    var sum := SumInto(product, b);
    assert At(product, 0, j) == RowCol(a, w, 0, j, w.rows);
    assert At(sum, 0, j) == At(product, 0, j) + At(b, 0, j);
  }

  /** A well-formed matrix whose every entry is zero is the zero matrix `createMatrix` builds. */
  lemma AllZero(m: Mat)
    requires WellFormed(m)
    requires forall r, c :: 0 <= r < m.rows && 0 <= c < m.cols ==> At(m, r, c) == 0.0
    ensures m == Create(m.rows, m.cols, 0.0)
  {
    var z := Create(m.rows, m.cols, 0.0);
    forall idx | 0 <= idx < |m.data|
      ensures m.data[idx] == z.data[idx]
    {
      IndexSplit(m, idx);
      assert m.data[idx] == At(m, idx / m.cols, idx % m.cols);
    }
  }
}
