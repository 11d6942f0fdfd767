/**
 * Row-wise operations on a matrix (NeuralNetworkCPP/Matrix/RowWiseProxy/RowWiseProxy.cpp):
 * a proxy that refers to a matrix, and the difference that subtracts a row
 * vector from every row of it.
 */
module RowWiseProxies {
  import opened Wrappers
  import opened Matrices

  /** Refers to a matrix without copying it. */
  class RowWiseProxy {
    const matrix: Matrix

    constructor(matrix: Matrix)
      ensures this.matrix == matrix
    {
      this.matrix := matrix;
    }
  }

  /** Column c of m minus entry c of the row vector v. */
  function ColumnsShifted(m: Mat, v: Mat): (s: Mat)
    requires WellFormed(m) && WellFormed(v) && v.rows == 1 && v.cols == m.cols
    ensures WellFormed(s) && SameShape(s, m)
  {
    Mat(m.rows, m.cols, seq(|m.data|, k requires 0 <= k < |m.data| =>
      FlatIndex(k, m.rows, m.cols);
      m.data[k] - At(v, 0, k % m.cols)))
  }

  lemma ColumnsShiftedAt(m: Mat, v: Mat, r: nat, c: nat)
    requires WellFormed(m) && WellFormed(v) && v.rows == 1 && v.cols == m.cols
    requires r < m.rows && c < m.cols
    ensures At(ColumnsShifted(m, v), r, c) == At(m, r, c) - At(v, 0, c)
  {
    IndexBound(r, c, m.rows, m.cols);
    DivModOf(r, c, m.cols);
  }

  /**
   * operator-(RowWiseProxy, Matrix): entry (r, c) of the result is entry
   * (r, c) of the matrix minus entry c of `right`; throws invalid_argument
   * unless `right` is a row vector with one entry per column.
   */
  method Minus(left: RowWiseProxy, right: Matrix) returns (r: Result<Matrix>)
    requires left.matrix.Valid() && right.Valid()
    ensures r.Err? <==> right.rows != 1 || right.cols != left.matrix.cols
    ensures r.Err? ==> r.error == InvalidArgument
    ensures r.Ok? ==> fresh(r.value) && r.value.Valid()
    ensures r.Ok? ==> r.value.Value() == ColumnsShifted(left.matrix.Value(), right.Value())
  {
    var m := left.matrix;
    if right.rows != 1 || right.cols != m.cols {
      return Err(InvalidArgument);
    }
    ghost var mv, rv := m.Value(), right.Value();
    var result := new Matrix.Copy(m);
    var i := 0;
    while i < result.rows
      invariant 0 <= i <= result.rows
      invariant fresh(result) && result.Valid() && SameShape(result.Value(), mv)
      invariant m.Value() == mv && right.Value() == rv
      invariant forall p, q :: 0 <= p < mv.rows && 0 <= q < mv.cols ==>
        At(result.Value(), p, q) == if p < i then At(mv, p, q) - At(rv, 0, q) else At(mv, p, q)
    {
      ShiftRow(result, i, right);
      i := i + 1;
    }
    ghost var out := result.Value();
    forall p, q | 0 <= p < mv.rows && 0 <= q < mv.cols
      ensures At(out, p, q) == At(ColumnsShifted(mv, rv), p, q)
    {
      ColumnsShiftedAt(mv, rv, p, q);
    }
    Extensionality(out, ColumnsShifted(mv, rv));
    return Ok(result);
  }

  /** The body of the parallel loop: row r of result, entry by entry, minus right. */
  method ShiftRow(result: Matrix, r: nat, right: Matrix)
    requires result.Valid() && right.Valid() && result != right
    requires right.rows == 1 && right.cols == result.cols && r < result.rows
    modifies result
    ensures result.Valid() && SameShape(result.Value(), old(result.Value()))
    ensures forall p, q :: 0 <= p < result.rows && 0 <= q < result.cols ==>
      At(result.Value(), p, q) ==
        if p == r then At(old(result.Value()), p, q) - At(right.Value(), 0, q) else At(old(result.Value()), p, q)
  {
    ghost var m0, v := result.Value(), right.Value();
    var j := 0;
    while j < result.cols
      invariant 0 <= j <= result.cols
      invariant result.Valid() && SameShape(result.Value(), m0)
      invariant forall p, q :: 0 <= p < m0.rows && 0 <= q < m0.cols ==>
        At(result.Value(), p, q) == if p == r && q < j then At(m0, p, q) - At(v, 0, q) else At(m0, p, q)
    {
      result.Set(r, j, result.Get(r, j) - right.Get(0, j));
      j := j + 1;
    }
  }
}
