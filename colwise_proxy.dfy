/**
 * Column-wise operations on a matrix (NeuralNetworkCPP/Matrix/ColWiseProxy/ColWiseProxy.cpp):
 * a proxy that refers to a matrix, and the product that scales every column
 * of it by a column vector.
 */
module ColWiseProxies {
  import opened Wrappers
  import opened Matrices

  /** Refers to a matrix without copying it. */
  class ColWiseProxy {
    const matrix: Matrix

    constructor(matrix: Matrix)
      ensures this.matrix == matrix
    {
      this.matrix := matrix;
    }
  }

  /** Row r of m scaled by entry r of the column vector v. */
  function RowsScaled(m: Mat, v: Mat): (s: Mat)
    requires WellFormed(m) && WellFormed(v) && v.cols == 1 && v.rows == m.rows
    ensures WellFormed(s) && SameShape(s, m)
  {
    Mat(m.rows, m.cols, seq(|m.data|, k requires 0 <= k < |m.data| =>
      FlatIndex(k, m.rows, m.cols);
      m.data[k] * At(v, k / m.cols, 0)))
  }

  lemma RowsScaledAt(m: Mat, v: Mat, r: nat, c: nat)
    requires WellFormed(m) && WellFormed(v) && v.cols == 1 && v.rows == m.rows
    requires r < m.rows && c < m.cols
    ensures At(RowsScaled(m, v), r, c) == At(m, r, c) * At(v, r, 0)
  {
    IndexBound(r, c, m.rows, m.cols);
    DivModOf(r, c, m.cols);
  }

  /**
   * operator*(ColWiseProxy, Matrix): entry (r, c) of the result is entry
   * (r, c) of the matrix times entry r of `right`; throws invalid_argument
   * unless `right` is a column vector with one entry per row.
   */
  method Times(left: ColWiseProxy, right: Matrix) returns (r: Result<Matrix>)
    requires left.matrix.Valid() && right.Valid()
    ensures r.Err? <==> right.cols != 1 || right.rows != left.matrix.rows
    ensures r.Err? ==> r.error == InvalidArgument
    ensures r.Ok? ==> fresh(r.value) && r.value.Valid()
    ensures r.Ok? ==> r.value.Value() == RowsScaled(left.matrix.Value(), right.Value())
  {
    var m := left.matrix;
    if right.cols != 1 || right.rows != m.rows {
      return Err(InvalidArgument);
    }
    ghost var mv, rv := m.Value(), right.Value();
    var result := new Matrix.Copy(m);
    var i := 0;
    while i < result.cols
      invariant 0 <= i <= result.cols
      invariant fresh(result) && result.Valid() && SameShape(result.Value(), mv)
      invariant m.Value() == mv && right.Value() == rv
      invariant forall p, q :: 0 <= p < mv.rows && 0 <= q < mv.cols ==>
        At(result.Value(), p, q) == if q < i then At(mv, p, q) * At(rv, p, 0) else At(mv, p, q)
    {
      ScaleColumn(result, i, right);
      i := i + 1;
    }
    ghost var out := result.Value();
    forall p, q | 0 <= p < mv.rows && 0 <= q < mv.cols
      ensures At(out, p, q) == At(RowsScaled(mv, rv), p, q)
    {
      RowsScaledAt(mv, rv, p, q);
    }
    Extensionality(out, RowsScaled(mv, rv));
    return Ok(result);
  }

  /** The body of the parallel loop: column c of result, entry by entry, times right. */
  method ScaleColumn(result: Matrix, c: nat, right: Matrix)
    requires result.Valid() && right.Valid() && result != right
    requires right.cols == 1 && right.rows == result.rows && c < result.cols
    modifies result
    ensures result.Valid() && SameShape(result.Value(), old(result.Value()))
    ensures forall p, q :: 0 <= p < result.rows && 0 <= q < result.cols ==>
      At(result.Value(), p, q) ==
        if q == c then At(old(result.Value()), p, q) * At(right.Value(), p, 0) else At(old(result.Value()), p, q)
  {
    ghost var m0, v := result.Value(), right.Value();
    var j := 0;
    while j < result.rows
      invariant 0 <= j <= result.rows
      invariant result.Valid() && SameShape(result.Value(), m0)
      invariant forall p, q :: 0 <= p < m0.rows && 0 <= q < m0.cols ==>
        At(result.Value(), p, q) == if q == c && p < j then At(m0, p, q) * At(v, p, 0) else At(m0, p, q)
    {
      result.Set(j, c, result.Get(j, c) * right.Get(j, 0));
      j := j + 1;
    }
  }
}
