/**
 * A dataset held as std::vector<std::vector<double>> and the matrix the
 * evaluator and the trainer build from it with Matrix(rows): the rows laid
 * end to end, one matrix row per dataset row. Matrix.hpp declares no such
 * constructor and Matrix.cpp defines none; the model gives it the meaning
 * its callers rely on, and rejects rows of unequal length.
 */
module Tables {
  import opened Wrappers
  import opened Matrices
  import opened Utils

  /** Every row as long as the first. */
  predicate Rectangular(rows: Rows) {
    forall i :: 0 <= i < |rows| ==> |rows[i]| == |rows[0]|
  }

  /** The rows laid end to end. */
  function Flatten(rows: Rows): seq<real> {
    if |rows| == 0 then [] else Flatten(rows[..|rows| - 1]) + rows[|rows| - 1]
  }

  /** Entry j of row i of rows of width c lands at position i * c + j. */
  lemma {:induction false} FlattenAt(rows: Rows, c: nat)
    requires forall i :: 0 <= i < |rows| ==> |rows[i]| == c
    ensures |Flatten(rows)| == |rows| * c
    ensures forall i, j :: 0 <= i < |rows| && 0 <= j < c ==>
      i * c + j < |Flatten(rows)| && Flatten(rows)[i * c + j] == rows[i][j]
  {
    if |rows| > 0 {
      var n := |rows| - 1;
      FlattenAt(rows[..n], c);
      var prefix := Flatten(rows[..n]);
      assert Flatten(rows) == prefix + rows[n];
      assert |prefix| == n * c;
      assert |rows| * c == n * c + c;
      forall i, j | 0 <= i < |rows| && 0 <= j < c
        ensures i * c + j < |Flatten(rows)| && Flatten(rows)[i * c + j] == rows[i][j]
      {
        if i < n {
          IndexBound(i, j, n, c);
          assert rows[..n][i] == rows[i];
          assert Flatten(rows)[i * c + j] == prefix[i * c + j];
        } else {
          assert i * c + j == |prefix| + j;
        }
      }
    }
  }

  /**
   * Matrix(rows): |rows| x |rows[0]|, entry (i, j) the j-th value of row i.
   * Rows of unequal length throw invalid_argument; no rows give 0 x 0.
   */
  function FromRows(rows: Rows): (r: Result<Mat>)
    ensures r.Err? <==> !Rectangular(rows)
    ensures r.Err? ==> r.error == InvalidArgument
    ensures r.Ok? ==> WellFormed(r.value) && r.value.rows == |rows| && r.value.cols == if |rows| > 0 then |rows[0]| else 0
    ensures r.Ok? ==> forall i, j :: 0 <= i < |rows| && 0 <= j < r.value.cols ==> At(r.value, i, j) == rows[i][j]
  {
    if |rows| == 0 then Ok(Mat(0, 0, []))
    else if !Rectangular(rows) then Err(InvalidArgument)
    else
      FlattenAt(rows, |rows[0]|);
      Ok(Mat(|rows|, |rows[0]|, Flatten(rows)))
  }

  /** Row i of m, as the slice of its buffer. */
  function RowAt(m: Mat, i: nat): (r: Row)
    requires WellFormed(m) && i < m.rows
    ensures |r| == m.cols && forall j :: 0 <= j < m.cols ==> r[j] == At(m, i, j)
  {
    assert (i + 1) * m.cols <= m.rows * m.cols by {
      if m.cols > 0 {
        IndexBound(i, m.cols - 1, m.rows, m.cols);
      }
    }
    m.data[i * m.cols .. i * m.cols + m.cols]
  }

  /** The rows of m, read entry by entry as predict does. */
  function RowsOf(m: Mat): (r: Rows)
    requires WellFormed(m)
    ensures |r| == m.rows && forall i :: 0 <= i < m.rows ==> |r[i]| == m.cols
    ensures forall i, j :: 0 <= i < m.rows && 0 <= j < m.cols ==> r[i][j] == At(m, i, j)
  {
    seq(m.rows, i requires 0 <= i < m.rows => RowAt(m, i))
  }

  /** Reading back the rows of the matrix built from rows gives the rows. */
  lemma RowsOfFromRows(rows: Rows)
    requires Rectangular(rows) && |rows| > 0
    ensures RowsOf(FromRows(rows).value) == rows
  {
    var r := RowsOf(FromRows(rows).value);
    forall i | 0 <= i < |rows|
      ensures r[i] == rows[i]
    {
    }
  }

  /** Building a matrix from the rows of a matrix with at least one row gives it back. */
  lemma FromRowsOfRows(m: Mat)
    requires WellFormed(m) && m.rows > 0
    ensures FromRows(RowsOf(m)) == Ok(m)
  {
    var r := FromRows(RowsOf(m));
    Extensionality(r.value, m);
  }

  /** Two non-empty tables that both make a matrix make the same matrix exactly when they are equal. */
  lemma FromRowsInjective(a: Rows, b: Rows)
    requires |a| > 0 && |b| > 0 && FromRows(a).Ok? && FromRows(b).Ok?
    ensures FromRows(a) == FromRows(b) <==> a == b
  {
    if FromRows(a) == FromRows(b) {
      RowsOfFromRows(a);
      RowsOfFromRows(b);
    }
  }
}
