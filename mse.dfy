/**
 * The mean squared error loss (Losses/MeanSquaredError/MeanSquaredError.cpp)
 * on matrix values: the loss is the mean of the squared entry-wise errors,
 * the gradient 2 (p - t) / (rows * cols).
 */
module Losses {
  import opened Wrappers
  import opened Matrices

  function Square(x: real): real {
    x * x
  }

  /** The number of entries, as the divisor both operations use. */
  function Count(m: Mat): real {
    (m.rows * m.cols) as real
  }

  /**
   * computeLoss(predictions, targets): the sum of (t - p)^2 over all entries,
   * divided by the entry count. targets - predictions throws invalid_argument
   * when the shapes differ. An empty matrix would give 0 / 0 (NaN), so two
   * equally shaped matrices must have an entry.
   */
  function Loss(p: Mat, t: Mat): (r: Result<real>)
    requires WellFormed(p) && WellFormed(t)
    requires SameShape(p, t) ==> p.rows * p.cols > 0
    ensures r.Err? <==> !SameShape(p, t)
    ensures r.Err? ==> r.error == InvalidArgument
    ensures r.Ok? ==> r.value >= 0.0
  {
    if !SameShape(t, p) then Err(InvalidArgument)
    else
      var squares := Mapped(ZipWith(t, p, Sub), Square);
      SquaresNonNegative(t, p);
      SumNonNegative(squares.data);
      Ok(Sum(squares.data) / Count(p))
  }

  lemma SquaresNonNegative(t: Mat, p: Mat)
    requires WellFormed(p) && WellFormed(t) && SameShape(t, p)
    ensures forall k :: 0 <= k < |t.data| ==>
      Mapped(ZipWith(t, p, Sub), Square).data[k] == Square(t.data[k] - p.data[k]) >= 0.0
  {
    var d := ZipWith(t, p, Sub);
    forall k | 0 <= k < |t.data|
      ensures Mapped(d, Square).data[k] == Square(t.data[k] - p.data[k]) >= 0.0
    {
      assert d.data[k] == t.data[k] - p.data[k];
    }
  }

  lemma SquarePositive(x: real)
    requires x != 0.0
    ensures Square(x) > 0.0
  {
    calc {
      Square(x);
      x * x;
    >
      0.0;
    }
  }

  lemma SquareZero(x: real)
    ensures Square(x) == 0.0 <==> x == 0.0
  {
    if x != 0.0 {
      SquarePositive(x);
    }
  }

  /** The loss is zero exactly when the predictions equal the targets. */
  lemma LossZeroIffEqual(p: Mat, t: Mat)
    requires WellFormed(p) && WellFormed(t) && SameShape(p, t) && p.rows * p.cols > 0
    ensures Loss(p, t) == Ok(0.0) <==> p == t
  {
    var squares := Mapped(ZipWith(t, p, Sub), Square);
    SquaresNonNegative(t, p);
    SumNonNegative(squares.data);
    if Loss(p, t) == Ok(0.0) {
      assert Sum(squares.data) == 0.0;
      forall k | 0 <= k < |p.data|
        ensures p.data[k] == t.data[k]
      {
        SquareZero(t.data[k] - p.data[k]);
      }
      assert p.data == t.data;
    }
    if p == t {
      assert forall k :: 0 <= k < |squares.data| ==> squares.data[k] == 0.0;
      SumOfZeros(squares.data);
    }
  }

  /**
   * computeGradient(predictions, targets): 2 / (rows * cols) times
   * predictions - targets; throws invalid_argument when the shapes differ.
   * For an empty matrix the scale is infinite but scales no entry, so the
   * result is the empty matrix of the predictions' shape.
   */
  function Gradient(p: Mat, t: Mat): (r: Result<Mat>)
    requires WellFormed(p) && WellFormed(t)
    ensures r.Err? <==> !SameShape(p, t)
    ensures r.Err? ==> r.error == InvalidArgument
    ensures r.Ok? ==> WellFormed(r.value) && SameShape(r.value, p)
  {
    if !SameShape(p, t) then Err(InvalidArgument)
    else
      var scale := if p.rows * p.cols == 0 then 0.0 else 2.0 / Count(p);
      Ok(WithScalar(ZipWith(p, t, Sub), scale, Mul))
  }

  /** Entry k of the gradient is 2 (p[k] - t[k]) / (rows * cols). */
  lemma GradientAt(p: Mat, t: Mat, k: nat)
    requires WellFormed(p) && WellFormed(t) && SameShape(p, t) && k < |p.data|
    ensures Gradient(p, t).value.data[k] == 2.0 * (p.data[k] - t.data[k]) / Count(p)
  {
    assert ZipWith(p, t, Sub).data[k] == p.data[k] - t.data[k];
  }

  /** The gradient vanishes exactly when the predictions equal the targets. */
  lemma GradientZeroIffEqual(p: Mat, t: Mat)
    requires WellFormed(p) && WellFormed(t) && SameShape(p, t)
    ensures Gradient(p, t) == Ok(Fill(p.rows, p.cols, 0.0)) <==> p == t
  {
    var g := Gradient(p, t).value;
    forall k | 0 <= k < |p.data|
      ensures g.data[k] == 0.0 <==> p.data[k] == t.data[k]
    {
      GradientAt(p, t, k);
    }
    if g == Fill(p.rows, p.cols, 0.0) {
      assert forall k :: 0 <= k < |p.data| ==> g.data[k] == 0.0;
    }
    if p == t {
      assert g.data == Fill(p.rows, p.cols, 0.0).data;
    }
  }

  /** A sum of entries each c times those of s is c times the sum of s. */
  lemma {:induction false} SumScaled(s: seq<real>, u: seq<real>, c: real)
    requires |s| == |u| && forall k :: 0 <= k < |s| ==> u[k] == c * s[k]
    ensures Sum(u) == c * Sum(s)
  {
    if |s| > 0 {
      var n := |s| - 1;
      assert forall k :: 0 <= k < n ==> u[..n][k] == c * s[..n][k];
      SumScaled(s[..n], u[..n], c);
    }
  }

  /** Entry k of the gradient times the error is 2 / (rows * cols) times the squared error. */
  lemma PairAt(p: Mat, t: Mat, k: nat)
    requires WellFormed(p) && WellFormed(t) && SameShape(p, t) && p.rows * p.cols > 0 && k < |p.data|
    ensures ZipWith(Gradient(p, t).value, ZipWith(p, t, Sub), Mul).data[k]
      == (2.0 / Count(p)) * Mapped(ZipWith(t, p, Sub), Square).data[k]
  {
    var d := p.data[k] - t.data[k];
    var n := Count(p);
    GradientAt(p, t, k);
    assert ZipWith(p, t, Sub).data[k] == d;
    assert ZipWith(t, p, Sub).data[k] == -d;
    calc {
      (2.0 * d / n) * d;
      (2.0 / n) * (d * d);
      (2.0 / n) * Square(-d);
    }
  }

  lemma Pairs(p: Mat, t: Mat)
    requires WellFormed(p) && WellFormed(t) && SameShape(p, t) && p.rows * p.cols > 0
    ensures forall k :: 0 <= k < |p.data| ==>
      ZipWith(Gradient(p, t).value, ZipWith(p, t, Sub), Mul).data[k] == (2.0 / Count(p)) * Mapped(ZipWith(t, p, Sub), Square).data[k]
  {
    forall k | 0 <= k < |p.data|
      ensures ZipWith(Gradient(p, t).value, ZipWith(p, t, Sub), Mul).data[k]
        == (2.0 / Count(p)) * Mapped(ZipWith(t, p, Sub), Square).data[k]
    {
      PairAt(p, t, k);
    }
  }

  /**
   * The gradient and the loss belong together: the gradient's inner product
   * with the error p - t is twice the loss.
   */
  lemma GradientPairsWithLoss(p: Mat, t: Mat)
    requires WellFormed(p) && WellFormed(t) && SameShape(p, t) && p.rows * p.cols > 0
    ensures Sum(ZipWith(Gradient(p, t).value, ZipWith(p, t, Sub), Mul).data) == 2.0 * Loss(p, t).value
  {
    var squares := Mapped(ZipWith(t, p, Sub), Square);
    var pairs := ZipWith(Gradient(p, t).value, ZipWith(p, t, Sub), Mul);
    var n := Count(p);
    Pairs(p, t);
    SumScaled(squares.data, pairs.data, 2.0 / n);
    Twice(Sum(squares.data), n);
  }

  lemma Twice(total: real, n: real)
    requires n > 0.0
    ensures (2.0 / n) * total == 2.0 * (total / n)
  {
  }

  /** The values of the library's MSE tests. */
  lemma MseTestValues()
    ensures Loss(Mat(1, 1, [2.0]), Mat(1, 1, [3.0])) == Ok(1.0)
    ensures Loss(Mat(2, 2, [1.0, 2.0, 3.0, 4.0]), Mat(2, 2, [1.0, 3.0, 2.0, 5.0])) == Ok(0.75)
    ensures Gradient(Mat(1, 1, [2.0]), Mat(1, 1, [3.0])) == Ok(Mat(1, 1, [-2.0]))
    ensures Gradient(Mat(2, 2, [1.0, 2.0, 3.0, 4.0]), Mat(2, 2, [1.0, 3.0, 2.0, 5.0])) == Ok(Mat(2, 2, [0.0, -0.5, 0.5, -0.5]))
    ensures Loss(Fill(2, 2, 0.0), Fill(1, 2, 0.0)) == Err(InvalidArgument)
    ensures Gradient(Fill(2, 2, 0.0), Fill(1, 2, 0.0)) == Err(InvalidArgument)
  {
    var p, t := Mat(2, 2, [1.0, 2.0, 3.0, 4.0]), Mat(2, 2, [1.0, 3.0, 2.0, 5.0]);
    var d1 := ZipWith(Mat(1, 1, [3.0]), Mat(1, 1, [2.0]), Sub);
    var m1 := Mapped(d1, Square);
    assert d1.data[0] == 1.0;
    assert m1.data[0] == Square(1.0) == 1.0;
    assert m1.data == [1.0];
    var d4 := ZipWith(t, p, Sub);
    var m4 := Mapped(d4, Square);
    assert d4.data == [0.0, 1.0, -1.0, 1.0];
    assert m4.data[0] == Square(0.0) == 0.0 && m4.data[1] == Square(1.0) == 1.0;
    assert m4.data[2] == Square(-1.0) == 1.0 && m4.data[3] == Square(1.0);
    assert m4.data == [0.0, 1.0, 1.0, 1.0];
    assert Sum([0.0, 1.0, 1.0, 1.0]) == 3.0 by {
      assert [0.0, 1.0, 1.0, 1.0][..3] == [0.0, 1.0, 1.0];
      assert [0.0, 1.0, 1.0][..2] == [0.0, 1.0];
      assert [0.0, 1.0][..1] == [0.0];
      assert [0.0][..0] == [];
    }
    assert Sum([1.0]) == 1.0 by {
      assert [1.0][..0] == [];
    }
    assert WithScalar(ZipWith(Mat(1, 1, [2.0]), Mat(1, 1, [3.0]), Sub), 2.0, Mul).data == [-2.0];
    assert WithScalar(ZipWith(p, t, Sub), 0.5, Mul).data == [0.0, -0.5, 0.5, -0.5];
  }
}
