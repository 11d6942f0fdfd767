/**
 * The ReLU activation (Activations/ReLU/ReLU.cpp): forward clamps every
 * entry at zero and keeps its output; backward lets the incoming gradient
 * through where that kept output is positive.
 */
module Activations {
  import opened Wrappers
  import opened Matrices

  /** std::max(0.0, x). */
  function Relu(x: real): real {
    if 0.0 < x then x else 0.0
  }

  /** The derivative forward's output implies: 1 where it is positive, 0 elsewhere. */
  function Slope(y: real): real {
    if y > 0.0 then 1.0 else 0.0
  }

  /** backward's result for incoming gradient g and kept output y. */
  function Masked(g: Mat, y: Mat): (r: Mat)
    requires WellFormed(g) && WellFormed(y) && SameShape(g, y)
    ensures WellFormed(r) && SameShape(r, g)
  {
    ZipWith(g, Mapped(y, Slope), Mul)
  }

  /** Every entry of a ReLU output is non-negative, and positive entries pass unchanged. */
  lemma ReluOutput(x: Mat)
    requires WellFormed(x)
    ensures forall k :: 0 <= k < |x.data| ==> Mapped(x, Relu).data[k] >= 0.0
    ensures forall k :: 0 <= k < |x.data| ==> (x.data[k] >= 0.0 <==> Mapped(x, Relu).data[k] == x.data[k])
  {
    forall k | 0 <= k < |x.data|
      ensures Mapped(x, Relu).data[k] == Relu(x.data[k])
    {
    }
  }

  /** Applying ReLU a second time changes nothing. */
  lemma ReluIdempotent(x: Mat)
    requires WellFormed(x)
    ensures Mapped(Mapped(x, Relu), Relu) == Mapped(x, Relu)
  {
    var once := Mapped(x, Relu);
    forall k | 0 <= k < |once.data|
      ensures Mapped(once, Relu).data[k] == once.data[k]
    {
      assert once.data[k] == Relu(x.data[k]);
    }
    assert Mapped(once, Relu).data == once.data;
  }

  /**
   * Backward after forward on input x: the gradient passes exactly where x
   * was positive and is zero elsewhere.
   */
  lemma MaskedAfterForward(x: Mat, g: Mat)
    requires WellFormed(x) && WellFormed(g) && SameShape(g, x)
    ensures forall k :: 0 <= k < |g.data| ==>
      Masked(g, Mapped(x, Relu)).data[k] == if x.data[k] > 0.0 then g.data[k] else 0.0
  {
    var y := Mapped(x, Relu);
    forall k | 0 <= k < |g.data|
      ensures Masked(g, y).data[k] == g.data[k] * Slope(Relu(x.data[k]))
    {
      assert y.data[k] == Relu(x.data[k]);
      assert Mapped(y, Slope).data[k] == Slope(y.data[k]);
    }
  }

  /** Masking twice with the same output is masking once. */
  lemma MaskedIdempotent(g: Mat, y: Mat)
    requires WellFormed(g) && WellFormed(y) && SameShape(g, y)
    ensures Masked(Masked(g, y), y) == Masked(g, y)
  {
    var once := Masked(g, y);
    var slopes := Mapped(y, Slope);
    forall k | 0 <= k < |once.data|
      ensures Masked(once, y).data[k] == once.data[k]
    {
      assert slopes.data[k] == Slope(y.data[k]);
      assert once.data[k] == g.data[k] * slopes.data[k];
      assert Masked(once, y).data[k] == once.data[k] * slopes.data[k];
      if y.data[k] > 0.0 {
        assert slopes.data[k] == 1.0;
      } else {
        assert slopes.data[k] == 0.0;
      }
    }
  }

  /**
   * The values of the library's ReLU test: forward of [[1, -2], [3, 0]] is
   * [[1, 0], [3, 0]], and backward of [[0.1, 0.2], [0, -0.4]] is
   * [[0.1, 0], [0, 0]] (the test itself expects 1.0 in the first row).
   */
  lemma ReluTestValues()
    ensures Mapped(Mat(2, 2, [1.0, -2.0, 3.0, 0.0]), Relu) == Mat(2, 2, [1.0, 0.0, 3.0, 0.0])
    ensures Masked(Mat(2, 2, [0.1, 0.2, 0.0, -0.4]), Mat(2, 2, [1.0, 0.0, 3.0, 0.0])) == Mat(2, 2, [0.1, 0.0, 0.0, 0.0])
  {
    assert Mapped(Mat(2, 2, [1.0, -2.0, 3.0, 0.0]), Relu).data == [1.0, 0.0, 3.0, 0.0];
    assert Mapped(Mat(2, 2, [1.0, 0.0, 3.0, 0.0]), Slope).data == [1.0, 0.0, 1.0, 0.0];
    assert Masked(Mat(2, 2, [0.1, 0.2, 0.0, -0.4]), Mat(2, 2, [1.0, 0.0, 3.0, 0.0])).data == [0.1, 0.0, 0.0, 0.0];
  }

  class ReLU {
    /** m_output: the output of the last forward, 0 x 0 before the first. */
    const output: Matrix

    ghost predicate Valid()
      reads this, output
    {
      output.Valid()
    }

    constructor ()
      ensures Valid() && fresh(output) && output.Value() == Mat(0, 0, [])
    {
      output := new Matrix.Empty();
    }

    /** forward: max(0, x) for every entry, kept in output and returned as a copy. */
    method Forward(input: Matrix) returns (r: Matrix)
      requires Valid() && input.Valid()
      modifies output
      ensures Valid() && output.Value() == Mapped(old(input.Value()), Relu)
      ensures fresh(r) && r.Valid() && r.Value() == output.Value()
    {
      var mapped := input.Map(Relu);
      output.Assign(mapped);
      r := new Matrix.Copy(output);
    }

    /**
     * backward: the incoming gradient times the slope of the kept output;
     * throws invalid_argument when the gradient's shape differs from it.
     */
    method Backward(gradient: Matrix) returns (r: Result<Matrix>)
      requires Valid() && gradient.Valid()
      ensures r.Err? <==> !SameShape(gradient.Value(), output.Value())
      ensures r.Err? ==> r.error == InvalidArgument
      ensures r.Ok? ==> fresh(r.value) && r.value.Valid() && r.value.Value() == Masked(gradient.Value(), output.Value())
    {
      var mask := output.Map(Slope);
      r := gradient.CwiseProduct(mask);
    }
  }
}
