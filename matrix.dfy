/**
 * The matrix engine (NeuralNetworkCPP/Matrix/Matrix.cpp): a dense matrix of
 * doubles stored row-major, entry (r, c) at position r * cols + c.
 *
 * `double` is modelled as `real`, so there is no rounding, overflow or NaN.
 * The pure functions on `Mat` say what each operation computes; the class
 * `Matrix` holds the mutable object and its methods perform the loops of the
 * source, each proved against those functions.
 */
module Matrices {
  import opened Wrappers

  // ----- Row-major index arithmetic -----

  lemma IndexBound(r: nat, c: nat, rows: nat, cols: nat)
    requires r < rows && c < cols
    ensures r * cols + c < rows * cols
  {
    assert (r + 1) * cols == r * cols + cols;
    assert (r + 1) * cols <= rows * cols;
  }

  lemma MulAtLeast(a: int, n: int)
    requires a >= 1 && n > 0
    ensures a * n >= n
  {
    assert a * n == (a - 1) * n + n;
  }

  /** The row and column of position q * n + r are q and r. */
  lemma DivModOf(q: int, r: int, n: int)
    requires n > 0 && 0 <= r < n
    ensures (q * n + r) / n == q && (q * n + r) % n == r
  {
    var k := q * n + r;
    var Q := k / n;
    assert k == Q * n + k % n;
    if Q > q {
      MulAtLeast(Q - q, n);
    } else if Q < q {
      MulAtLeast(q - Q, n);
    }
  }

  /** Every position of a rows x cols buffer is some entry (k / cols, k % cols). */
  lemma FlatIndex(k: int, rows: nat, cols: nat)
    requires 0 <= k < rows * cols
    ensures rows > 0 && cols > 0 && 0 <= k / cols < rows && 0 <= k % cols < cols
    ensures (k / cols) * cols + k % cols == k
  {
  }

  // ----- Matrix values -----

  /** The value held by a Matrix object: its shape and its row-major buffer. */
  datatype Mat = Mat(rows: nat, cols: nat, data: seq<real>)

  /** The buffer holds exactly rows * cols entries. */
  predicate WellFormed(m: Mat) {
    |m.data| == m.rows * m.cols
  }

  predicate SameShape(a: Mat, b: Mat) {
    a.rows == b.rows && a.cols == b.cols
  }

  /** Entry (r, c). */
  function At(m: Mat, r: nat, c: nat): real
    requires WellFormed(m) && r < m.rows && c < m.cols
  {
    IndexBound(r, c, m.rows, m.cols);
    m.data[r * m.cols + c]
  }

  /** Two matrices of one shape that agree on every entry are equal. */
  lemma Extensionality(a: Mat, b: Mat)
    requires WellFormed(a) && WellFormed(b) && SameShape(a, b)
    requires forall r, c :: 0 <= r < a.rows && 0 <= c < a.cols ==> At(a, r, c) == At(b, r, c)
    ensures a == b
  {
    forall k | 0 <= k < |a.data|
      ensures a.data[k] == b.data[k]
    {
      FlatIndex(k, a.rows, a.cols);
      assert At(a, k / a.cols, k % a.cols) == At(b, k / a.cols, k % a.cols);
    }
  }

  /** A rows x cols matrix with every entry equal to v. */
  function Fill(rows: nat, cols: nat, v: real): (m: Mat)
    ensures WellFormed(m) && m.rows == rows && m.cols == cols
  {
    Mat(rows, cols, seq(rows * cols, _ => v))
  }

  /** The arithmetic operators the compound assignments apply entry by entry. */
  datatype Op = Add | Sub | Mul | Div

  function Apply(op: Op, x: real, y: real): real
    requires op == Div ==> y != 0.0
  {
    match op
    case Add => x + y
    case Sub => x - y
    case Mul => x * y
    case Div => x / y
  }

  /** No entry of m is zero (what an element-wise division needs of its divisor). */
  predicate NoZero(m: Mat) {
    forall k :: 0 <= k < |m.data| ==> m.data[k] != 0.0
  }

  /** a op b, entry by entry, for two matrices of one shape. */
  function ZipWith(a: Mat, b: Mat, op: Op): (r: Mat)
    requires WellFormed(a) && WellFormed(b) && SameShape(a, b)
    requires op == Div ==> NoZero(b)
    ensures WellFormed(r) && SameShape(r, a)
  {
    Mat(a.rows, a.cols, seq(|a.data|, k requires 0 <= k < |a.data| => Apply(op, a.data[k], b.data[k])))
  }

  /** a op s for every entry of a. */
  function WithScalar(a: Mat, s: real, op: Op): (r: Mat)
    requires WellFormed(a) && (op == Div ==> s != 0.0)
    ensures WellFormed(r) && SameShape(r, a)
  {
    Mat(a.rows, a.cols, seq(|a.data|, k requires 0 <= k < |a.data| => Apply(op, a.data[k], s)))
  }

  /** s - x for every entry x of a. */
  function SubtractedFrom(s: real, a: Mat): (r: Mat)
    requires WellFormed(a)
    ensures WellFormed(r) && SameShape(r, a)
  {
    Mat(a.rows, a.cols, seq(|a.data|, k requires 0 <= k < |a.data| => s - a.data[k]))
  }

  /** f applied to every entry of a. */
  function Mapped(a: Mat, f: real -> real): (r: Mat)
    requires WellFormed(a)
    ensures WellFormed(r) && SameShape(r, a)
  {
    Mat(a.rows, a.cols, seq(|a.data|, k requires 0 <= k < |a.data| => f(a.data[k])))
  }

  /** The transpose: entry (c, r) of the result is entry (r, c) of m. */
  function Transposed(m: Mat): (t: Mat)
    requires WellFormed(m)
    ensures WellFormed(t) && t.rows == m.cols && t.cols == m.rows
  {
    Mat(m.cols, m.rows, seq(m.cols * m.rows, k requires 0 <= k < m.cols * m.rows =>
      FlatIndex(k, m.cols, m.rows);
      At(m, k % m.rows, k / m.rows)))
  }

  /** The first n terms of the dot product of row i of a with column j of b. */
  function Dot(a: Mat, b: Mat, i: nat, j: nat, n: nat): real
    requires WellFormed(a) && WellFormed(b) && a.cols == b.rows
    requires i < a.rows && j < b.cols && n <= a.cols
  {
    if n == 0 then 0.0 else Dot(a, b, i, j, n - 1) + At(a, i, n - 1) * At(b, n - 1, j)
  }

  /** The matrix product: entry (i, j) is row i of a times column j of b. */
  function Product(a: Mat, b: Mat): (p: Mat)
    requires WellFormed(a) && WellFormed(b) && a.cols == b.rows
    ensures WellFormed(p) && p.rows == a.rows && p.cols == b.cols
  {
    Mat(a.rows, b.cols, seq(a.rows * b.cols, k requires 0 <= k < a.rows * b.cols =>
      FlatIndex(k, a.rows, b.cols);
      Dot(a, b, k / b.cols, k % b.cols, a.cols)))
  }

  /**
   * The sum of all entries, added in buffer order. Callers use sum(), which
   * Matrix.cpp does not define; the model reads it as this plain sum.
   */
  function Sum(s: seq<real>): real {
    if |s| == 0 then 0.0 else Sum(s[..|s| - 1]) + s[|s| - 1]
  }

  /** A sum of non-negative entries is non-negative, and zero only if every entry is. */
  lemma {:induction false} SumNonNegative(s: seq<real>)
    requires forall k :: 0 <= k < |s| ==> s[k] >= 0.0
    ensures Sum(s) >= 0.0
    ensures Sum(s) == 0.0 ==> forall k :: 0 <= k < |s| ==> s[k] == 0.0
  {
    if |s| > 0 {
      SumNonNegative(s[..|s| - 1]);
      assert forall k :: 0 <= k < |s| - 1 ==> s[..|s| - 1][k] == s[k];
    }
  }

  /** Every entry zero gives a zero sum. */
  lemma {:induction false} SumOfZeros(s: seq<real>)
    requires forall k :: 0 <= k < |s| ==> s[k] == 0.0
    ensures Sum(s) == 0.0
  {
    if |s| > 0 {
      SumOfZeros(s[..|s| - 1]);
    }
  }

  // ----- What the operations mean, entry by entry -----

  lemma TransposedAt(m: Mat, r: nat, c: nat)
    requires WellFormed(m) && r < m.rows && c < m.cols
    ensures At(Transposed(m), c, r) == At(m, r, c)
  {
    IndexBound(c, r, m.cols, m.rows);
    DivModOf(c, r, m.rows);
  }

  /** Transposing twice gives back the matrix. */
  lemma TransposeInvolutive(m: Mat)
    requires WellFormed(m)
    ensures Transposed(Transposed(m)) == m
  {
    var t := Transposed(Transposed(m));
    forall r, c | 0 <= r < m.rows && 0 <= c < m.cols
      ensures At(t, r, c) == At(m, r, c)
    {
      TransposedAt(Transposed(m), c, r);
      TransposedAt(m, r, c);
    }
    Extensionality(t, m);
  }

  lemma ProductAt(a: Mat, b: Mat, i: nat, j: nat)
    requires WellFormed(a) && WellFormed(b) && a.cols == b.rows
    requires i < a.rows && j < b.cols
    ensures At(Product(a, b), i, j) == Dot(a, b, i, j, a.cols)
  {
    IndexBound(i, j, a.rows, b.cols);
    DivModOf(i, j, b.cols);
  }

  /**
   * Row i of a times column j of b equals row i' of c times column j' of d
   * when c's row is b's column and d's column is a's row.
   */
  lemma {:induction false} DotSwapped(a: Mat, b: Mat, i: nat, j: nat, c: Mat, d: Mat, i': nat, j': nat, n: nat)
    requires WellFormed(a) && WellFormed(b) && a.cols == b.rows && i < a.rows && j < b.cols && n <= a.cols
    requires WellFormed(c) && WellFormed(d) && c.cols == d.rows && i' < c.rows && j' < d.cols && n <= c.cols
    requires forall k :: 0 <= k < n ==> At(c, i', k) == At(b, k, j)
    requires forall k :: 0 <= k < n ==> At(d, k, j') == At(a, i, k)
    ensures Dot(a, b, i, j, n) == Dot(c, d, i', j', n)
  {
    if n > 0 {
      var m := n - 1;
      DotSwapped(a, b, i, j, c, d, i', j', m);
      var x, y := At(a, i, m), At(b, m, j);
      calc {
        Dot(c, d, i', j', n);
        Dot(c, d, i', j', m) + At(c, i', m) * At(d, m, j');
        Dot(a, b, i, j, m) + y * x;
      }
    }
  }

  /** Every entry of the transpose, at once. */
  lemma TransposedEntries(m: Mat)
    requires WellFormed(m)
    ensures forall r, c :: 0 <= r < m.rows && 0 <= c < m.cols ==> At(Transposed(m), c, r) == At(m, r, c)
  {
    forall r, c | 0 <= r < m.rows && 0 <= c < m.cols
      ensures At(Transposed(m), c, r) == At(m, r, c)
    {
      TransposedAt(m, r, c);
    }
  }

  /** Row i of a times column j of b is row j of b^T times column i of a^T. */
  lemma DotOfTransposes(a: Mat, b: Mat, i: nat, j: nat)
    requires WellFormed(a) && WellFormed(b) && a.cols == b.rows && i < a.rows && j < b.cols
    ensures Dot(a, b, i, j, a.cols) == Dot(Transposed(b), Transposed(a), j, i, a.cols)
  {
    TransposedEntries(a);
    TransposedEntries(b);
    DotSwapped(a, b, i, j, Transposed(b), Transposed(a), j, i, a.cols);
  }

  lemma ProductTransposedAt(a: Mat, b: Mat, i: nat, j: nat)
    requires WellFormed(a) && WellFormed(b) && a.cols == b.rows && i < a.rows && j < b.cols
    ensures At(Transposed(Product(a, b)), j, i) == At(Product(Transposed(b), Transposed(a)), j, i)
  {
    TransposedAt(Product(a, b), i, j);
    ProductAt(a, b, i, j);
    ProductAt(Transposed(b), Transposed(a), j, i);
    DotOfTransposes(a, b, i, j);
  }

  /** (a b)^T = b^T a^T. */
  lemma ProductTransposed(a: Mat, b: Mat)
    requires WellFormed(a) && WellFormed(b) && a.cols == b.rows
    ensures Transposed(Product(a, b)) == Product(Transposed(b), Transposed(a))
  {
    forall j, i | 0 <= j < b.cols && 0 <= i < a.rows
      ensures At(Transposed(Product(a, b)), j, i) == At(Product(Transposed(b), Transposed(a)), j, i)
    {
      ProductTransposedAt(a, b, i, j);
    }
    Extensionality(Transposed(Product(a, b)), Product(Transposed(b), Transposed(a)));
  }

  /** Adding b and then subtracting b gives back a. */
  lemma AddThenSubtract(a: Mat, b: Mat)
    requires WellFormed(a) && WellFormed(b) && SameShape(a, b)
    ensures ZipWith(ZipWith(a, b, Add), b, Sub) == a
  {
    var r := ZipWith(ZipWith(a, b, Add), b, Sub);
    assert forall k :: 0 <= k < |a.data| ==> r.data[k] == a.data[k];
  }

  /** Scaling by a non-zero s and then dividing by s gives back a. */
  lemma MulThenDivide(a: Mat, s: real)
    requires WellFormed(a) && s != 0.0
    ensures WithScalar(WithScalar(a, s, Mul), s, Div) == a
  {
    var r := WithScalar(WithScalar(a, s, Mul), s, Div);
    assert forall k :: 0 <= k < |a.data| ==> r.data[k] == a.data[k];
  }

  /** s - a is the difference of the constant matrix s and a. */
  lemma SubtractedFromIsDifference(s: real, a: Mat)
    requires WellFormed(a)
    ensures SubtractedFrom(s, a) == ZipWith(Fill(a.rows, a.cols, s), a, Sub)
  {
    var r := ZipWith(Fill(a.rows, a.cols, s), a, Sub);
    assert forall k :: 0 <= k < |a.data| ==> r.data[k] == s - a.data[k];
  }

  // ----- The Matrix object -----

  class Matrix {
    var rows: nat
    var cols: nat
    var data: seq<real>

    ghost predicate Valid()
      reads this
    {
      WellFormed(Value())
    }

    /** The value this object currently holds. */
    function Value(): Mat
      reads this
    {
      Mat(rows, cols, data)
    }

    /** Matrix(): the 0 x 0 matrix. */
    constructor Empty()
      ensures Valid() && Value() == Mat(0, 0, [])
    {
      rows, cols, data := 0, 0, [];
    }

    /** Matrix(const Matrix&): a copy with its own buffer. */
    constructor Copy(other: Matrix)
      requires other.Valid()
      ensures Valid() && Value() == other.Value()
    {
      rows, cols, data := other.rows, other.cols, other.data;
    }

    /** Matrix(rows, cols, initVal). */
    constructor Filled(rows: nat, cols: nat, initVal: real)
      ensures Valid() && Value() == Fill(rows, cols, initVal)
    {
      this.rows, this.cols := rows, cols;
      this.data := Fill(rows, cols, initVal).data;
    }

    /** A Matrix object holding a given value. */
    constructor FromValue(m: Mat)
      requires WellFormed(m)
      ensures Valid() && Value() == m
    {
      rows, cols, data := m.rows, m.cols, m.data;
    }

    /**
     * Matrix(rows, cols, func): every entry is whatever the generator
     * yields; which call lands in which entry is not fixed, so only the
     * shape is determined.
     */
    constructor Generated(rows: nat, cols: nat)
      ensures Valid() && this.rows == rows && this.cols == cols
    {
      this.rows, this.cols := rows, cols;
      assert |Fill(rows, cols, 0.0).data| == rows * cols;
      var drawn: seq<real> :| |drawn| == rows * cols;
      this.data := drawn;
    }

    /** Entry (r, c), read through operator() or operator[]. */
    function Get(r: nat, c: nat): (v: real)
      reads this
      requires Valid() && r < rows && c < cols
      ensures v == At(Value(), r, c)
    {
      IndexBound(r, c, rows, cols);
      data[r * cols + c]
    }

    /** Entry (r, c) written through operator() or operator[]. */
    method Set(r: nat, c: nat, v: real)
      requires Valid() && r < rows && c < cols
      modifies this
      ensures Valid() && rows == old(rows) && cols == old(cols)
      ensures r * cols + c < |data| && data == old(data)[r * cols + c := v]
      ensures forall i, j :: 0 <= i < rows && 0 <= j < cols ==>
        At(Value(), i, j) == if i == r && j == c then v else At(old(Value()), i, j)
    {
      IndexBound(r, c, rows, cols);
      data := data[r * cols + c := v];
      forall i, j | 0 <= i < rows && 0 <= j < cols
        ensures At(Value(), i, j) == if i == r && j == c then v else At(old(Value()), i, j)
      {
        IndexBound(i, j, rows, cols);
        if i != r || j != c {
          DivModOf(i, j, cols);
          DivModOf(r, c, cols);
        }
      }
    }

    /** operator=: this takes the shape and the entries of other. */
    method Assign(other: Matrix)
      requires other.Valid()
      modifies this
      ensures Valid() && Value() == old(other.Value())
    {
      if this != other {
        rows, cols, data := other.rows, other.cols, other.data;
      }
    }

    /** data := data op o, entry by entry: the loop shared by the compound operators. */
    method Combine(o: seq<real>, op: Op)
      requires Valid() && |o| == |data|
      requires op == Div ==> forall k :: 0 <= k < |o| ==> o[k] != 0.0
      modifies this
      ensures Valid() && Value() == ZipWith(old(Value()), Mat(old(rows), old(cols), o), op)
    {
      ghost var target := ZipWith(Value(), Mat(rows, cols, o), op);
      var i := 0;
      while i < |data|
        invariant 0 <= i <= |data| == |target.data|
        invariant rows == target.rows && cols == target.cols
        invariant forall k :: 0 <= k < i ==> data[k] == target.data[k]
        invariant forall k :: i <= k < |data| ==> data[k] == old(data)[k]
      {
        data := data[i := Apply(op, data[i], o[i])];
        i := i + 1;
      }
    }

    /** data := data op s, entry by entry. */
    method CombineScalar(s: real, op: Op)
      requires Valid() && (op == Div ==> s != 0.0)
      modifies this
      ensures Valid() && Value() == WithScalar(old(Value()), s, op)
    {
      ghost var target := WithScalar(Value(), s, op);
      var i := 0;
      while i < |data|
        invariant 0 <= i <= |data| == |target.data|
        invariant rows == target.rows && cols == target.cols
        invariant forall k :: 0 <= k < i ==> data[k] == target.data[k]
        invariant forall k :: i <= k < |data| ==> data[k] == old(data)[k]
      {
        data := data[i := Apply(op, data[i], s)];
        i := i + 1;
      }
    }

    /** operator+=(Matrix): throws invalid_argument unless the shapes agree. */
    method AddAssign(other: Matrix) returns (s: Outcome)
      requires Valid() && other.Valid()
      modifies this
      ensures Valid()
      ensures s.Fail? <==> !SameShape(old(Value()), old(other.Value()))
      ensures s.Fail? ==> s.error == InvalidArgument && Value() == old(Value())
      ensures s.Pass? ==> Value() == ZipWith(old(Value()), old(other.Value()), Add)
    {
      if rows != other.rows || cols != other.cols {
        return Fail(InvalidArgument);
      }
      Combine(other.data, Add);
      return Pass;
    }

    /** operator+=(double). */
    method AddScalarAssign(scalar: real)
      requires Valid()
      modifies this
      ensures Valid() && Value() == WithScalar(old(Value()), scalar, Add)
    {
      CombineScalar(scalar, Add);
    }

    /** operator-=(Matrix): throws invalid_argument unless the shapes agree. */
    method SubAssign(other: Matrix) returns (s: Outcome)
      requires Valid() && other.Valid()
      modifies this
      ensures Valid()
      ensures s.Fail? <==> !SameShape(old(Value()), old(other.Value()))
      ensures s.Fail? ==> s.error == InvalidArgument && Value() == old(Value())
      ensures s.Pass? ==> Value() == ZipWith(old(Value()), old(other.Value()), Sub)
    {
      if rows != other.rows || cols != other.cols {
        return Fail(InvalidArgument);
      }
      Combine(other.data, Sub);
      return Pass;
    }

    /** operator-=(double). */
    method SubScalarAssign(scalar: real)
      requires Valid()
      modifies this
      ensures Valid() && Value() == WithScalar(old(Value()), scalar, Sub)
    {
      CombineScalar(scalar, Sub);
    }

    /**
     * operator*=(Matrix): the product this * other replaces this; throws
     * invalid_argument when the inner dimensions differ.
     */
    method MulAssign(other: Matrix) returns (s: Outcome)
      requires Valid() && other.Valid()
      modifies this
      ensures Valid()
      ensures s.Fail? <==> old(cols) != old(other.rows)
      ensures s.Fail? ==> s.error == InvalidArgument && Value() == old(Value())
      ensures s.Pass? ==> Value() == Product(old(Value()), old(other.Value()))
    {
      var r := Times(this, other);
      if r.Err? {
        return Fail(r.error);
      }
      rows, cols, data := r.value.rows, r.value.cols, r.value.data;
      return Pass;
    }

    /** operator*=(double). */
    method MulScalarAssign(scalar: real)
      requires Valid()
      modifies this
      ensures Valid() && Value() == WithScalar(old(Value()), scalar, Mul)
    {
      CombineScalar(scalar, Mul);
    }

    /**
     * operator/=(Matrix): throws invalid_argument unless the shapes agree,
     * then runtime_error if the divisor has a zero entry; either way this is
     * left as it was.
     */
    method DivAssign(other: Matrix) returns (s: Outcome)
      requires Valid() && other.Valid()
      modifies this
      ensures Valid()
      ensures s.Fail? <==> !SameShape(old(Value()), old(other.Value())) || !NoZero(old(other.Value()))
      ensures s.Fail? ==> Value() == old(Value())
      ensures s.Fail? ==> s.error == if SameShape(old(Value()), old(other.Value())) then RuntimeError else InvalidArgument
      ensures s.Pass? ==> Value() == ZipWith(old(Value()), old(other.Value()), Div)
    {
      if rows != other.rows || cols != other.cols {
        return Fail(InvalidArgument);
      }
      var i := 0;
      while i < |other.data|
        invariant 0 <= i <= |other.data|
        invariant forall k :: 0 <= k < i ==> other.data[k] != 0.0
      {
        if other.data[i] == 0.0 {
          return Fail(RuntimeError);
        }
        i := i + 1;
      }
      Combine(other.data, Div);
      return Pass;
    }

    /** operator/=(double): throws runtime_error when the scalar is zero. */
    method DivScalarAssign(scalar: real) returns (s: Outcome)
      requires Valid()
      modifies this
      ensures Valid()
      ensures s.Fail? <==> scalar == 0.0
      ensures s.Fail? ==> s.error == RuntimeError && Value() == old(Value())
      ensures s.Pass? ==> Value() == WithScalar(old(Value()), scalar, Div)
    {
      if scalar == 0.0 {
        return Fail(RuntimeError);
      }
      CombineScalar(scalar, Div);
      return Pass;
    }

    /** cwiseProduct: the entry-wise product; throws invalid_argument unless the shapes agree. */
    method CwiseProduct(other: Matrix) returns (r: Result<Matrix>)
      requires Valid() && other.Valid()
      ensures r.Err? <==> !SameShape(Value(), other.Value())
      ensures r.Err? ==> r.error == InvalidArgument
      ensures r.Ok? ==> fresh(r.value) && r.value.Valid() && r.value.Value() == ZipWith(Value(), other.Value(), Mul)
    {
      if rows != other.rows || cols != other.cols {
        return Err(InvalidArgument);
      }
      var result := new Matrix.Filled(rows, cols, 0.0);
      ghost var target := ZipWith(Value(), other.Value(), Mul);
      var i := 0;
      while i < rows * cols
        invariant 0 <= i <= rows * cols
        invariant result.rows == rows && result.cols == cols && |result.data| == rows * cols
        invariant forall k :: 0 <= k < i ==> result.data[k] == target.data[k]
      {
        result.data := result.data[i := data[i] * other.data[i]];
        i := i + 1;
      }
      return Ok(result);
    }

    /** transpose: a fresh cols x rows matrix with entry (j, i) = entry (i, j) of this. */
    method Transpose() returns (t: Matrix)
      requires Valid()
      ensures fresh(t) && t.Valid() && t.Value() == Transposed(Value())
    {
      t := new Matrix.Filled(cols, rows, 0.0);
      var i := 0;
      while i < rows
        invariant 0 <= i <= rows
        invariant t.Valid() && t.rows == cols && t.cols == rows
        invariant forall c, r :: 0 <= c < cols && 0 <= r < i ==> At(t.Value(), c, r) == At(Value(), r, c)
      {
        var j := 0;
        while j < cols
          invariant 0 <= j <= cols
          invariant t.Valid() && t.rows == cols && t.cols == rows
          invariant forall c, r :: 0 <= c < cols && 0 <= r < i ==> At(t.Value(), c, r) == At(Value(), r, c)
          invariant forall c :: 0 <= c < j ==> At(t.Value(), c, i) == At(Value(), i, c)
        {
          t.Set(j, i, Get(i, j));
          j := j + 1;
        }
        i := i + 1;
      }
      forall c, r | 0 <= c < cols && 0 <= r < rows
        ensures At(t.Value(), c, r) == At(Transposed(Value()), c, r)
      {
        TransposedAt(Value(), r, c);
      }
      Extensionality(t.Value(), Transposed(Value()));
    }

    /** map: a fresh matrix with func applied to every entry. */
    method Map(func: real -> real) returns (r: Matrix)
      requires Valid()
      ensures fresh(r) && r.Valid() && r.Value() == Mapped(Value(), func)
    {
      r := new Matrix.Filled(rows, cols, 0.0);
      ghost var target := Mapped(Value(), func);
      var i := 0;
      while i < rows * cols
        invariant 0 <= i <= rows * cols
        invariant r.rows == rows && r.cols == cols && |r.data| == rows * cols
        invariant forall k :: 0 <= k < i ==> r.data[k] == target.data[k]
      {
        r.data := r.data[i := func(data[i])];
        i := i + 1;
      }
    }
  }

  /** Matrix(rows, cols, data): throws invalid_argument unless data holds rows * cols entries. */
  method FromData(rows: nat, cols: nat, data: seq<real>) returns (r: Result<Matrix>)
    ensures r.Err? <==> |data| != rows * cols
    ensures r.Err? ==> r.error == InvalidArgument
    ensures r.Ok? ==> fresh(r.value) && r.value.Valid() && r.value.Value() == Mat(rows, cols, data)
  {
    if |data| != rows * cols {
      return Err(InvalidArgument);
    }
    var m := new Matrix.FromValue(Mat(rows, cols, data));
    return Ok(m);
  }

  // ----- The free operators -----

  /** operator*(Matrix, Matrix): throws invalid_argument when left.cols != right.rows. */
  method Times(left: Matrix, right: Matrix) returns (r: Result<Matrix>)
    requires left.Valid() && right.Valid()
    ensures r.Err? <==> left.cols != right.rows
    ensures r.Err? ==> r.error == InvalidArgument
    ensures r.Ok? ==> fresh(r.value) && r.value.Valid() && r.value.Value() == Product(left.Value(), right.Value())
  {
    if left.cols != right.rows {
      return Err(InvalidArgument);
    }
    var result := new Matrix.Filled(left.rows, right.cols, 0.0);
    var i := 0;
    while i < left.rows
      invariant 0 <= i <= left.rows
      invariant result.Valid() && result.rows == left.rows && result.cols == right.cols
      invariant forall p, q :: 0 <= p < i && 0 <= q < right.cols ==>
        At(result.Value(), p, q) == Dot(left.Value(), right.Value(), p, q, left.cols)
    {
      var j := 0;
      while j < right.cols
        invariant 0 <= j <= right.cols
        invariant result.Valid() && result.rows == left.rows && result.cols == right.cols
        invariant forall p, q :: 0 <= p < i && 0 <= q < right.cols ==>
          At(result.Value(), p, q) == Dot(left.Value(), right.Value(), p, q, left.cols)
        invariant forall q :: 0 <= q < j ==> At(result.Value(), i, q) == Dot(left.Value(), right.Value(), i, q, left.cols)
      {
        var sum := RowTimesColumn(left, right, i, j);
        result.Set(i, j, sum);
        j := j + 1;
      }
      i := i + 1;
    }
    forall p, q | 0 <= p < left.rows && 0 <= q < right.cols
      ensures At(result.Value(), p, q) == At(Product(left.Value(), right.Value()), p, q)
    {
      ProductAt(left.Value(), right.Value(), p, q);
    }
    Extensionality(result.Value(), Product(left.Value(), right.Value()));
    return Ok(result);
  }

  /** The innermost loop of the product: row i of left times column j of right. */
  method RowTimesColumn(left: Matrix, right: Matrix, i: nat, j: nat) returns (sum: real)
    requires left.Valid() && right.Valid() && left.cols == right.rows
    requires i < left.rows && j < right.cols
    ensures sum == Dot(left.Value(), right.Value(), i, j, left.cols)
  {
    sum := 0.0;
    var k := 0;
    while k < left.cols
      invariant 0 <= k <= left.cols
      invariant sum == Dot(left.Value(), right.Value(), i, j, k)
    {
      sum := sum + left.Get(i, k) * right.Get(k, j);
      k := k + 1;
    }
  }

  /** operator*(double, Matrix). */
  method ScalarTimes(scalar: real, m: Matrix) returns (r: Matrix)
    requires m.Valid()
    ensures fresh(r) && r.Valid() && r.Value() == WithScalar(m.Value(), scalar, Mul)
  {
    r := new Matrix.Copy(m);
    r.MulScalarAssign(scalar);
  }

  /** operator*(Matrix, double): the same as scalar * m. */
  method TimesScalar(m: Matrix, scalar: real) returns (r: Matrix)
    requires m.Valid()
    ensures fresh(r) && r.Valid() && r.Value() == WithScalar(m.Value(), scalar, Mul)
  {
    r := ScalarTimes(scalar, m);
  }

  /** operator+(Matrix, Matrix): throws invalid_argument unless the shapes agree. */
  method Plus(left: Matrix, right: Matrix) returns (r: Result<Matrix>)
    requires left.Valid() && right.Valid()
    ensures r.Err? <==> !SameShape(left.Value(), right.Value())
    ensures r.Err? ==> r.error == InvalidArgument
    ensures r.Ok? ==> fresh(r.value) && r.value.Valid() && r.value.Value() == ZipWith(left.Value(), right.Value(), Add)
  {
    var result := new Matrix.Copy(left);
    var s := result.AddAssign(right);
    if s.Fail? {
      return Err(s.error);
    }
    return Ok(result);
  }

  /** operator+(double, Matrix). */
  method ScalarPlus(scalar: real, m: Matrix) returns (r: Matrix)
    requires m.Valid()
    ensures fresh(r) && r.Valid() && r.Value() == WithScalar(m.Value(), scalar, Add)
  {
    r := new Matrix.Copy(m);
    r.AddScalarAssign(scalar);
  }

  /** operator+(Matrix, double): the same as scalar + m. */
  method PlusScalar(m: Matrix, scalar: real) returns (r: Matrix)
    requires m.Valid()
    ensures fresh(r) && r.Valid() && r.Value() == WithScalar(m.Value(), scalar, Add)
  {
    r := ScalarPlus(scalar, m);
  }

  /** operator-(Matrix, Matrix): throws invalid_argument unless the shapes agree. */
  method Minus(left: Matrix, right: Matrix) returns (r: Result<Matrix>)
    requires left.Valid() && right.Valid()
    ensures r.Err? <==> !SameShape(left.Value(), right.Value())
    ensures r.Err? ==> r.error == InvalidArgument
    ensures r.Ok? ==> fresh(r.value) && r.value.Valid() && r.value.Value() == ZipWith(left.Value(), right.Value(), Sub)
  {
    var result := new Matrix.Copy(left);
    var s := result.SubAssign(right);
    if s.Fail? {
      return Err(s.error);
    }
    return Ok(result);
  }

  /** operator-(Matrix, double). */
  method MinusScalar(m: Matrix, scalar: real) returns (r: Matrix)
    requires m.Valid()
    ensures fresh(r) && r.Valid() && r.Value() == WithScalar(m.Value(), scalar, Sub)
  {
    r := new Matrix.Copy(m);
    r.SubScalarAssign(scalar);
  }

  /** operator-(double, Matrix): every entry x becomes scalar - x. */
  method ScalarMinus(scalar: real, m: Matrix) returns (r: Matrix)
    requires m.Valid()
    ensures fresh(r) && r.Valid() && r.Value() == SubtractedFrom(scalar, m.Value())
  {
    r := new Matrix.Copy(m);
    ghost var target := SubtractedFrom(scalar, m.Value());
    var i := 0;
    while i < |r.data|
      invariant 0 <= i <= |r.data| == |target.data|
      invariant r.rows == m.rows && r.cols == m.cols
      invariant forall k :: 0 <= k < i ==> r.data[k] == target.data[k]
      invariant forall k :: i <= k < |r.data| ==> r.data[k] == m.data[k]
    {
      r.data := r.data[i := scalar - r.data[i]];
      i := i + 1;
    }
  }

  /** operator/(Matrix, Matrix): the errors of operator/=. */
  method Quotient(left: Matrix, right: Matrix) returns (r: Result<Matrix>)
    requires left.Valid() && right.Valid()
    ensures r.Err? <==> !SameShape(left.Value(), right.Value()) || !NoZero(right.Value())
    ensures r.Err? ==> r.error == if SameShape(left.Value(), right.Value()) then RuntimeError else InvalidArgument
    ensures r.Ok? ==> fresh(r.value) && r.value.Valid() && r.value.Value() == ZipWith(left.Value(), right.Value(), Div)
  {
    var result := new Matrix.Copy(left);
    var s := result.DivAssign(right);
    if s.Fail? {
      return Err(s.error);
    }
    return Ok(result);
  }

  /** operator/(Matrix, double): throws runtime_error when the scalar is zero. */
  method QuotientScalar(m: Matrix, scalar: real) returns (r: Result<Matrix>)
    requires m.Valid()
    ensures r.Err? <==> scalar == 0.0
    ensures r.Err? ==> r.error == RuntimeError
    ensures r.Ok? ==> fresh(r.value) && r.value.Valid() && r.value.Value() == WithScalar(m.Value(), scalar, Div)
  {
    var result := new Matrix.Copy(m);
    var s := result.DivScalarAssign(scalar);
    if s.Fail? {
      return Err(s.error);
    }
    return Ok(result);
  }

  /** operator==: same shape and the same entries. */
  method Equal(left: Matrix, right: Matrix) returns (eq: bool)
    requires left.Valid() && right.Valid()
    ensures eq <==> left.Value() == right.Value()
  {
    if left.rows != right.rows || left.cols != right.cols {
      return false;
    }
    var i := 0;
    while i < |left.data|
      invariant 0 <= i <= |left.data|
      invariant left.data[..i] == right.data[..i]
    {
      if left.data[i] != right.data[i] {
        return false;
      }
      i := i + 1;
    }
    assert left.data == left.data[..i];
    assert right.data == right.data[..i];
    return true;
  }

  /** operator!=: the negation of operator==. */
  method NotEqual(left: Matrix, right: Matrix) returns (ne: bool)
    requires left.Valid() && right.Valid()
    ensures ne <==> left.Value() != right.Value()
  {
    var eq := Equal(left, right);
    return !eq;
  }
}
