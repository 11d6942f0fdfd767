/**
 * Dataset helpers (NeuralNetworkCPP/Utils/Utils.cpp): slicing a block of rows
 * and reordering rows in place. A dataset is a sequence of rows, each row a
 * sequence of doubles (std::vector<std::vector<double>>).
 */
module Utils {
  import opened Wrappers

  type Row = seq<real>
  type Rows = seq<Row>

  /**
   * slice(data, start, end): rows start .. end - 1. Throws out_of_range when
   * start is negative, start > end, or end >= the number of rows; the last
   * condition also rejects end == |data|, so no slice can reach the last row.
   */
  function Slice(data: Rows, start: int, end: int): (r: Result<Rows>)
    ensures r.Err? <==> start < 0 || end >= |data| || start > end
    ensures r.Err? ==> r.error == OutOfRange
    ensures r.Ok? ==> |r.value| == end - start
    ensures r.Ok? ==> forall i :: 0 <= i < |r.value| ==> r.value[i] == data[start + i]
  {
    if start < 0 || end >= |data| || start > end then Err(OutOfRange)
    else Ok(data[start..end])
  }

  /** The last row is out of reach of Slice: every slice that ends at |data| throws. */
  lemma SliceNeverReachesEnd(data: Rows, start: int)
    ensures Slice(data, start, |data|) == Err(OutOfRange)
  {
  }

  /**
   * The bounds check slice's documentation describes: end is exclusive, so
   * end == |data| is allowed. This is the slice ModelTrainer's train needs.
   */
  function SliceExclusive(data: Rows, start: int, end: int): (r: Result<Rows>)
    ensures r.Err? <==> start < 0 || end > |data| || start > end
    ensures r.Err? ==> r.error == OutOfRange
    ensures r.Ok? ==> |r.value| == end - start
    ensures r.Ok? ==> forall i :: 0 <= i < |r.value| ==> r.value[i] == data[start + i]
  {
    if start < 0 || end > |data| || start > end then Err(OutOfRange)
    else Ok(data[start..end])
  }

  /** Two adjacent exclusive slices put together give the slice that spans both. */
  lemma SliceExclusiveSplit(data: Rows, a: int, b: int, c: int)
    requires 0 <= a <= b <= c <= |data|
    ensures SliceExclusive(data, a, b).Ok? && SliceExclusive(data, b, c).Ok?
    ensures SliceExclusive(data, a, b).value + SliceExclusive(data, b, c).value == SliceExclusive(data, a, c).value
  {
    assert data[a..b] + data[b..c] == data[a..c];
  }

  /** Where the two checks agree: every slice Slice accepts, SliceExclusive accepts with the same rows. */
  lemma SliceAgreesBelowEnd(data: Rows, start: int, end: int)
    requires Slice(data, start, end).Ok?
    ensures SliceExclusive(data, start, end) == Slice(data, start, end)
  {
  }

  // ----- reorderRows -----

  /** The first position at or after k whose index names no row of an n-row dataset, or |order|. */
  function FirstInvalidFrom(order: seq<int>, n: nat, k: nat): (p: nat)
    requires k <= |order|
    ensures k <= p <= |order|
    ensures forall i :: k <= i < p ==> 0 <= order[i] < n
    ensures p < |order| ==> !(0 <= order[p] < n)
    decreases |order| - k
  {
    if k == |order| then k
    else if !(0 <= order[k] < n) then k
    else FirstInvalidFrom(order, n, k + 1)
  }

  /** The first position whose index names no row of an n-row dataset, or |order| when there is none. */
  function FirstInvalid(order: seq<int>, n: nat): (p: nat)
    ensures p <= |order|
    ensures forall i :: 0 <= i < p ==> 0 <= order[i] < n
    ensures p < |order| ==> !(0 <= order[p] < n)
  {
    FirstInvalidFrom(order, n, 0)
  }

  /** Row i of the result is row order[i] of data. */
  function Gather(data: Rows, order: seq<int>): (r: Rows)
    requires forall i :: 0 <= i < |order| ==> 0 <= order[i] < |data|
    ensures |r| == |order|
  {
    seq(|order|, i requires 0 <= i < |order| => data[order[i]])
  }

  /**
   * What reorderRows leaves in data: the rows before the first bad index are
   * already replaced when it throws; the rest keep their old contents.
   */
  function ReorderedAsWritten(data: Rows, order: seq<int>): (r: Rows)
    ensures |r| == |data|
  {
    if |order| != |data| then data
    else
      var p := FirstInvalid(order, |data|);
      seq(|data|, k requires 0 <= k < |data| => if k < p then data[order[k]] else data[k])
  }

  /** Whether reorderRows throws, and which exception. */
  function ReorderOutcome(data: Rows, order: seq<int>): Outcome {
    if |order| != |data| || FirstInvalid(order, |data|) < |order| then Fail(OutOfRange) else Pass
  }

  /** A dataset whose first p rows are reordered and whose rest are untouched is what reorderRows leaves. */
  lemma ReorderedAt(original: Rows, order: seq<int>, cur: Rows, p: nat)
    requires |order| == |original| == |cur| && p == FirstInvalid(order, |original|)
    requires forall k :: 0 <= k < p ==> cur[k] == original[order[k]]
    requires forall k :: p <= k < |cur| ==> cur[k] == original[k]
    ensures cur == ReorderedAsWritten(original, order)
  {
    var r := ReorderedAsWritten(original, order);
    forall k | 0 <= k < |cur|
      ensures cur[k] == r[k]
    {
    }
  }

  /**
   * reorderRows(data, order): for i = 0, 1, ..., data[i] becomes the
   * original row order[i]; throws out_of_range on a size mismatch and at the
   * first index that names no row.
   */
  method ReorderRows(data: array<Row>, order: seq<int>) returns (s: Outcome)
    modifies data
    ensures s == ReorderOutcome(old(data[..]), order)
    ensures data[..] == ReorderedAsWritten(old(data[..]), order)
  {
    if |order| != data.Length {
      return Fail(OutOfRange);
    }
    var original := data[..];
    ghost var p := FirstInvalid(order, |original|);
    var i := 0;
    while i < |order|
      invariant 0 <= i <= p
      invariant forall k :: 0 <= k < i ==> data[k] == original[order[k]]
      invariant forall k :: i <= k < data.Length ==> data[k] == original[k]
    {
      if order[i] < 0 || order[i] >= data.Length {
        assert i == p;
        ReorderedAt(original, order, data[..], i);
        return Fail(OutOfRange);
      }
      data[i] := original[order[i]];
      i := i + 1;
    }
    ReorderedAt(original, order, data[..], i);
    return Pass;
  }

  /** When it returns, reorderRows has put row order[i] at position i for every i. */
  lemma ReorderSucceeds(data: Rows, order: seq<int>)
    requires ReorderOutcome(data, order) == Pass
    ensures forall i :: 0 <= i < |order| ==> 0 <= order[i] < |data|
    ensures ReorderedAsWritten(data, order) == Gather(data, order)
  {
  }

  /** Reordering by a permutation and then by its inverse gives the data back. */
  lemma GatherInverse(data: Rows, order: seq<int>, inverse: seq<int>)
    requires |order| == |data| && |inverse| == |data|
    requires forall i :: 0 <= i < |order| ==> 0 <= order[i] < |data|
    requires forall i :: 0 <= i < |inverse| ==> 0 <= inverse[i] < |data| && order[inverse[i]] == i
    ensures Gather(Gather(data, order), inverse) == data
  {
  }

  /**
   * reorderRows writes before it validates: on {{1, 2}, {3, 4}} with order
   * {1, 2} it throws, yet row 0 has already been overwritten.
   */
  lemma ReorderPartialWrite()
    ensures ReorderOutcome([[1.0, 2.0], [3.0, 4.0]], [1, 2]) == Fail(OutOfRange)
    ensures ReorderedAsWritten([[1.0, 2.0], [3.0, 4.0]], [1, 2]) == [[3.0, 4.0], [3.0, 4.0]]
  {
    assert FirstInvalid([1, 2], 2) == 1;
  }

  /**
   * reorderRows with every index checked before the first write: it throws
   * in the same cases, and then leaves data untouched.
   */
  method ReorderRowsChecked(data: array<Row>, order: seq<int>) returns (s: Outcome)
    modifies data
    ensures s == ReorderOutcome(old(data[..]), order)
    ensures s.Fail? ==> data[..] == old(data[..])
    ensures s.Pass? ==> data[..] == Gather(old(data[..]), order)
  {
    if |order| != data.Length {
      return Fail(OutOfRange);
    }
    var i := 0;
    while i < |order|
      invariant 0 <= i <= |order|
      invariant forall k :: 0 <= k < i ==> 0 <= order[k] < data.Length
    {
      if order[i] < 0 || order[i] >= data.Length {
        return Fail(OutOfRange);
      }
      i := i + 1;
    }
    var original := data[..];
    i := 0;
    while i < |order|
      invariant 0 <= i <= |order|
      invariant forall k :: 0 <= k < i ==> data[k] == original[order[k]]
      invariant forall k :: i <= k < data.Length ==> data[k] == original[k]
    {
      data[i] := original[order[i]];
      i := i + 1;
    }
    assert data[..] == Gather(original, order);
    return Pass;
  }
}
