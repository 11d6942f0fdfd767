/**
 * Running a model (ModelParts/ModelEvaluator/ModelEvaluator.cpp): the
 * forward pass through the layer stack, switching the batch normalization
 * layers between training and inference, prediction, and the accuracy and
 * mean absolute error metrics.
 */
module Evaluation {
  import opened Wrappers
  import opened Matrices
  import opened Utils
  import opened Tables
  import opened Dense
  import opened Normalization
  import opened LayerStack

  // ----- Sequence facts -----

  lemma PrefixOfPrefix<T>(s: seq<T>, n: nat, k: nat)
    requires k <= n <= |s|
    ensures s[..n][..k] == s[..k]
  {
  }

  lemma TailOfPrefix<T>(s: seq<T>, n: nat, k: nat)
    requires k <= n < |s|
    ensures s[..n][k..] + [s[n]] == s[k..n + 1]
  {
  }

  lemma WholePrefix<T>(s: seq<T>, k: nat)
    requires k == |s|
    ensures s[..k] == s
  {
  }

  /** Replacing the first element after a finished part moves it into that part. */
  lemma Advance<T>(done: seq<T>, rest: seq<T>, v: T)
    requires |rest| > 0
    ensures (done + rest)[|done| := v] == (done + [v]) + rest[1..]
  {
  }

  lemma DropFirst<T>(s: seq<T>, i: nat)
    requires i < |s|
    ensures s[i..][1..] == s[i + 1..]
  {
  }

  // ----- The forward pass, on values -----

  /** Each state fits its layer and lies inside what the model covers. */
  predicate AllConsistent(ls: seq<Layer>, ss: seq<LayerState>) {
    |ls| == |ss| && forall i :: 0 <= i < |ls| ==> Consistent(ls[i], ss[i]) && Supported(ss[i])
  }

  /** The states of all layers after a pass over the stack, and its result. */
  datatype Sweep = Sweep(states: seq<LayerState>, output: Result<Mat>)

  /** What one layer's call does to its state and its input. */
  type Step = (Layer, LayerState, Mat) -> Effect

  /**
   * A pass in stack order, each layer given the previous one's output. The
   * first layer that throws ends the pass; the layers after it are not
   * called and keep their states.
   */
  function Pass(ls: seq<Layer>, ss: seq<LayerState>, x: Mat, step: Step): (r: Sweep)
    requires |ls| == |ss|
    ensures |r.states| == |ss|
    decreases |ss|
  {
    if ss == [] then Sweep([], Ok(x))
    else
      var n := |ss| - 1;
      var prev := Pass(ls[..n], ss[..n], x, step);
      if prev.output.Err? then Sweep(prev.states + [ss[n]], prev.output)
      else
        var e := step(ls[n], ss[n], prev.output.value);
        Sweep(prev.states + [e.state], e.output)
  }

  /** A pass that has thrown on the first k layers leaves the remaining layers as they were. */
  lemma {:induction false} PassStops(ls: seq<Layer>, ss: seq<LayerState>, x: Mat, step: Step, k: nat)
    requires |ls| == |ss| && k <= |ss|
    requires Pass(ls[..k], ss[..k], x, step).output.Err?
    ensures var prefix := Pass(ls[..k], ss[..k], x, step);
      Pass(ls, ss, x, step) == Sweep(prefix.states + ss[k..], prefix.output)
    decreases |ss| - k
  {
    if k < |ss| {
      var n := |ss| - 1;
      PrefixOfPrefix(ls, n, k);
      PrefixOfPrefix(ss, n, k);
      PassStops(ls[..n], ss[..n], x, step, k);
      TailOfPrefix(ss, n, k);
    } else {
      WholePrefix(ls, k);
      WholePrefix(ss, k);
    }
  }

  /** A pass that has reached layer i with output y goes on with layer i's call on y. */
  lemma PassExtends(ls: seq<Layer>, ss: seq<LayerState>, x: Mat, step: Step, i: nat, y: Mat)
    requires |ls| == |ss| && i < |ss| && Pass(ls[..i], ss[..i], x, step).output == Ok(y)
    ensures var e := step(ls[i], ss[i], y);
      Pass(ls[..i + 1], ss[..i + 1], x, step) == Sweep(Pass(ls[..i], ss[..i], x, step).states + [e.state], e.output)
  {
    PrefixOfPrefix(ls, i + 1, i);
    PrefixOfPrefix(ss, i + 1, i);
  }

  /**
   * layer->forward(x) on the layers and inputs the model covers; any other
   * call is reported as an invalid argument and never made by Forward.
   */
  function Forwarding(sqrt: real -> real): Step {
    (l, s, x) =>
      if Consistent(l, s) && Supported(s) && WellFormed(x) && x.rows > 0 then ForwardLayer(l, s, x, sqrt)
      else Effect(s, Err(InvalidArgument))
  }

  lemma ForwardingAt(l: Layer, s: LayerState, x: Mat, sqrt: real -> real)
    requires Consistent(l, s) && Supported(s) && WellFormed(x) && x.rows > 0
    ensures Forwarding(sqrt)(l, s, x) == ForwardLayer(l, s, x, sqrt)
  {
  }

  // ----- The forward pass through the stack -----

  /** One turn of forward's loop: layer i on the previous output. */
  method ForwardOne(m: ModelLayers, i: nat, output: Matrix, ghost olds: seq<LayerState>, ghost x0: Mat, sqrt: real -> real)
    returns (step: Result<Matrix>)
    requires m.Valid() && i < |m.layers| && AllConsistent(m.layers, olds)
    requires output.Valid() && output.rows > 0 && output !in m.Repr
    requires var s := Pass(m.layers[..i], olds[..i], x0, Forwarding(sqrt));
      s.output == Ok(output.Value()) && m.States() == s.states + olds[i..]
    modifies m.Repr
    ensures m.Valid() && m.layers == old(m.layers) && m.parts == old(m.parts) && m.Repr == old(m.Repr)
    ensures var s := Pass(m.layers[..i + 1], olds[..i + 1], x0, Forwarding(sqrt));
      m.States() == s.states + olds[i + 1..] && (step.Err? <==> s.output.Err?) &&
      (step.Err? ==> s.output.error == step.error) &&
      (step.Ok? ==> fresh(step.value) && step.value.Valid() && step.value.rows > 0 && s.output == Ok(step.value.Value()))
  {
    ghost var prev := Pass(m.layers[..i], olds[..i], x0, Forwarding(sqrt));
    ghost var input := output.Value();
    step := ForwardAt(m, i, output, sqrt);
    ghost var e := ForwardLayer(m.layers[i], olds[i], input, sqrt);
    ForwardingAt(m.layers[i], olds[i], input, sqrt);
    PassExtends(m.layers, olds, x0, Forwarding(sqrt), i, input);
    Advance(prev.states, olds[i..], e.state);
    DropFirst(olds, i);
  }

  /**
   * forward(input): the stack's layers in order, each on the previous
   * output; what every layer's state and the result become is what Pass
   * with Forwarding says.
   */
  method Forward(m: ModelLayers, x: Matrix, sqrt: real -> real) returns (r: Result<Matrix>)
    requires m.Valid() && x.Valid() && x.rows > 0 && AllConsistent(m.layers, m.States())
    modifies m.Repr
    ensures m.Valid() && m.layers == old(m.layers) && m.parts == old(m.parts) && m.Repr == old(m.Repr)
    ensures var s := Pass(m.layers, old(m.States()), old(x.Value()), Forwarding(sqrt));
      m.States() == s.states && (r.Err? <==> s.output.Err?) && (r.Err? ==> r.error == s.output.error) &&
      (r.Ok? ==> fresh(r.value) && r.value.Valid() && r.value.Value() == s.output.value)
  {
    ghost var olds := m.States();
    ghost var x0 := x.Value();
    var input := new Matrix.Copy(x);
    r := Ok(input);
    var i := 0;
    while i < |m.layers| && r.Ok?
      invariant 0 <= i <= |m.layers| && m.Valid() && m.layers == old(m.layers) && m.parts == old(m.parts) && m.Repr == old(m.Repr)
      invariant var s := Pass(m.layers[..i], olds[..i], x0, Forwarding(sqrt));
        m.States() == s.states + olds[i..] && (r.Err? <==> s.output.Err?) && (r.Err? ==> r.error == s.output.error) &&
        (r.Ok? ==> fresh(r.value) && r.value.Valid() && r.value.rows > 0 && s.output == Ok(r.value.Value()))
    {
      r := ForwardOne(m, i, r.value, olds, x0, sqrt);
      i := i + 1;
    }
    if r.Err? {
      PassStops(m.layers, olds, x0, Forwarding(sqrt), i);
    } else {
      WholePrefix(m.layers, i);
      WholePrefix(olds, i);
    }
  }

  // ----- Training and inference mode -----

  /** setBatchTrainingMode(b), on values: every batch normalization's flag becomes b. */
  function WithModes(ss: seq<LayerState>, training: bool): (r: seq<LayerState>)
    ensures |r| == |ss| && forall i :: 0 <= i < |ss| ==> r[i] == WithMode(ss[i], training)
  {
    seq(|ss|, i requires 0 <= i < |ss| => WithMode(ss[i], training))
  }

  /**
   * The parts of a layer's state that a forward call in inference mode
   * keeps: for a dense layer its activation and parameters, for a batch
   * normalization its running estimates, parameters and accumulators.
   */
  predicate Kept(a: LayerState, b: LayerState) {
    match a
    case DenseState(act, w, bias, _, _) =>
      b.DenseState? && b.activation == act && b.weights == w && b.biases == bias
    case NormState(_, rm, rv, gamma, beta, _, gg, gb) =>
      b.NormState? && b.runningMean == rm && b.runningVar == rv && b.gamma == gamma && b.beta == beta &&
      b.gradGamma == gg && b.gradBeta == gb
  }

  /** Switching the mode keeps every layer fit for its calls and keeps what Kept names. */
  lemma ModesKeep(ls: seq<Layer>, ss: seq<LayerState>, training: bool)
    requires AllConsistent(ls, ss)
    ensures AllConsistent(ls, WithModes(ss, training))
    ensures forall i :: 0 <= i < |ss| ==> Kept(ss[i], WithModes(ss, training)[i])
  {
  }

  /** Only the last switch counts. */
  lemma ModesOverride(ss: seq<LayerState>, first: bool, second: bool)
    ensures WithModes(WithModes(ss, first), second) == WithModes(ss, second)
  {
  }

  /**
   * setBatchTrainingMode(b): each batch normalization of the stack is set
   * to b; the other layers are not touched.
   */
  method SetBatchTrainingMode(m: ModelLayers, training: bool)
    requires m.Valid()
    modifies m.Repr
    ensures m.Valid() && m.layers == old(m.layers) && m.parts == old(m.parts) && m.Repr == old(m.Repr)
    ensures m.States() == WithModes(old(m.States()), training)
  {
    ghost var olds := m.States();
    var i := 0;
    while i < |m.layers|
      invariant 0 <= i <= |m.layers| && m.Valid() && m.layers == old(m.layers) && m.parts == old(m.parts) && m.Repr == old(m.Repr)
      invariant forall j :: 0 <= j < |m.layers| ==> m.States()[j] == if j < i then WithMode(olds[j], training) else olds[j]
    {
      if TypeOf(m.layers[i]) == BATCH_NORM {
        SetModeAt(m, i, training);
      }
      i := i + 1;
    }
  }

  // ----- Prediction -----

  /** A pass keeps a relation between each layer's state before and after when every call and no call keep it. */
  lemma {:induction false} PassRelates(ls: seq<Layer>, ss: seq<LayerState>, x: Mat, step: Step,
                                       rel: (LayerState, LayerState) -> bool)
    requires |ls| == |ss|
    requires forall i :: 0 <= i < |ss| ==> rel(ss[i], ss[i])
    requires forall i, y :: 0 <= i < |ss| ==> rel(ss[i], step(ls[i], ss[i], y).state)
    ensures forall i :: 0 <= i < |ss| ==> rel(ss[i], Pass(ls, ss, x, step).states[i])
    decreases |ss|
  {
    if ss != [] {
      var n := |ss| - 1;
      PassRelates(ls[..n], ss[..n], x, step, rel);
    }
  }

  /** A forward pass leaves every layer in a state it can be in. */
  lemma {:induction false} PassKeepsConsistent(ls: seq<Layer>, ss: seq<LayerState>, x: Mat, sqrt: real -> real)
    requires AllConsistent(ls, ss)
    ensures AllConsistent(ls, Pass(ls, ss, x, Forwarding(sqrt)).states)
    decreases |ss|
  {
    if ss != [] {
      var n := |ss| - 1;
      PassKeepsConsistent(ls[..n], ss[..n], x, sqrt);
      var prev := Pass(ls[..n], ss[..n], x, Forwarding(sqrt));
      var states := Pass(ls, ss, x, Forwarding(sqrt)).states;
      assert states[..n] == prev.states;
      if prev.output.Ok? && WellFormed(prev.output.value) && prev.output.value.rows > 0 {
        ForwardingAt(ls[n], ss[n], prev.output.value, sqrt);
      }
      assert Consistent(ls[n], states[n]) && Supported(states[n]);
      forall i | 0 <= i < n
        ensures Consistent(ls[i], states[i]) && Supported(states[i])
      {
        assert ls[..n][i] == ls[i] && states[..n][i] == states[i];
      }
    }
  }

  /** Every call of Forwarding that succeeds returns a well-formed matrix with at least one row. */
  lemma ForwardingShapes(sqrt: real -> real)
    ensures forall l, s, y :: WellFormed(y) && y.rows > 0 && Forwarding(sqrt)(l, s, y).output.Ok? ==>
      WellFormed(Forwarding(sqrt)(l, s, y).output.value) && Forwarding(sqrt)(l, s, y).output.value.rows > 0
  {
  }

  /** A pass whose every call keeps outputs well-formed and non-empty ends in such an output. */
  lemma {:induction false} PassShapes(ls: seq<Layer>, ss: seq<LayerState>, x: Mat, step: Step)
    requires |ls| == |ss| && WellFormed(x) && x.rows > 0
    requires forall l, s, y :: WellFormed(y) && y.rows > 0 && step(l, s, y).output.Ok? ==>
      WellFormed(step(l, s, y).output.value) && step(l, s, y).output.value.rows > 0
    ensures var r := Pass(ls, ss, x, step).output; r.Ok? ==> WellFormed(r.value) && r.value.rows > 0
    decreases |ss|
  {
    if ss != [] {
      PassShapes(ls[..|ss| - 1], ss[..|ss| - 1], x, step);
    }
  }

  /** predict's effect on values: inference mode, one pass, back to training mode unless the pass threw. */
  function Predicted(ls: seq<Layer>, ss: seq<LayerState>, x: Mat, sqrt: real -> real): (r: Sweep)
    requires |ls| == |ss| && WellFormed(x) && x.rows > 0
    ensures r.output.Ok? ==> WellFormed(r.output.value) && r.output.value.rows > 0
  {
    ForwardingShapes(sqrt);
    PassShapes(ls, WithModes(ss, false), x, Forwarding(sqrt));
    var s := Pass(ls, WithModes(ss, false), x, Forwarding(sqrt));
    if s.output.Ok? then Sweep(WithModes(s.states, true), s.output) else s
  }

  /**
   * predict changes no parameter, running estimate or accumulator of any
   * layer. When the pass succeeds every batch normalization ends in
   * training mode; when it throws they are all left in inference mode.
   */
  lemma PredictKeepsModel(ls: seq<Layer>, ss: seq<LayerState>, x: Mat, sqrt: real -> real)
    requires AllConsistent(ls, ss) && WellFormed(x) && x.rows > 0
    ensures var p := Predicted(ls, ss, x, sqrt);
      |p.states| == |ss| && (forall i :: 0 <= i < |ss| ==> Kept(ss[i], p.states[i])) &&
      (forall i :: 0 <= i < |ss| && p.states[i].NormState? ==> p.states[i].training == p.output.Ok?)
  {
    var inference := WithModes(ss, false);
    ModesKeep(ls, ss, false);
    forall i, y | 0 <= i < |inference|
      ensures Kept(inference[i], Forwarding(sqrt)(ls[i], inference[i], y).state)
      ensures Forwarding(sqrt)(ls[i], inference[i], y).state.NormState? ==> !Forwarding(sqrt)(ls[i], inference[i], y).state.training
    {
      if WellFormed(y) && y.rows > 0 {
        ForwardKeepsParameters(ls[i], inference[i], y, sqrt);
      }
    }
    PassRelates(ls, inference, x, Forwarding(sqrt), Kept);
    PassRelates(ls, inference, x, Forwarding(sqrt), (a: LayerState, b: LayerState) => b.NormState? ==> !b.training);
  }

  /**
   * The part predict shares between its overloads, once the layers are in
   * inference mode: one forward pass, then back to training mode unless it
   * threw.
   */
  method Infer(m: ModelLayers, x: Matrix, ghost olds: seq<LayerState>, sqrt: real -> real) returns (r: Result<Matrix>)
    requires m.Valid() && AllConsistent(m.layers, olds) && m.States() == WithModes(olds, false)
    requires x.Valid() && x.rows > 0
    modifies m.Repr
    ensures m.Valid() && m.layers == old(m.layers) && m.parts == old(m.parts) && m.Repr == old(m.Repr)
    ensures var p := Predicted(m.layers, olds, old(x.Value()), sqrt);
      m.States() == p.states && (r.Ok? <==> p.output.Ok?) && (r.Err? ==> r.error == p.output.error) &&
      (r.Ok? ==> fresh(r.value) && r.value.Valid() && r.value.Value() == p.output.value)
  {
    ModesKeep(m.layers, olds, false);
    r := Forward(m, x, sqrt);
    if r.Ok? {
      SetBatchTrainingMode(m, true);
    }
  }

  /**
   * predict(input): the input as an n x 1 matrix through the stack in
   * inference mode; the result is the output's buffer. A pass that throws
   * propagates before the modes are switched back.
   */
  method Predict(m: ModelLayers, input: seq<real>, sqrt: real -> real) returns (r: Result<seq<real>>)
    requires m.Valid() && AllConsistent(m.layers, m.States()) && |input| > 0
    modifies m.Repr
    ensures m.Valid() && m.layers == old(m.layers) && m.parts == old(m.parts) && m.Repr == old(m.Repr)
    ensures var p := Predicted(m.layers, old(m.States()), Mat(|input|, 1, input), sqrt);
      m.States() == p.states && (r.Ok? <==> p.output.Ok?) &&
      (r.Ok? ==> r.value == p.output.value.data) && (r.Err? ==> r.error == p.output.error)
  {
    ghost var olds := m.States();
    SetBatchTrainingMode(m, false);
    var column := new Matrix.FromValue(Mat(|input|, 1, input));
    var output := Infer(m, column, olds, sqrt);
    if output.Err? {
      return Err(output.error);
    }
    return Ok(output.value.data);
  }

  /** The loop of predict(rows) that reads the output back row by row. */
  method ToRows(t: Matrix) returns (result: Rows)
    requires t.Valid()
    ensures result == RowsOf(t.Value())
  {
    ghost var rows := RowsOf(t.Value());
    result := [];
    var i := 0;
    while i < t.rows
      invariant 0 <= i <= t.rows && result == rows[..i]
    {
      var row: Row := [];
      var j := 0;
      while j < t.cols
        invariant 0 <= j <= t.cols && row == rows[i][..j]
      {
        row := row + [t.Get(i, j)];
        j := j + 1;
      }
      assert row == rows[i];
      assert rows[..i + 1] == rows[..i] + [rows[i]];
      result := result + [row];
      i := i + 1;
    }
    assert rows[..i] == rows;
  }

  /** The layers' states after a call that yields a T or throws, and its result. */
  datatype Scored<T> = Scored(states: seq<LayerState>, result: Result<T>)

  /**
   * predict(rows) on values: the samples as the rows of a matrix, transposed
   * so each sample is a column, through Predicted; the output is transposed
   * back and read row by row. Rows of unequal length throw once the layers
   * are in inference mode.
   */
  function PredictedRows(ls: seq<Layer>, ss: seq<LayerState>, input: Rows, sqrt: real -> real): (r: Scored<Rows>)
    requires |ls| == |ss| && |input| > 0 && |input[0]| > 0
    ensures |r.states| == |ss|
  {
    var table := FromRows(input);
    if table.Err? then Scored(WithModes(ss, false), Err(table.error))
    else
      var p := Predicted(ls, ss, Transposed(table.value), sqrt);
      Scored(p.states, if p.output.Ok? then Ok(RowsOf(Transposed(p.output.value))) else Err(p.output.error))
  }

  /** predict(rows), as PredictedRows says. */
  method PredictRows(m: ModelLayers, input: Rows, sqrt: real -> real) returns (r: Result<Rows>)
    requires m.Valid() && AllConsistent(m.layers, m.States()) && |input| > 0 && |input[0]| > 0
    modifies m.Repr
    ensures m.Valid() && m.layers == old(m.layers) && m.parts == old(m.parts) && m.Repr == old(m.Repr)
    ensures var q := PredictedRows(m.layers, old(m.States()), input, sqrt);
      m.States() == q.states && r == q.result
  {
    hide Predicted, AllConsistent, FromRows, Transposed, RowsOf;
    ghost var olds := m.States();
    SetBatchTrainingMode(m, false);
    var table := FromRows(input);
    if table.Err? {
      return Err(table.error);
    }
    var samples := new Matrix.FromValue(table.value);
    var columns := samples.Transpose();
    var output := Infer(m, columns, olds, sqrt);
    if output.Err? {
      return Err(output.error);
    }
    var back := output.value.Transpose();
    var result := ToRows(back);
    return Ok(result);
  }

  // ----- Metrics -----

  /** e_metric; each value is also the index of its slot in evaluate's result. */
  datatype Metric = ACCURACY_LOG | MAE_LOG

  function Slot(metric: Metric): nat {
    if metric == ACCURACY_LOG then 0 else 1
  }

  /**
   * std::max_element(row) - row.begin(): the first position holding a
   * largest value; 0 for an empty row, whose end is its beginning.
   */
  function ArgMax(row: seq<real>): (k: nat)
    ensures |row| == 0 ==> k == 0
    ensures |row| > 0 ==> k < |row| && (forall j :: 0 <= j < |row| ==> row[j] <= row[k]) &&
                          (forall j :: 0 <= j < k ==> row[j] < row[k])
  {
    if |row| <= 1 then 0
    else
      var k := ArgMax(row[..|row| - 1]);
      if row[k] < row[|row| - 1] then |row| - 1 else k
  }

  /** The first largest position is the only one that is largest with nothing as large before it. */
  lemma ArgMaxUnique(row: seq<real>, k: nat)
    requires k < |row| && (forall j :: 0 <= j < |row| ==> row[j] <= row[k]) && (forall j :: 0 <= j < k ==> row[j] < row[k])
    ensures ArgMax(row) == k
  {
  }

  /** std::round: the nearest integer, a half rounded away from zero. */
  function Round(x: real): (n: int)
    ensures 0.0 <= x ==> n as real - 0.5 <= x < n as real + 0.5
    ensures x < 0.0 ==> n as real - 0.5 < x <= n as real + 0.5
  {
    if x >= 0.0 then (x + 0.5).Floor else -((0.5 - x).Floor)
  }

  /** Rounding is symmetric about zero. */
  lemma RoundOdd(x: real)
    ensures Round(-x) == -Round(x)
  {
    if x > 0.0 {
      assert -x < 0.0;
    }
  }

  /** Any x is at most a half away from its rounding, and integers round to themselves. */
  lemma RoundNearest(x: real, n: int)
    ensures -0.5 <= x - Round(x) as real <= 0.5
    ensures Round(n as real) == n
  {
  }

  /** Whether a prediction counts as correct against its target. */
  predicate Hit(p: Row, t: Row, classification: bool)
    requires !classification ==> |p| > 0 && |t| > 0
  {
    if classification then ArgMax(p) == ArgMax(t) else Round(p[0]) == Round(t[0])
  }

  /** The first n samples are read inside both tables. */
  predicate InBounds(p: Rows, t: Rows, classification: bool, n: nat) {
    n <= |p| && n <= |t| && (!classification ==> forall i :: 0 <= i < n ==> |p[i]| > 0 && |t[i]| > 0)
  }

  /** The number of correct predictions among the first n. */
  function Hits(p: Rows, t: Rows, classification: bool, n: nat): (c: nat)
    requires InBounds(p, t, classification, n)
    ensures c <= n
  {
    if n == 0 then 0
    else Hits(p, t, classification, n - 1) + if Hit(p[n - 1], t[n - 1], classification) then 1 else 0
  }

  /**
   * computeAccuracy: classification when the first prediction has more
   * than one value; correct predictions over the number of targets. Reading
   * predictions[0] of no predictions, a target past the end, or the first
   * value of an empty row in regression mode is undefined behaviour in
   * C++; the model reports it as out of range.
   */
  function Accuracy(p: Rows, t: Rows): Result<real> {
    if |p| == 0 then Err(OutOfRange)
    else
      var classification := |p[0]| > 1;
      if !InBounds(p, t, classification, |p|) then Err(OutOfRange)
      else Ok(Hits(p, t, classification, |p|) as real / |t| as real)
  }

  lemma ShareAtMostOne(c: nat, n: nat)
    requires c <= n && n > 0
    ensures 0.0 <= c as real / n as real <= 1.0
  {
    assert c as real / n as real * n as real == c as real;
  }

  /** An accuracy lies between 0 and 1. */
  lemma AccuracyBetweenZeroAndOne(p: Rows, t: Rows)
    requires Accuracy(p, t).Ok?
    ensures 0.0 <= Accuracy(p, t).value <= 1.0
  {
    var classification := |p[0]| > 1;
    ShareAtMostOne(Hits(p, t, classification, |p|), |t|);
  }

  lemma {:induction false} HitsAll(t: Rows, classification: bool, n: nat)
    requires InBounds(t, t, classification, n)
    ensures Hits(t, t, classification, n) == n
  {
    if n > 0 {
      HitsAll(t, classification, n - 1);
    }
  }

  /** Predicting every target exactly scores 1. */
  lemma AccuracyOfTargets(t: Rows)
    requires |t| > 0 && forall i :: 0 <= i < |t| ==> |t[i]| > 0
    ensures Accuracy(t, t) == Ok(1.0)
  {
    HitsAll(t, |t[0]| > 1, |t|);
    assert |t| as real / |t| as real == 1.0;
  }

  /** computeAccuracy's counting loop, as Accuracy says. */
  method ComputeAccuracy(p: Rows, t: Rows) returns (r: Result<real>)
    ensures r == Accuracy(p, t)
  {
    if |p| == 0 {
      return Err(OutOfRange);
    }
    var correct := 0;
    var classification := |p[0]| > 1;
    var i := 0;
    while i < |p|
      invariant 0 <= i <= |p| && InBounds(p, t, classification, i) && correct == Hits(p, t, classification, i)
    {
      if i >= |t| || (!classification && (|p[i]| == 0 || |t[i]| == 0)) {
        return Err(OutOfRange);
      }
      if classification {
        if ArgMax(p[i]) == ArgMax(t[i]) {
          correct := correct + 1;
        }
      } else if Round(p[i][0]) == Round(t[i][0]) {
        correct := correct + 1;
      }
      i := i + 1;
    }
    return Ok(correct as real / |t| as real);
  }

  function Abs(x: real): real {
    if x < 0.0 then -x else x
  }

  /**
   * computeMAE: the absolute differences of targets and predictions,
   * summed and divided by the number of prediction rows. Either table
   * with rows of unequal length, or tables of different shapes, throw
   * invalid_argument.
   */
  function MeanAbsoluteError(p: Rows, t: Rows): Result<real>
    requires |t| > 0
  {
    var predictions := FromRows(p);
    var targets := FromRows(t);
    if predictions.Err? || targets.Err? || !SameShape(targets.value, predictions.value) then Err(InvalidArgument)
    else Ok(Sum(Mapped(ZipWith(targets.value, predictions.value, Sub), Abs).data) / |p| as real)
  }

  /** The summed absolute differences of two matrices of one shape: never negative, zero only when they are equal. */
  lemma AbsoluteErrorsZeroIffEqual(tm: Mat, pm: Mat)
    requires WellFormed(tm) && WellFormed(pm) && SameShape(tm, pm)
    ensures var total := Sum(Mapped(ZipWith(tm, pm, Sub), Abs).data);
      total >= 0.0 && (total == 0.0 <==> tm == pm)
  {
    var errors := Mapped(ZipWith(tm, pm, Sub), Abs).data;
    SumNonNegative(errors);
    if Sum(errors) == 0.0 {
      forall k | 0 <= k < |pm.data|
        ensures pm.data[k] == tm.data[k]
      {
        assert errors[k] == Abs(tm.data[k] - pm.data[k]);
      }
      assert pm.data == tm.data;
    }
    if tm == pm {
      SumOfZeros(errors);
    }
  }

  lemma MeanOfNonNegative(total: real, n: nat)
    requires total >= 0.0 && n > 0
    ensures total / n as real >= 0.0 && (total / n as real == 0.0 <==> total == 0.0)
  {
    assert total / n as real * n as real == total;
  }

  /** The mean absolute error is never negative, and is zero exactly when every prediction is its target. */
  lemma MeanAbsoluteErrorZeroIffEqual(p: Rows, t: Rows)
    requires |t| > 0 && MeanAbsoluteError(p, t).Ok?
    ensures MeanAbsoluteError(p, t).value >= 0.0
    ensures MeanAbsoluteError(p, t).value == 0.0 <==> p == t
  {
    var pm := FromRows(p).value;
    var tm := FromRows(t).value;
    AbsoluteErrorsZeroIffEqual(tm, pm);
    MeanOfNonNegative(Sum(Mapped(ZipWith(tm, pm, Sub), Abs).data), |p|);
    FromRowsInjective(p, t);
  }

  /** computeMetric: the metric the tag names. */
  function MetricValue(p: Rows, t: Rows, metric: Metric): Result<real>
    requires |t| > 0
  {
    match metric
    case ACCURACY_LOG => Accuracy(p, t)
    case MAE_LOG => MeanAbsoluteError(p, t)
  }

  /**
   * The result of evaluate(xTest, yTest, metrics) after its loop: two
   * slots starting at 0.0, each requested metric written to its slot in
   * list order; the first metric that throws ends the loop.
   */
  function Slots(p: Rows, t: Rows, metrics: seq<Metric>): (r: Result<seq<real>>)
    requires |t| > 0
    ensures r.Ok? ==> |r.value| == 2
    decreases |metrics|
  {
    if metrics == [] then Ok([0.0, 0.0])
    else
      var prev := Slots(p, t, metrics[..|metrics| - 1]);
      var metric := metrics[|metrics| - 1];
      if prev.Err? then prev
      else if MetricValue(p, t, metric).Err? then Err(MetricValue(p, t, metric).error)
      else Ok(prev.value[Slot(metric) := MetricValue(p, t, metric).value])
  }

  /**
   * evaluate's slots: throws exactly when a requested metric throws;
   * otherwise each slot holds its metric when that was requested and 0.0
   * when it was not.
   */
  lemma {:induction false} SlotsFilled(p: Rows, t: Rows, metrics: seq<Metric>)
    requires |t| > 0
    ensures var r := Slots(p, t, metrics);
      (r.Err? <==> (ACCURACY_LOG in metrics && Accuracy(p, t).Err?) || (MAE_LOG in metrics && MeanAbsoluteError(p, t).Err?)) &&
      (r.Ok? ==> r.value[0] == (if ACCURACY_LOG in metrics then Accuracy(p, t).value else 0.0) &&
                 r.value[1] == (if MAE_LOG in metrics then MeanAbsoluteError(p, t).value else 0.0))
    decreases |metrics|
  {
    if metrics != [] {
      var n := |metrics| - 1;
      SlotsFilled(p, t, metrics[..n]);
      assert metrics == metrics[..n] + [metrics[n]];
      assert ACCURACY_LOG in metrics <==> ACCURACY_LOG in metrics[..n] || metrics[n] == ACCURACY_LOG;
      assert MAE_LOG in metrics <==> MAE_LOG in metrics[..n] || metrics[n] == MAE_LOG;
    }
  }

  /** The loop of evaluate(xTest, yTest, metrics), as Slots says. */
  method FillSlots(p: Rows, t: Rows, metrics: seq<Metric>) returns (r: Result<seq<real>>)
    requires |t| > 0
    ensures r == Slots(p, t, metrics)
  {
    var result := [0.0, 0.0];
    var i := 0;
    while i < |metrics|
      invariant 0 <= i <= |metrics| && Slots(p, t, metrics[..i]) == Ok(result)
    {
      assert metrics[..i + 1][..i] == metrics[..i];
      var temp := MetricValue(p, t, metrics[i]);
      if temp.Err? {
        SlotsStop(p, t, metrics, i + 1);
        return Err(temp.error);
      }
      result := result[Slot(metrics[i]) := temp.value];
      i := i + 1;
    }
    assert metrics[..i] == metrics;
    return Ok(result);
  }

  /** Once a metric has thrown, the later ones change nothing. */
  lemma {:induction false} SlotsStop(p: Rows, t: Rows, metrics: seq<Metric>, k: nat)
    requires |t| > 0 && k <= |metrics| && Slots(p, t, metrics[..k]).Err?
    ensures Slots(p, t, metrics) == Slots(p, t, metrics[..k])
    decreases |metrics| - k
  {
    if k < |metrics| {
      var n := |metrics| - 1;
      assert metrics[..n][..k] == metrics[..k];
      SlotsStop(p, t, metrics[..n], k);
    } else {
      assert metrics[..k] == metrics;
    }
  }

  /**
   * evaluate(xTest, yTest, metric) on values: no test samples or no
   * targets give 0.0 without touching the layers; otherwise the metric of
   * the predictions against the targets.
   */
  function Evaluated(ls: seq<Layer>, ss: seq<LayerState>, x: Rows, y: Rows, metric: Metric, sqrt: real -> real): Scored<real>
    requires |ls| == |ss| && (|x| > 0 ==> |x[0]| > 0)
  {
    if |x| == 0 || |y| == 0 then Scored(ss, Ok(0.0))
    else
      var q := PredictedRows(ls, ss, x, sqrt);
      Scored(q.states, if q.result.Err? then Err(q.result.error) else MetricValue(q.result.value, y, metric))
  }

  /**
   * evaluate(xTest, yTest, metrics) on values: two slots of 0.0 without
   * touching the layers when there are no samples or no targets;
   * otherwise the slots of the requested metrics over one prediction.
   */
  function EvaluatedAll(ls: seq<Layer>, ss: seq<LayerState>, x: Rows, y: Rows, metrics: seq<Metric>, sqrt: real -> real): (r: Scored<seq<real>>)
    requires |ls| == |ss| && (|x| > 0 ==> |x[0]| > 0)
    ensures |r.states| == |ss|
  {
    if |x| == 0 || |y| == 0 then Scored(ss, Ok([0.0, 0.0]))
    else
      var q := PredictedRows(ls, ss, x, sqrt);
      Scored(q.states, if q.result.Err? then Err(q.result.error) else Slots(q.result.value, y, metrics))
  }

  /**
   * Evaluating changes no parameter, running estimate or accumulator, and
   * a call that does not throw leaves every batch normalization in
   * training mode.
   */
  lemma EvaluatedKeepsModel(ls: seq<Layer>, ss: seq<LayerState>, x: Rows, y: Rows, metrics: seq<Metric>, sqrt: real -> real)
    requires AllConsistent(ls, ss) && (|x| > 0 ==> |x[0]| > 0)
    requires forall i :: 0 <= i < |ss| && ss[i].NormState? ==> ss[i].training
    ensures var e := EvaluatedAll(ls, ss, x, y, metrics, sqrt);
      |e.states| == |ss| && (forall i :: 0 <= i < |ss| ==> Kept(ss[i], e.states[i])) &&
      (e.result.Ok? ==> forall i :: 0 <= i < |ss| && e.states[i].NormState? ==> e.states[i].training)
  {
    if |x| > 0 && |y| > 0 {
      var table := FromRows(x);
      if table.Err? {
        ModesKeep(ls, ss, false);
      } else {
        PredictKeepsModel(ls, ss, Transposed(table.value), sqrt);
      }
    }
  }

  /** Evaluating leaves every layer in a state it can be in. */
  lemma EvaluatedConsistent(ls: seq<Layer>, ss: seq<LayerState>, x: Rows, y: Rows, metrics: seq<Metric>, sqrt: real -> real)
    requires AllConsistent(ls, ss) && (|x| > 0 ==> |x[0]| > 0)
    ensures AllConsistent(ls, EvaluatedAll(ls, ss, x, y, metrics, sqrt).states)
  {
    if |x| > 0 && |y| > 0 {
      var table := FromRows(x);
      var inference := WithModes(ss, false);
      ModesKeep(ls, ss, false);
      if table.Ok? {
        var s := Pass(ls, inference, Transposed(table.value), Forwarding(sqrt));
        PassKeepsConsistent(ls, inference, Transposed(table.value), sqrt);
        ModesKeep(ls, s.states, true);
      }
    }
  }

  /** evaluate(xTest, yTest, metric), as Evaluated says. */
  method Evaluate(m: ModelLayers, x: Rows, y: Rows, metric: Metric, sqrt: real -> real) returns (r: Result<real>)
    requires m.Valid() && AllConsistent(m.layers, m.States()) && (|x| > 0 ==> |x[0]| > 0)
    modifies m.Repr
    ensures m.Valid() && m.layers == old(m.layers) && m.parts == old(m.parts) && m.Repr == old(m.Repr)
    ensures var e := Evaluated(m.layers, old(m.States()), x, y, metric, sqrt);
      m.States() == e.states && r == e.result
  {
    if |x| == 0 || |y| == 0 {
      return Ok(0.0);
    }
    var predictions := PredictRows(m, x, sqrt);
    if predictions.Err? {
      return Err(predictions.error);
    }
    if metric == ACCURACY_LOG {
      r := ComputeAccuracy(predictions.value, y);
    } else {
      r := MeanAbsoluteError(predictions.value, y);
    }
  }

  /** evaluate(xTest, yTest, metrics), as EvaluatedAll says. */
  method EvaluateAll(m: ModelLayers, x: Rows, y: Rows, metrics: seq<Metric>, sqrt: real -> real) returns (r: Result<seq<real>>)
    requires m.Valid() && AllConsistent(m.layers, m.States()) && (|x| > 0 ==> |x[0]| > 0)
    modifies m.Repr
    ensures m.Valid() && m.layers == old(m.layers) && m.parts == old(m.parts) && m.Repr == old(m.Repr)
    ensures var e := EvaluatedAll(m.layers, old(m.States()), x, y, metrics, sqrt);
      m.States() == e.states && r == e.result
  {
    if |x| == 0 || |y| == 0 {
      return Ok([0.0, 0.0]);
    }
    var predictions := PredictRows(m, x, sqrt);
    if predictions.Err? {
      return Err(predictions.error);
    }
    r := FillSlots(predictions.value, y, metrics);
  }
}
