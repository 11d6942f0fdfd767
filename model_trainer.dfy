/**
 * ModelTrainer: the backward pass through the stack, training on one
 * batch, and the epoch loop with its validation split and early stopping.
 * The trainer's optimizer is an SGD passed to each call; the loss is the
 * mean squared error.
 */
module Training {
  import opened Wrappers
  import opened Matrices
  import opened Utils
  import opened Tables
  import opened Losses
  import opened Optimizers
  import opened LayerStack
  import opened Evaluation

  // ----- What training keeps of a layer -----

  /**
   * b has what a training step other than forward never changes in a:
   * a dense layer's activation and kept input and output, a batch
   * normalization's mode, running estimates and kept normalized input.
   */
  predicate KeepsCaches(a: LayerState, b: LayerState) {
    match a
    case DenseState(act, _, _, input, activated) =>
      b.DenseState? && b.activation == act && b.input == input && b.activated == activated
    case NormState(training, rm, rv, _, _, normalized, _, _) =>
      b.NormState? && b.training == training && b.runningMean == rm && b.runningVar == rv && b.normalized == normalized
  }

  /** backward keeps every cache, and a batch normalization's parameters too. */
  lemma BackwardKeepsCaches(l: Layer, s: LayerState, g: Mat, velocities: map<Matrix, Mat>, lr: real, momentum: real,
                            sqrt: real -> real)
    requires Consistent(l, s) && Supported(s) && WellFormed(g) && AllWellFormed(velocities)
    ensures var r := BackwardLayer(l, s, g, velocities, lr, momentum, sqrt);
      KeepsCaches(s, r.state) && (s.NormState? ==> r.state.gamma == s.gamma && r.state.beta == s.beta && r.velocities == velocities)
  {
  }

  /** applyGradient keeps every cache, and leaves a dense layer and the velocities alone. */
  lemma ApplyKeepsCaches(l: Layer, s: LayerState, velocities: map<Matrix, Mat>, batchSize: int, lr: real, momentum: real)
    requires Consistent(l, s) && Supported(s) && AllWellFormed(velocities)
    ensures var r := ApplyLayer(l, s, velocities, batchSize, lr, momentum);
      KeepsCaches(s, r.state) && (s.DenseState? ==> r.state == s && r.velocities == velocities && r.outcome == Pass)
  {
  }

  // ----- backward -----

  /** The layers' states, the optimizer's velocities and the last gradient of a backward pass. */
  datatype Retreat = Retreat(states: seq<LayerState>, velocities: map<Matrix, Mat>, output: Result<Mat>)

  /** One layer's backward call, on values. */
  type BackStep = (Layer, LayerState, Mat, map<Matrix, Mat>) -> BackwardOutcome

  /** layer->backward(g) with the trainer's optimizer, for any state the stack can be in. */
  function Backing(lr: real, momentum: real, sqrt: real -> real): BackStep {
    (l, s, g, v) =>
      if Consistent(l, s) && Supported(s) && WellFormed(g) && AllWellFormed(v) then BackwardLayer(l, s, g, v, lr, momentum, sqrt)
      else BackwardOutcome(s, v, Err(InvalidArgument))
  }

  /** Backing does what a layer's backward call does wherever that call is defined. */
  lemma BackingAt(l: Layer, s: LayerState, g: Mat, v: map<Matrix, Mat>, lr: real, momentum: real, sqrt: real -> real)
    requires Consistent(l, s) && Supported(s) && WellFormed(g) && AllWellFormed(v)
    ensures Backing(lr, momentum, sqrt)(l, s, g, v) == BackwardLayer(l, s, g, v, lr, momentum, sqrt)
  {
  }

  /**
   * The backward pass from layer i - 1 down to layer 0, each layer given
   * the gradient the layer after it returned; the first layer that throws
   * ends the pass.
   */
  function BackFrom(ls: seq<Layer>, ss: seq<LayerState>, v: map<Matrix, Mat>, g: Mat, i: nat, step: BackStep): (r: Retreat)
    requires |ls| == |ss| && i <= |ss|
    ensures |r.states| == |ss|
    decreases i
  {
    if i == 0 then Retreat(ss, v, Ok(g))
    else
      var e := step(ls[i - 1], ss[i - 1], g, v);
      if e.output.Err? then Retreat(ss[i - 1 := e.state], e.velocities, e.output)
      else BackFrom(ls, ss[i - 1 := e.state], e.velocities, e.output.value, i - 1, step)
  }

  /**
   * The backward pass visits each layer below where it starts once and
   * leaves the others alone: a relation every call keeps between a layer's
   * state before and after holds of the whole pass.
   */
  lemma {:induction false} BackFromRelates(ls: seq<Layer>, ss: seq<LayerState>, v: map<Matrix, Mat>, g: Mat, i: nat,
                                           step: BackStep, rel: (Layer, LayerState, LayerState) -> bool)
    requires |ls| == |ss| && i <= |ss|
    requires forall j :: 0 <= j < i ==> rel(ls[j], ss[j], ss[j])
    requires forall j, g', v' :: 0 <= j < i ==> rel(ls[j], ss[j], step(ls[j], ss[j], g', v').state)
    ensures var r := BackFrom(ls, ss, v, g, i, step);
      (forall j :: i <= j < |ss| ==> r.states[j] == ss[j]) && (forall j :: 0 <= j < i ==> rel(ls[j], ss[j], r.states[j]))
    decreases i
  {
    if i > 0 {
      var e := step(ls[i - 1], ss[i - 1], g, v);
      var next := ss[i - 1 := e.state];
      if e.output.Ok? {
        assert forall j :: 0 <= j < i - 1 ==> next[j] == ss[j];
        BackFromRelates(ls, next, e.velocities, e.output.value, i - 1, step, rel);
      }
    }
  }

  /**
   * ModelTrainer::backward keeps every cache, touching a batch
   * normalization's accumulators only, and leaves the stack in states its
   * layers can be in.
   */
  lemma BackwardKeeps(ls: seq<Layer>, ss: seq<LayerState>, v: map<Matrix, Mat>, g: Mat, lr: real, momentum: real, sqrt: real -> real)
    requires AllConsistent(ls, ss)
    ensures var r := BackFrom(ls, ss, v, g, |ss|, Backing(lr, momentum, sqrt));
      AllConsistent(ls, r.states) &&
      forall j :: 0 <= j < |ss| ==>
        KeepsCaches(ss[j], r.states[j]) && (ss[j].NormState? ==> r.states[j].gamma == ss[j].gamma && r.states[j].beta == ss[j].beta)
  {
    var step := Backing(lr, momentum, sqrt);
    var rel := (l: Layer, a: LayerState, b: LayerState) =>
      (Consistent(l, a) && Supported(a) ==> Consistent(l, b) && Supported(b)) &&
      KeepsCaches(a, b) && (a.NormState? ==> b.gamma == a.gamma && b.beta == a.beta);
    forall j: int, g': Mat, v': map<Matrix, Mat> | 0 <= j < |ss|
      ensures rel(ls[j], ss[j], step(ls[j], ss[j], g', v').state)
    {
      if WellFormed(g') && AllWellFormed(v') {
        BackwardKeepsCaches(ls[j], ss[j], g', v', lr, momentum, sqrt);
      }
    }
    BackFromRelates(ls, ss, v, g, |ss|, step, rel);
  }

  /** The backward pass from i = j + 1 after its first call, e, the call of layer j. */
  lemma BackFromUnfolds(ls: seq<Layer>, ss: seq<LayerState>, v: map<Matrix, Mat>, g: Mat, i: nat, j: nat, step: BackStep,
                        e: BackwardOutcome)
    requires |ls| == |ss| && i == j + 1 && i <= |ss| && e == step(ls[j], ss[j], g, v)
    ensures e.output.Err? ==> BackFrom(ls, ss, v, g, i, step) == Retreat(ss[j := e.state], e.velocities, e.output)
    ensures e.output.Ok? ==>
      BackFrom(ls, ss, v, g, i, step) == BackFrom(ls, ss[j := e.state], e.velocities, e.output.value, j, step)
  {
  }

  /** Layer j's backward call, as Backing says. */
  method BackwardCall(m: ModelLayers, j: nat, grad: Matrix, optimizer: SGD, ghost step: BackStep, sqrt: real -> real)
    returns (r: Result<Matrix>)
    requires m.Valid() && j < |m.layers| && AllConsistent(m.layers, m.States())
    requires grad.Valid() && optimizer.Valid() && optimizer !in m.Repr
    requires step == Backing(optimizer.learningRate, optimizer.momentum, sqrt)
    modifies m.Repr, optimizer
    ensures m.Valid() && m.layers == old(m.layers) && m.parts == old(m.parts) && m.Repr == old(m.Repr) && optimizer.Valid()
    ensures AllConsistent(m.layers, m.States())
    ensures var e := step(m.layers[j], old(m.States())[j], old(grad.Value()), old(optimizer.velocities));
      m.States() == old(m.States())[j := e.state] && optimizer.velocities == e.velocities &&
      (r.Err? <==> e.output.Err?) && (r.Err? ==> r.error == e.output.error) &&
      (r.Ok? ==> r.value.Valid() && r.value.Value() == e.output.value)
  {
    hide BackwardLayer;
    BackingAt(m.layers[j], m.States()[j], grad.Value(), optimizer.velocities,
              optimizer.learningRate, optimizer.momentum, sqrt);
    r := BackwardAt(m, j, grad, optimizer, sqrt);
  }

  /** One step of the backward loop, as the first step of BackFrom from i. */
  method BackwardOne(m: ModelLayers, i: nat, grad: Matrix, optimizer: SGD, ghost step: BackStep, ghost whole: Retreat,
                     sqrt: real -> real) returns (r: Result<Matrix>, j: nat)
    requires m.Valid() && 0 < i <= |m.layers| && AllConsistent(m.layers, m.States())
    requires grad.Valid() && optimizer.Valid() && optimizer !in m.Repr
    requires step == Backing(optimizer.learningRate, optimizer.momentum, sqrt)
    requires whole == BackFrom(m.layers, m.States(), optimizer.velocities, grad.Value(), i, step)
    modifies m.Repr, optimizer
    ensures m.Valid() && m.layers == old(m.layers) && m.parts == old(m.parts) && m.Repr == old(m.Repr) && optimizer.Valid()
    ensures AllConsistent(m.layers, m.States())
    ensures j == i - 1
    ensures r.Ok? ==> r.value.Valid() && whole == BackFrom(m.layers, m.States(), optimizer.velocities, r.value.Value(), j, step)
    ensures r.Err? ==> whole == Retreat(m.States(), optimizer.velocities, Err(r.error))
  {
    hide BackwardLayer;
    j := i - 1;
    ghost var ss, v, g := m.States(), optimizer.velocities, grad.Value();
    ghost var e := step(m.layers[j], ss[j], g, v);
    BackFromUnfolds(m.layers, ss, v, g, i, j, step, e);
    r := BackwardCall(m, j, grad, optimizer, step, sqrt);
    assert m.States() == ss[j := e.state] && optimizer.velocities == e.velocities;
    if r.Ok? {
      assert r.value.Value() == e.output.value;
    }
  }

  /**
   * ModelTrainer::backward: the layers from the last to the first, each
   * given the gradient the layer after it returned, as BackFrom says.
   */
  method Backward(m: ModelLayers, gradient: Matrix, optimizer: SGD, sqrt: real -> real) returns (s: Outcome)
    requires m.Valid() && AllConsistent(m.layers, m.States()) && gradient.Valid() && optimizer.Valid()
    requires optimizer !in m.Repr
    modifies m.Repr, optimizer
    ensures m.Valid() && m.layers == old(m.layers) && m.parts == old(m.parts) && m.Repr == old(m.Repr) && optimizer.Valid()
    ensures var b := BackFrom(m.layers, old(m.States()), old(optimizer.velocities), old(gradient.Value()), |m.layers|,
                              Backing(optimizer.learningRate, optimizer.momentum, sqrt));
      m.States() == b.states && optimizer.velocities == b.velocities &&
      (s.Fail? <==> b.output.Err?) && (s.Fail? ==> s.error == b.output.error)
  {
    hide BackwardLayer, AllConsistent, Backing;
    ghost var step := Backing(optimizer.learningRate, optimizer.momentum, sqrt);
    ghost var whole := BackFrom(m.layers, m.States(), optimizer.velocities, gradient.Value(), |m.layers|, step);
    var r: Result<Matrix> := Ok(gradient);
    var i := |m.layers|;
    while i > 0 && r.Ok?
      invariant 0 <= i <= |m.layers| && optimizer.Valid()
      invariant m.Valid() && m.layers == old(m.layers) && m.parts == old(m.parts) && m.Repr == old(m.Repr)
      invariant AllConsistent(m.layers, m.States())
      invariant r.Ok? ==> r.value.Valid() && whole == BackFrom(m.layers, m.States(), optimizer.velocities, r.value.Value(), i, step)
      invariant r.Err? ==> whole == Retreat(m.States(), optimizer.velocities, Err(r.error))
      decreases i
    {
      r, i := BackwardOne(m, i, r.value, optimizer, step, whole, sqrt);
    }
    s := if r.Ok? then Pass else Fail(r.error);
  }

  // ----- resetGradients and applyGradient over the stack -----

  /** resetGradients on every layer. */
  function ResetStates(ss: seq<LayerState>): (r: seq<LayerState>)
    ensures |r| == |ss| && forall j :: 0 <= j < |ss| ==> r[j] == ResetLayer(ss[j])
  {
    seq(|ss|, j requires 0 <= j < |ss| => ResetLayer(ss[j]))
  }

  /**
   * After resetGradients every batch normalization's accumulators are zero
   * matrices of its parameters' shapes; nothing else changes.
   */
  lemma ResetZeroes(ls: seq<Layer>, ss: seq<LayerState>)
    requires AllConsistent(ls, ss)
    ensures var r := ResetStates(ss);
      AllConsistent(ls, r) &&
      forall j :: 0 <= j < |ss| ==>
        KeepsCaches(ss[j], r[j]) &&
        (ss[j].DenseState? ==> r[j] == ss[j]) &&
        (ss[j].NormState? ==> r[j].gamma == ss[j].gamma && r[j].beta == ss[j].beta &&
                              r[j].gradGamma == Fill(ss[j].gamma.rows, ss[j].gamma.cols, 0.0) &&
                              r[j].gradBeta == Fill(ss[j].beta.rows, ss[j].beta.cols, 0.0))
  {
  }

  /** The reset loop of trainOnBatch. */
  method ResetGradients(m: ModelLayers)
    requires m.Valid()
    modifies m.Repr
    ensures m.Valid() && m.layers == old(m.layers) && m.parts == old(m.parts) && m.Repr == old(m.Repr)
    ensures m.States() == ResetStates(old(m.States()))
  {
    ghost var olds := m.States();
    var i := 0;
    while i < |m.layers|
      invariant 0 <= i <= |m.layers|
      invariant m.Valid() && m.layers == old(m.layers) && m.parts == old(m.parts) && m.Repr == old(m.Repr)
      invariant |m.States()| == |olds|
      invariant forall j :: 0 <= j < i ==> m.States()[j] == ResetLayer(olds[j])
      invariant forall j :: i <= j < |olds| ==> m.States()[j] == olds[j]
    {
      ResetAt(m, i);
      i := i + 1;
    }
  }

  /** The layers' states, the optimizer's velocities, and whether a pass of applyGradient threw. */
  datatype Stepped = Stepped(states: seq<LayerState>, velocities: map<Matrix, Mat>, outcome: Outcome)

  /** One layer's applyGradient call, on values. */
  type ApplyStep = (Layer, LayerState, map<Matrix, Mat>) -> ApplyOutcome

  /** layer->applyGradient(optimizer, batchSize), for any state the stack can be in. */
  function Applying(batchSize: int, lr: real, momentum: real): ApplyStep {
    (l, s, v) =>
      if Consistent(l, s) && Supported(s) && AllWellFormed(v) then ApplyLayer(l, s, v, batchSize, lr, momentum)
      else ApplyOutcome(s, v, Fail(InvalidArgument))
  }

  lemma ApplyingAt(l: Layer, s: LayerState, v: map<Matrix, Mat>, batchSize: int, lr: real, momentum: real)
    requires Consistent(l, s) && Supported(s) && AllWellFormed(v)
    ensures Applying(batchSize, lr, momentum)(l, s, v) == ApplyLayer(l, s, v, batchSize, lr, momentum)
  {
  }

  /** applyGradient on layers i onwards, in order; the first that throws ends it. */
  function ApplyFrom(ls: seq<Layer>, ss: seq<LayerState>, v: map<Matrix, Mat>, i: nat, step: ApplyStep): (r: Stepped)
    requires |ls| == |ss| && i <= |ss|
    ensures |r.states| == |ss|
    decreases |ss| - i
  {
    if i == |ss| then Stepped(ss, v, Pass)
    else
      var e := step(ls[i], ss[i], v);
      if e.outcome.Fail? then Stepped(ss[i := e.state], e.velocities, e.outcome)
      else ApplyFrom(ls, ss[i := e.state], e.velocities, i + 1, step)
  }

  /** A relation every applyGradient call keeps holds of the whole pass from layer i on. */
  lemma {:induction false} ApplyFromRelates(ls: seq<Layer>, ss: seq<LayerState>, v: map<Matrix, Mat>, i: nat,
                                            step: ApplyStep, rel: (Layer, LayerState, LayerState) -> bool)
    requires |ls| == |ss| && i <= |ss|
    requires forall j :: i <= j < |ss| ==> rel(ls[j], ss[j], ss[j])
    requires forall j, v' :: i <= j < |ss| ==> rel(ls[j], ss[j], step(ls[j], ss[j], v').state)
    ensures var r := ApplyFrom(ls, ss, v, i, step);
      (forall j :: 0 <= j < i ==> r.states[j] == ss[j]) && (forall j :: i <= j < |ss| ==> rel(ls[j], ss[j], r.states[j]))
    decreases |ss| - i
  {
    if i < |ss| {
      var e := step(ls[i], ss[i], v);
      var next := ss[i := e.state];
      if e.outcome.Pass? {
        assert forall j :: i < j < |ss| ==> next[j] == ss[j];
        ApplyFromRelates(ls, next, e.velocities, i + 1, step, rel);
      }
    }
  }

  /**
   * applyGradient over the stack keeps every cache, leaves dense layers
   * alone, and leaves the stack in states its layers can be in.
   */
  lemma ApplyKeeps(ls: seq<Layer>, ss: seq<LayerState>, v: map<Matrix, Mat>, batchSize: int, lr: real, momentum: real)
    requires AllConsistent(ls, ss)
    ensures var r := ApplyFrom(ls, ss, v, 0, Applying(batchSize, lr, momentum));
      AllConsistent(ls, r.states) &&
      forall j :: 0 <= j < |ss| ==>
        KeepsCaches(ss[j], r.states[j]) && (ss[j].DenseState? ==> r.states[j] == ss[j])
  {
    var step := Applying(batchSize, lr, momentum);
    var rel := (l: Layer, a: LayerState, b: LayerState) =>
      (Consistent(l, a) && Supported(a) ==> Consistent(l, b) && Supported(b)) &&
      KeepsCaches(a, b) && (a.DenseState? ==> b == a);
    forall j: int, v': map<Matrix, Mat> | 0 <= j < |ss|
      ensures rel(ls[j], ss[j], step(ls[j], ss[j], v').state)
    {
      if AllWellFormed(v') {
        ApplyKeepsCaches(ls[j], ss[j], v', batchSize, lr, momentum);
      }
    }
    ApplyFromRelates(ls, ss, v, 0, step, rel);
  }

  /** One step of the applyGradient loop: layer i. */
  method ApplyOne(m: ModelLayers, i: nat, optimizer: SGD, batchSize: int, ghost whole: Stepped) returns (s: Outcome)
    requires m.Valid() && i < |m.layers| && AllConsistent(m.layers, m.States()) && optimizer.Valid() && optimizer !in m.Repr
    requires whole == ApplyFrom(m.layers, m.States(), optimizer.velocities, i,
                                Applying(batchSize, optimizer.learningRate, optimizer.momentum))
    modifies m.Repr, optimizer
    ensures m.Valid() && m.layers == old(m.layers) && m.parts == old(m.parts) && m.Repr == old(m.Repr) && optimizer.Valid()
    ensures AllConsistent(m.layers, m.States())
    ensures s.Pass? ==> whole == ApplyFrom(m.layers, m.States(), optimizer.velocities, i + 1,
                                           Applying(batchSize, optimizer.learningRate, optimizer.momentum))
    ensures s.Fail? ==> whole == Stepped(m.States(), optimizer.velocities, s)
  {
    ApplyingAt(m.layers[i], m.States()[i], optimizer.velocities, batchSize, optimizer.learningRate, optimizer.momentum);
    s := ApplyAt(m, i, optimizer, batchSize);
  }

  /** The applyGradient loop of trainOnBatch, as ApplyFrom says. */
  method ApplyGradients(m: ModelLayers, optimizer: SGD, batchSize: int) returns (s: Outcome)
    requires m.Valid() && AllConsistent(m.layers, m.States()) && optimizer.Valid() && optimizer !in m.Repr
    modifies m.Repr, optimizer
    ensures m.Valid() && m.layers == old(m.layers) && m.parts == old(m.parts) && m.Repr == old(m.Repr) && optimizer.Valid()
    ensures var a := ApplyFrom(m.layers, old(m.States()), old(optimizer.velocities), 0,
                               Applying(batchSize, optimizer.learningRate, optimizer.momentum));
      m.States() == a.states && optimizer.velocities == a.velocities && s == a.outcome
  {
    var step := Applying(batchSize, optimizer.learningRate, optimizer.momentum);
    ghost var whole := ApplyFrom(m.layers, m.States(), optimizer.velocities, 0, step);
    s := Pass;
    var i := 0;
    while i < |m.layers| && s.Pass?
      invariant 0 <= i <= |m.layers| && optimizer.Valid()
      invariant m.Valid() && m.layers == old(m.layers) && m.parts == old(m.parts) && m.Repr == old(m.Repr)
      invariant AllConsistent(m.layers, m.States())
      invariant s.Pass? ==> whole == ApplyFrom(m.layers, m.States(), optimizer.velocities, i, step)
      invariant s.Fail? ==> whole == Stepped(m.States(), optimizer.velocities, s)
      decreases |m.layers| - i
    {
      s := ApplyOne(m, i, optimizer, batchSize, whole);
      i := i + 1;
    }
  }

  // ----- trainOnBatch -----

  /** The layers' states, the optimizer's velocities, and what a training call returned or threw. */
  datatype Progress<T> = Progress(states: seq<LayerState>, velocities: map<Matrix, Mat>, result: Result<T>)

  /** backward(gradient) then applyGradient(optimizer, batchSize) on every layer; the first call that throws ends it. */
  function Learned(ls: seq<Layer>, ss: seq<LayerState>, v: map<Matrix, Mat>, g: Mat, batchSize: int,
                   lr: real, momentum: real, sqrt: real -> real): (r: Stepped)
    requires |ls| == |ss|
    ensures |r.states| == |ss|
  {
    var back := BackFrom(ls, ss, v, g, |ls|, Backing(lr, momentum, sqrt));
    if back.output.Err? then Stepped(back.states, back.velocities, Fail(back.output.error))
    else ApplyFrom(ls, back.states, back.velocities, 0, Applying(batchSize, lr, momentum))
  }

  /**
   * The end of trainOnBatch, once the forward pass has returned output:
   * the batch's mean squared error against the targets t added to loss,
   * then Learned on its gradient. The first step that throws ends the call.
   */
  function Fitted(ls: seq<Layer>, ss: seq<LayerState>, v: map<Matrix, Mat>, output: Mat, t: Mat, batchSize: int, loss: real,
                  lr: real, momentum: real, sqrt: real -> real): (r: Progress<real>)
    requires |ls| == |ss| && WellFormed(output) && WellFormed(t)
    requires SameShape(output, t) ==> output.rows * output.cols > 0
    ensures |r.states| == |ss|
    ensures r.result.Ok? ==> r.result.value >= loss
  {
    var batchLoss := Loss(output, t);
    if batchLoss.Err? then Progress(ss, v, Err(batchLoss.error))
    else
      var learned := Learned(ls, ss, v, Gradient(output, t).value, batchSize, lr, momentum, sqrt);
      Progress(learned.states, learned.velocities,
               if learned.outcome.Fail? then Err(learned.outcome.error) else Ok(loss + batchLoss.value))
  }

  /**
   * The middle of trainOnBatch: one forward pass over the samples x, then
   * Fitted on its output. A target matrix with rows has columns.
   */
  function ColumnsTrained(ls: seq<Layer>, ss: seq<LayerState>, v: map<Matrix, Mat>, x: Mat, t: Mat, batchSize: int, loss: real,
                          lr: real, momentum: real, sqrt: real -> real): (r: Progress<real>)
    requires |ls| == |ss| && WellFormed(x) && x.rows > 0 && WellFormed(t) && (t.rows > 0 ==> t.cols > 0)
    ensures |r.states| == |ss|
    ensures r.result.Ok? ==> r.result.value >= loss
  {
    ForwardingShapes(sqrt);
    PassShapes(ls, ss, x, Forwarding(sqrt));
    var swept := Evaluation.Pass(ls, ss, x, Forwarding(sqrt));
    if swept.output.Err? then Progress(swept.states, v, Err(swept.output.error))
    else
      var output := swept.output.value;
      assert SameShape(output, t) ==> output.rows * output.cols > 0 by {
        if SameShape(output, t) {
          MulAtLeast(output.cols, output.rows);
        }
      }
      Fitted(ls, swept.states, v, output, t, batchSize, loss, lr, momentum, sqrt)
  }

  /**
   * trainOnBatch(xBatch, yBatch, loss) on values: every layer's gradients
   * reset; the samples and the targets as the columns of two matrices;
   * then ColumnsTrained with the number of samples as the batch size.
   * Rows of unequal length throw once the gradients are reset.
   */
  function BatchTrained(ls: seq<Layer>, ss: seq<LayerState>, v: map<Matrix, Mat>, xBatch: Rows, yBatch: Rows, loss: real,
                        lr: real, momentum: real, sqrt: real -> real): (r: Progress<real>)
    requires |ls| == |ss| && |xBatch| > 0 && |xBatch[0]| > 0
    ensures |r.states| == |ss|
    ensures r.result.Ok? ==> r.result.value >= loss
  {
    var reset := ResetStates(ss);
    var inputs := FromRows(xBatch);
    if inputs.Err? then Progress(reset, v, Err(inputs.error))
    else
      var targets := FromRows(yBatch);
      if targets.Err? then Progress(reset, v, Err(targets.error))
      else ColumnsTrained(ls, reset, v, Transposed(inputs.value), Transposed(targets.value), |xBatch|, loss, lr, momentum, sqrt)
  }

  /** backward then applyGradient leave every layer in a state it can be in. */
  lemma LearnedKeepsConsistent(ls: seq<Layer>, ss: seq<LayerState>, v: map<Matrix, Mat>, g: Mat, batchSize: int,
                               lr: real, momentum: real, sqrt: real -> real)
    requires AllConsistent(ls, ss)
    ensures AllConsistent(ls, Learned(ls, ss, v, g, batchSize, lr, momentum, sqrt).states)
  {
    hide ForwardLayer, BackwardLayer, ApplyLayer, BackFrom, ApplyFrom;
    var back := BackFrom(ls, ss, v, g, |ls|, Backing(lr, momentum, sqrt));
    BackwardKeeps(ls, ss, v, g, lr, momentum, sqrt);
    ApplyKeeps(ls, back.states, back.velocities, batchSize, lr, momentum);
  }

  /** The end of a batch leaves every layer in a state it can be in. */
  lemma FittedKeepsConsistent(ls: seq<Layer>, ss: seq<LayerState>, v: map<Matrix, Mat>, output: Mat, t: Mat, batchSize: int,
                              loss: real, lr: real, momentum: real, sqrt: real -> real)
    requires AllConsistent(ls, ss) && WellFormed(output) && WellFormed(t)
    requires SameShape(output, t) ==> output.rows * output.cols > 0
    ensures AllConsistent(ls, Fitted(ls, ss, v, output, t, batchSize, loss, lr, momentum, sqrt).states)
  {
    hide ForwardLayer, BackwardLayer, ApplyLayer, Loss, Gradient, Learned;
    if SameShape(output, t) {
      LearnedKeepsConsistent(ls, ss, v, Gradient(output, t).value, batchSize, lr, momentum, sqrt);
    }
  }

  /** Training on a batch leaves every layer in a state it can be in. */
  lemma BatchKeepsConsistent(ls: seq<Layer>, ss: seq<LayerState>, v: map<Matrix, Mat>, xBatch: Rows, yBatch: Rows, loss: real,
                             lr: real, momentum: real, sqrt: real -> real)
    requires AllConsistent(ls, ss) && |xBatch| > 0 && |xBatch[0]| > 0
    ensures AllConsistent(ls, BatchTrained(ls, ss, v, xBatch, yBatch, loss, lr, momentum, sqrt).states)
  {
    hide ForwardLayer, BackwardLayer, ApplyLayer, Fitted;
    var reset := ResetStates(ss);
    ResetZeroes(ls, ss);
    var inputs, targets := FromRows(xBatch), FromRows(yBatch);
    if inputs.Ok? && targets.Ok? {
      var x, t := Transposed(inputs.value), Transposed(targets.value);
      ForwardingShapes(sqrt);
      PassShapes(ls, reset, x, Forwarding(sqrt));
      PassKeepsConsistent(ls, reset, x, sqrt);
      var swept := Evaluation.Pass(ls, reset, x, Forwarding(sqrt));
      if swept.output.Ok? {
        var output := swept.output.value;
        assert SameShape(output, t) ==> output.rows * output.cols > 0 by {
          if SameShape(output, t) {
            MulAtLeast(output.cols, output.rows);
          }
        }
        FittedKeepsConsistent(ls, swept.states, v, output, t, |xBatch|, loss, lr, momentum, sqrt);
      }
    }
  }

  /**
   * Gradients left over from an earlier batch do not reach this one: two
   * stacks that differ only in their accumulators train alike.
   */
  lemma BatchIgnoresStaleGradients(ls: seq<Layer>, ss: seq<LayerState>, ss': seq<LayerState>, v: map<Matrix, Mat>,
                                   xBatch: Rows, yBatch: Rows, loss: real, lr: real, momentum: real, sqrt: real -> real)
    requires |ls| == |ss| && ResetStates(ss) == ResetStates(ss') && |xBatch| > 0 && |xBatch[0]| > 0
    ensures BatchTrained(ls, ss, v, xBatch, yBatch, loss, lr, momentum, sqrt) == BatchTrained(ls, ss', v, xBatch, yBatch, loss, lr, momentum, sqrt)
  {
    hide ColumnsTrained;
  }

  /** backward then the applyGradient loop, as Learned says. */
  method Learn(m: ModelLayers, optimizer: SGD, gradient: Matrix, batchSize: int, sqrt: real -> real) returns (s: Outcome)
    requires m.Valid() && AllConsistent(m.layers, m.States()) && optimizer.Valid() && optimizer !in m.Repr && gradient.Valid()
    modifies m.Repr, optimizer
    ensures m.Valid() && m.layers == old(m.layers) && m.parts == old(m.parts) && m.Repr == old(m.Repr) && optimizer.Valid()
    ensures var l := Learned(m.layers, old(m.States()), old(optimizer.velocities), old(gradient.Value()), batchSize,
                             optimizer.learningRate, optimizer.momentum, sqrt);
      m.States() == l.states && optimizer.velocities == l.velocities && s == l.outcome
  {
    hide ForwardLayer, BackwardLayer, ApplyLayer, BackFrom, ApplyFrom;
    BackwardKeeps(m.layers, m.States(), optimizer.velocities, gradient.Value(), optimizer.learningRate, optimizer.momentum, sqrt);
    s := Backward(m, gradient, optimizer, sqrt);
    if s.Pass? {
      s := ApplyGradients(m, optimizer, batchSize);
    }
  }

  /** The end of trainOnBatch, as Fitted says. */
  method Fit(m: ModelLayers, optimizer: SGD, output: Matrix, target: Matrix, batchSize: int, loss: real, sqrt: real -> real)
    returns (r: Result<real>)
    requires m.Valid() && AllConsistent(m.layers, m.States()) && optimizer.Valid() && optimizer !in m.Repr
    requires output.Valid() && target.Valid()
    requires SameShape(output.Value(), target.Value()) ==> output.rows * output.cols > 0
    modifies m.Repr, optimizer
    ensures m.Valid() && m.layers == old(m.layers) && m.parts == old(m.parts) && m.Repr == old(m.Repr) && optimizer.Valid()
    ensures var p := Fitted(m.layers, old(m.States()), old(optimizer.velocities), old(output.Value()), old(target.Value()),
                            batchSize, loss, optimizer.learningRate, optimizer.momentum, sqrt);
      m.States() == p.states && optimizer.velocities == p.velocities && r == p.result
  {
    hide ForwardLayer, BackwardLayer, ApplyLayer, Loss, Gradient, Learned;
    var batchLoss := Loss(output.Value(), target.Value());
    if batchLoss.Err? {
      return Err(batchLoss.error);
    }
    var gradBatch := new Matrix.FromValue(Gradient(output.Value(), target.Value()).value);
    var s := Learn(m, optimizer, gradBatch, batchSize, sqrt);
    r := if s.Fail? then Err(s.error) else Ok(loss + batchLoss.value);
  }

  /** The middle of trainOnBatch, as ColumnsTrained says. */
  method TrainOnColumns(m: ModelLayers, optimizer: SGD, inputBatch: Matrix, targetBatch: Matrix, batchSize: int, loss: real,
                        sqrt: real -> real) returns (r: Result<real>)
    requires m.Valid() && AllConsistent(m.layers, m.States()) && optimizer.Valid() && optimizer !in m.Repr
    requires inputBatch.Valid() && inputBatch.rows > 0 && targetBatch.Valid() && (targetBatch.rows > 0 ==> targetBatch.cols > 0)
    requires targetBatch !in m.Repr
    modifies m.Repr, optimizer
    ensures m.Valid() && m.layers == old(m.layers) && m.parts == old(m.parts) && m.Repr == old(m.Repr) && optimizer.Valid()
    ensures var p := ColumnsTrained(m.layers, old(m.States()), old(optimizer.velocities), old(inputBatch.Value()),
                                    old(targetBatch.Value()), batchSize, loss, optimizer.learningRate, optimizer.momentum, sqrt);
      m.States() == p.states && optimizer.velocities == p.velocities && r == p.result
  {
    hide ForwardLayer, BackwardLayer, ApplyLayer, Fitted;
    ForwardingShapes(sqrt);
    PassShapes(m.layers, m.States(), inputBatch.Value(), Forwarding(sqrt));
    PassKeepsConsistent(m.layers, m.States(), inputBatch.Value(), sqrt);
    var outputBatch := Forward(m, inputBatch, sqrt);
    if outputBatch.Err? {
      return Err(outputBatch.error);
    }
    var output := outputBatch.value;
    assert SameShape(output.Value(), targetBatch.Value()) ==> output.rows * output.cols > 0 by {
      if SameShape(output.Value(), targetBatch.Value()) {
        MulAtLeast(output.cols, output.rows);
      }
    }
    r := Fit(m, optimizer, output, targetBatch, batchSize, loss, sqrt);
  }

  /** trainOnBatch, as BatchTrained says. */
  method TrainOnBatch(m: ModelLayers, optimizer: SGD, xBatch: Rows, yBatch: Rows, loss: real, sqrt: real -> real)
    returns (r: Result<real>)
    requires m.Valid() && AllConsistent(m.layers, m.States()) && optimizer.Valid() && optimizer !in m.Repr
    requires |xBatch| > 0 && |xBatch[0]| > 0
    modifies m.Repr, optimizer
    ensures m.Valid() && m.layers == old(m.layers) && m.parts == old(m.parts) && m.Repr == old(m.Repr) && optimizer.Valid()
    ensures var p := BatchTrained(m.layers, old(m.States()), old(optimizer.velocities), xBatch, yBatch, loss,
                                  optimizer.learningRate, optimizer.momentum, sqrt);
      m.States() == p.states && optimizer.velocities == p.velocities && r == p.result
  {
    hide ForwardLayer, BackwardLayer, ApplyLayer, ColumnsTrained, FromRows, Transposed;
    ResetZeroes(m.layers, m.States());
    ResetGradients(m);
    var inputs := FromRows(xBatch);
    if inputs.Err? {
      return Err(inputs.error);
    }
    var targets := FromRows(yBatch);
    if targets.Err? {
      return Err(targets.error);
    }
    var inputRows := new Matrix.FromValue(inputs.value);
    var inputBatch := inputRows.Transpose();
    var targetRows := new Matrix.FromValue(targets.value);
    var targetBatch := targetRows.Transpose();
    r := TrainOnColumns(m, optimizer, inputBatch, targetBatch, |xBatch|, loss, sqrt);
  }

  // ----- The batches of an epoch -----

  /** std::min(n, i + batchSize): where the batch that starts at i ends. */
  function BatchEnd(n: int, i: int, batchSize: int): int {
    if n < i + batchSize then n else i + batchSize
  }

  /**
   * The ranges [start, end) of train's batch loop from i on: i up to
   * BatchEnd, then the ranges from i + batchSize, while i is below n.
   */
  function BatchBounds(n: int, batchSize: int, i: int): seq<(int, int)>
    requires batchSize > 0
    decreases n - i
  {
    if i >= n then [] else [(i, BatchEnd(n, i, batchSize))] + BatchBounds(n, batchSize, i + batchSize)
  }

  /** Every range lies inside the first n rows and holds at least one row. */
  predicate Within(bounds: seq<(int, int)>, n: int) {
    forall k :: 0 <= k < |bounds| ==> 0 <= bounds[k].0 < bounds[k].1 <= n
  }

  /** a / b is q exactly when q is the largest multiple count of b not above a. */
  lemma DivIs(a: int, b: int, q: int)
    requires b > 0 && b * q <= a < b * q + b
    ensures a / b == q
  {
    var d := a / b;
    assert a == b * d + a % b && 0 <= a % b < b;
    if d < q {
      assert (q - d) * b == b * q - b * d;
      MulAtLeast(q - d, b);
    } else if d > q {
      assert (d - q) * b == b * d - b * q;
      MulAtLeast(d - q, b);
    }
  }

  /**
   * Each range from i on starts at or after i, ends no later than n, and
   * holds between one and batchSize rows.
   */
  lemma {:induction false} BatchBoundsWithin(n: int, batchSize: int, i: int)
    requires batchSize > 0 && 0 <= i
    ensures var r := BatchBounds(n, batchSize, i);
      Within(r, n) && forall k :: 0 <= k < |r| ==> i <= r[k].0 && r[k].1 - r[k].0 <= batchSize
    decreases n - i
  {
    if i < n {
      BatchBoundsWithin(n, batchSize, i + batchSize);
    }
  }

  /**
   * The k-th range from 0 <= i <= n starts at i + k * batchSize and ends
   * at BatchEnd; there are ceil((n - i) / batchSize) of them.
   */
  lemma {:induction false} BatchBoundsAt(n: int, batchSize: int, i: int)
    requires batchSize > 0 && 0 <= i <= n
    ensures var r := BatchBounds(n, batchSize, i);
      |r| == (n - i + batchSize - 1) / batchSize &&
      forall k :: 0 <= k < |r| ==> r[k] == (i + k * batchSize, BatchEnd(n, i + k * batchSize, batchSize))
    decreases n - i
  {
    var r := BatchBounds(n, batchSize, i);
    if i == n {
      DivIs(batchSize - 1, batchSize, 0);
    } else if n < i + batchSize {
      DivIs(n - i + batchSize - 1, batchSize, 1);
    } else {
      var rest := BatchBounds(n, batchSize, i + batchSize);
      BatchBoundsAt(n, batchSize, i + batchSize);
      var q := |rest|;
      assert q == (n - i - 1) / batchSize;
      assert batchSize * q <= n - i - 1 < batchSize * q + batchSize;
      DivIs(n - i + batchSize - 1, batchSize, q + 1);
      forall k | 1 <= k < |r|
        ensures r[k] == (i + k * batchSize, BatchEnd(n, i + k * batchSize, batchSize))
      {
        assert r[k] == rest[k - 1];
        assert i + batchSize + (k - 1) * batchSize == i + k * batchSize;
      }
    }
  }

  /** The rows of the ranges, in order. */
  function Joined(xs: Rows, bounds: seq<(int, int)>): Rows
    requires Within(bounds, |xs|)
  {
    if bounds == [] then [] else xs[bounds[0].0..bounds[0].1] + Joined(xs, bounds[1..])
  }

  /** The batches of an epoch from i on hold every row from i on once, in order. */
  lemma {:induction false} BatchesCover(xs: Rows, batchSize: int, i: int)
    requires batchSize > 0 && 0 <= i <= |xs|
    ensures Within(BatchBounds(|xs|, batchSize, i), |xs|)
    ensures Joined(xs, BatchBounds(|xs|, batchSize, i)) == xs[i..]
    decreases |xs| - i
  {
    BatchBoundsWithin(|xs|, batchSize, i);
    if i < |xs| {
      var end := BatchEnd(|xs|, i, batchSize);
      if end < |xs| {
        BatchesCover(xs, batchSize, i + batchSize);
      } else {
        assert BatchBounds(|xs|, batchSize, i + batchSize) == [];
      }
      assert xs[i..end] + xs[end..] == xs[i..];
    }
  }

  // ----- One epoch -----

  /** Every row has at least one value. */
  predicate NonEmptyRows(xs: Rows) {
    forall j :: 0 <= j < |xs| ==> |xs[j]| > 0
  }

  /**
   * One epoch's batch loop on values: for each range [start, end) the
   * training rows and the targets in it through BatchTrained, the loss
   * carried from batch to batch. Both batches are cut with the exclusive
   * end that slice documents, where the code's slice would reject the last
   * batch (end == size). With that end the rows' slice always succeeds;
   * the targets' throws out_of_range when there are too few of them. The
   * first batch that throws ends the epoch.
   */
  function EpochOver(ls: seq<Layer>, ss: seq<LayerState>, v: map<Matrix, Mat>, xs: Rows, ys: Rows, bounds: seq<(int, int)>,
                     loss: real, lr: real, momentum: real, sqrt: real -> real): (r: Progress<real>)
    requires |ls| == |ss| && Within(bounds, |xs|) && NonEmptyRows(xs)
    ensures |r.states| == |ss|
    ensures r.result.Ok? ==> r.result.value >= loss
    decreases |bounds|
  {
    if bounds == [] then Progress(ss, v, Ok(loss))
    else
      var start, end := bounds[0].0, bounds[0].1;
      var yBatch := SliceExclusive(ys, start, end);
      if yBatch.Err? then Progress(ss, v, Err(yBatch.error))
      else
        var p := BatchTrained(ls, ss, v, xs[start..end], yBatch.value, loss, lr, momentum, sqrt);
        if p.result.Err? then p
        else EpochOver(ls, p.states, p.velocities, xs, ys, bounds[1..], p.result.value, lr, momentum, sqrt)
  }

  /** An epoch leaves every layer in a state it can be in. */
  lemma {:induction false} EpochKeepsConsistent(ls: seq<Layer>, ss: seq<LayerState>, v: map<Matrix, Mat>, xs: Rows, ys: Rows,
                                                bounds: seq<(int, int)>, loss: real, lr: real, momentum: real, sqrt: real -> real)
    requires AllConsistent(ls, ss) && Within(bounds, |xs|) && NonEmptyRows(xs)
    ensures AllConsistent(ls, EpochOver(ls, ss, v, xs, ys, bounds, loss, lr, momentum, sqrt).states)
    decreases |bounds|
  {
    hide BatchTrained;
    if bounds != [] {
      var start, end := bounds[0].0, bounds[0].1;
      var yBatch := SliceExclusive(ys, start, end);
      if yBatch.Ok? {
        var p := BatchTrained(ls, ss, v, xs[start..end], yBatch.value, loss, lr, momentum, sqrt);
        BatchKeepsConsistent(ls, ss, v, xs[start..end], yBatch.value, loss, lr, momentum, sqrt);
        if p.result.Ok? {
          EpochKeepsConsistent(ls, p.states, p.velocities, xs, ys, bounds[1..], p.result.value, lr, momentum, sqrt);
        }
      }
    }
  }

  /** An epoch with no batches left returns the loss it was given and changes nothing. */
  lemma EpochOverEnds(ls: seq<Layer>, ss: seq<LayerState>, v: map<Matrix, Mat>, xs: Rows, ys: Rows, loss: real,
                      lr: real, momentum: real, sqrt: real -> real)
    requires |ls| == |ss| && NonEmptyRows(xs)
    ensures EpochOver(ls, ss, v, xs, ys, [], loss, lr, momentum, sqrt) == Progress(ss, v, Ok(loss))
  {
  }

  /** One turn of the batch loop: the batch that starts at i, as the first step of EpochOver from i. */
  method EpochBatch(m: ModelLayers, optimizer: SGD, xs: Rows, ys: Rows, i: int, batchSize: int, loss: real,
                    ghost whole: Progress<real>, sqrt: real -> real) returns (r: Result<real>, next: int)
    requires m.Valid() && AllConsistent(m.layers, m.States()) && optimizer.Valid() && optimizer !in m.Repr
    requires batchSize > 0 && 0 <= i < |xs| && NonEmptyRows(xs)
    requires Within(BatchBounds(|xs|, batchSize, i), |xs|)
    requires whole == EpochOver(m.layers, m.States(), optimizer.velocities, xs, ys, BatchBounds(|xs|, batchSize, i), loss,
                                optimizer.learningRate, optimizer.momentum, sqrt)
    modifies m.Repr, optimizer
    ensures m.Valid() && m.layers == old(m.layers) && m.parts == old(m.parts) && m.Repr == old(m.Repr) && optimizer.Valid()
    ensures AllConsistent(m.layers, m.States())
    ensures next == i + batchSize
    ensures r.Ok? ==> Within(BatchBounds(|xs|, batchSize, next), |xs|)
    ensures r.Ok? ==> whole == EpochOver(m.layers, m.States(), optimizer.velocities, xs, ys, BatchBounds(|xs|, batchSize, next),
                                         r.value, optimizer.learningRate, optimizer.momentum, sqrt)
    ensures r.Err? ==> whole == Progress(m.States(), optimizer.velocities, r)
  {
    hide ForwardLayer, BackwardLayer, ApplyLayer, BatchTrained;
    next := i + batchSize;
    var end := BatchEnd(|xs|, i, batchSize);
    ghost var bounds := BatchBounds(|xs|, batchSize, i);
    assert bounds[0] == (i, end) && bounds[1..] == BatchBounds(|xs|, batchSize, next);
    var xBatch := SliceExclusive(xs, i, end).value;
    var yBatch := SliceExclusive(ys, i, end);
    if yBatch.Err? {
      r := Err(yBatch.error);
      return;
    }
    BatchKeepsConsistent(m.layers, m.States(), optimizer.velocities, xBatch, yBatch.value, loss,
                         optimizer.learningRate, optimizer.momentum, sqrt);
    r := TrainOnBatch(m, optimizer, xBatch, yBatch.value, loss, sqrt);
  }

  /**
   * One epoch of train: the batch loop from loss 0.0 over the ranges
   * i = 0, batchSize, 2 * batchSize, ..., as EpochOver says.
   */
  method RunEpoch(m: ModelLayers, optimizer: SGD, xs: Rows, ys: Rows, batchSize: int, sqrt: real -> real) returns (r: Result<real>)
    requires m.Valid() && AllConsistent(m.layers, m.States()) && optimizer.Valid() && optimizer !in m.Repr
    requires batchSize > 0 && NonEmptyRows(xs)
    modifies m.Repr, optimizer
    ensures m.Valid() && m.layers == old(m.layers) && m.parts == old(m.parts) && m.Repr == old(m.Repr) && optimizer.Valid()
    ensures AllConsistent(m.layers, m.States())
    ensures Within(BatchBounds(|xs|, batchSize, 0), |xs|)
    ensures var e := EpochOver(m.layers, old(m.States()), old(optimizer.velocities), xs, ys, BatchBounds(|xs|, batchSize, 0), 0.0,
                               optimizer.learningRate, optimizer.momentum, sqrt);
      m.States() == e.states && optimizer.velocities == e.velocities && r == e.result
  {
    hide ForwardLayer, BackwardLayer, ApplyLayer, BatchTrained, EpochOver;
    BatchBoundsWithin(|xs|, batchSize, 0);
    ghost var whole := EpochOver(m.layers, m.States(), optimizer.velocities, xs, ys, BatchBounds(|xs|, batchSize, 0), 0.0,
                                 optimizer.learningRate, optimizer.momentum, sqrt);
    r := Ok(0.0);
    var i := 0;
    while i < |xs| && r.Ok?
      invariant 0 <= i && optimizer.Valid()
      invariant m.Valid() && m.layers == old(m.layers) && m.parts == old(m.parts) && m.Repr == old(m.Repr)
      invariant AllConsistent(m.layers, m.States())
      invariant r.Ok? ==> Within(BatchBounds(|xs|, batchSize, i), |xs|)
      invariant r.Ok? ==> whole == EpochOver(m.layers, m.States(), optimizer.velocities, xs, ys, BatchBounds(|xs|, batchSize, i),
                                             r.value, optimizer.learningRate, optimizer.momentum, sqrt)
      invariant r.Err? ==> whole == Progress(m.States(), optimizer.velocities, r)
      decreases |xs| - i
    {
      r, i := EpochBatch(m, optimizer, xs, ys, i, batchSize, r.value, whole, sqrt);
    }
    if r.Ok? {
      assert BatchBounds(|xs|, batchSize, i) == [];
      EpochOverEnds(m.layers, m.States(), optimizer.velocities, xs, ys, r.value, optimizer.learningRate, optimizer.momentum, sqrt);
    }
  }

  // ----- The validation split -----

  /** A C++ conversion of a double to int: the fraction is dropped, toward zero. */
  function Trunc(x: real): (n: int)
    ensures 0.0 <= x ==> n as real <= x < n as real + 1.0
    ensures x < 0.0 ==> n as real - 1.0 < x <= n as real
  {
    if x >= 0.0 then x.Floor else -((-x).Floor)
  }

  /** numValidation: the number of rows times validationSplit, converted to int. */
  function ValidationCount(n: nat, validationSplit: real): int {
    Trunc(n as real * validationSplit)
  }

  /** A split between 0 and 1 takes between none and all of the rows. */
  lemma ValidationCountBounds(n: nat, validationSplit: real)
    requires 0.0 <= validationSplit <= 1.0
    ensures 0 <= ValidationCount(n, validationSplit) <= n
  {
    assert 0.0 <= n as real * validationSplit <= n as real by {
      assert n as real * validationSplit <= n as real * 1.0;
    }
  }

  /** The validation rows and targets, then the training rows and targets. */
  datatype Split = Split(xVal: Rows, yVal: Rows, xTrain: Rows, yTrain: Rows)

  /**
   * The split exactly as train writes it: slice(x, 0, k), slice(y, 0, k),
   * slice(x, k, |x|) and slice(y, k, |y|) with Utils' slice, the first
   * that throws ending it.
   */
  function SplitAsWritten(x: Rows, y: Rows, validationSplit: real): Result<Split> {
    var k := ValidationCount(|x|, validationSplit);
    match Slice(x, 0, k)
    case Err(e) => Err(e)
    case Ok(xVal) =>
      match Slice(y, 0, k)
      case Err(e) => Err(e)
      case Ok(yVal) =>
        match Slice(x, k, |x|)
        case Err(e) => Err(e)
        case Ok(xTrain) =>
          match Slice(y, k, |y|)
          case Err(e) => Err(e)
          case Ok(yTrain) => Ok(Split(xVal, yVal, xTrain, yTrain))
  }

  /** As written, the split throws out_of_range whatever the data: the training slice ends at |x|. */
  lemma SplitAsWrittenThrows(x: Rows, y: Rows, validationSplit: real)
    ensures SplitAsWritten(x, y, validationSplit) == Err(OutOfRange)
  {
    SliceNeverReachesEnd(x, ValidationCount(|x|, validationSplit));
  }

  /**
   * The split train evidently means: the same four slices with the end
   * exclusive, so the training rows run to the last row.
   */
  function SplitData(x: Rows, y: Rows, validationSplit: real): (r: Result<Split>)
    ensures var k := ValidationCount(|x|, validationSplit);
      (r.Ok? <==> 0 <= k <= |x| && k <= |y|) && (r.Err? ==> r.error == OutOfRange)
  {
    var k := ValidationCount(|x|, validationSplit);
    match SliceExclusive(x, 0, k)
    case Err(e) => Err(e)
    case Ok(xVal) =>
      match SliceExclusive(y, 0, k)
      case Err(e) => Err(e)
      case Ok(yVal) =>
        match SliceExclusive(x, k, |x|)
        case Err(e) => Err(e)
        case Ok(xTrain) =>
          match SliceExclusive(y, k, |y|)
          case Err(e) => Err(e)
          case Ok(yTrain) => Ok(Split(xVal, yVal, xTrain, yTrain))
  }

  /**
   * The split partitions the data: the first k rows and targets validate,
   * the rest train, and together they are the data in its order.
   */
  lemma SplitPartitions(x: Rows, y: Rows, validationSplit: real)
    requires SplitData(x, y, validationSplit).Ok?
    ensures var s, k := SplitData(x, y, validationSplit).value, ValidationCount(|x|, validationSplit);
      |s.xVal| == |s.yVal| == k && s.xVal + s.xTrain == x && s.yVal + s.yTrain == y
  {
    var k := ValidationCount(|x|, validationSplit);
    SliceExclusiveSplit(x, 0, k, |x|);
    SliceExclusiveSplit(y, 0, k, |y|);
    assert x[0..|x|] == x && y[0..|y|] == y;
  }

  /** A split between 0 and 1 of data with at least as many targets as rows never throws. */
  lemma SplitSucceeds(x: Rows, y: Rows, validationSplit: real)
    requires 0.0 <= validationSplit <= 1.0 && |x| <= |y|
    ensures SplitData(x, y, validationSplit).Ok?
  {
    ValidationCountBounds(|x|, validationSplit);
  }

  /** Both parts of a split of rows with values have rows with values. */
  lemma SplitKeepsRows(x: Rows, y: Rows, validationSplit: real)
    requires NonEmptyRows(x) && SplitData(x, y, validationSplit).Ok?
    ensures NonEmptyRows(SplitData(x, y, validationSplit).value.xVal)
    ensures NonEmptyRows(SplitData(x, y, validationSplit).value.xTrain)
  {
    var sp := SplitData(x, y, validationSplit).value;
    SplitPartitions(x, y, validationSplit);
    forall j | 0 <= j < |sp.xTrain|
      ensures |sp.xTrain[j]| > 0
    {
      assert sp.xTrain[j] == x[|sp.xVal| + j];
    }
  }

  // ----- Early stopping -----

  function Pow2(k: nat): nat {
    if k == 0 then 1 else 2 * Pow2(k - 1)
  }

  /** std::numeric_limits<double>::max(): (2^53 - 1) * 2^971, the first bestLoss. */
  const MaxDouble: real := ((Pow2(53) - 1) * Pow2(971)) as real

  /** bestLoss and waitCounter. */
  datatype Watch = Watch(best: real, wait: int)

  /** loss /= xTrainSplit.size(): the mean loss, or NaN (None) for 0.0 / 0 when no rows train. */
  function Average(total: real, n: nat): Option<real> {
    if n == 0 then None else Some(total / n as real)
  }

  /** loss < bestLoss - minDelta; a NaN loss compares false. */
  predicate Improves(w: Watch, loss: Option<real>, minDelta: real) {
    loss.Some? && loss.value < w.best - minDelta
  }

  /** The early-stopping check's update: a new best resets the counter, any other epoch counts one more. */
  function Watched(w: Watch, loss: Option<real>, minDelta: real): Watch {
    if Improves(w, loss, minDelta) then Watch(loss.value, 0) else Watch(w.best, w.wait + 1)
  }

  /** The check returns false from train when an epoch does not improve and the counter reaches patience. */
  predicate StopsEarly(w: Watch, loss: Option<real>, minDelta: real, patience: int) {
    !Improves(w, loss, minDelta) && Watched(w, loss, minDelta).wait >= patience
  }

  /**
   * With a non-negative minDelta the best loss never rises, and an epoch
   * that improves lowers it by more than minDelta.
   */
  lemma BestNeverRises(w: Watch, loss: Option<real>, minDelta: real)
    requires minDelta >= 0.0
    ensures Watched(w, loss, minDelta).best <= w.best
    ensures Improves(w, loss, minDelta) ==> Watched(w, loss, minDelta).best < w.best - minDelta
  {
  }

  /**
   * The epoch loop of train on values from epoch on, with the check's
   * state w: one epoch over the training rows from loss 0.0, its mean
   * loss, evaluate on the validation rows, then the check. It returns
   * true once epochs epochs have run, false when the check stops it, and
   * the error of the first call that throws.
   */
  function EpochsFrom(ls: seq<Layer>, ss: seq<LayerState>, v: map<Matrix, Mat>, sp: Split, epoch: int, epochs: int, w: Watch,
                      batchSize: int, minDelta: real, patience: int, metrics: seq<Metric>, lr: real, momentum: real,
                      sqrt: real -> real): (r: Progress<bool>)
    requires |ls| == |ss| && batchSize > 0 && NonEmptyRows(sp.xTrain) && NonEmptyRows(sp.xVal)
    ensures |r.states| == |ss|
    decreases epochs - epoch
  {
    if epoch >= epochs then Progress(ss, v, Ok(true))
    else
      BatchBoundsWithin(|sp.xTrain|, batchSize, 0);
      var e := EpochOver(ls, ss, v, sp.xTrain, sp.yTrain, BatchBounds(|sp.xTrain|, batchSize, 0), 0.0, lr, momentum, sqrt);
      if e.result.Err? then Progress(e.states, e.velocities, Err(e.result.error))
      else
        var loss := Average(e.result.value, |sp.xTrain|);
        var scored := EvaluatedAll(ls, e.states, sp.xVal, sp.yVal, metrics, sqrt);
        if scored.result.Err? then Progress(scored.states, e.velocities, Err(scored.result.error))
        else if StopsEarly(w, loss, minDelta, patience) then Progress(scored.states, e.velocities, Ok(false))
        else EpochsFrom(ls, scored.states, e.velocities, sp, epoch + 1, epochs, Watched(w, loss, minDelta), batchSize, minDelta,
                        patience, metrics, lr, momentum, sqrt)
  }

  /** When the epochs have all run, the loop returns true and changes nothing. */
  lemma EpochsFromEnds(ls: seq<Layer>, ss: seq<LayerState>, v: map<Matrix, Mat>, sp: Split, epoch: int, epochs: int, w: Watch,
                       batchSize: int, minDelta: real, patience: int, metrics: seq<Metric>, lr: real, momentum: real,
                       sqrt: real -> real)
    requires |ls| == |ss| && batchSize > 0 && NonEmptyRows(sp.xTrain) && NonEmptyRows(sp.xVal) && epoch >= epochs
    ensures EpochsFrom(ls, ss, v, sp, epoch, epochs, w, batchSize, minDelta, patience, metrics, lr, momentum, sqrt)
      == Progress(ss, v, Ok(true))
  {
  }

  /**
   * Training stops early only after patience epochs without improvement:
   * with the counter at w.wait, a stop needs the epochs left to bring it
   * to patience.
   */
  lemma {:induction false} StopsOnlyAfterPatience(ls: seq<Layer>, ss: seq<LayerState>, v: map<Matrix, Mat>, sp: Split,
                                                  epoch: int, epochs: int, w: Watch, batchSize: int, minDelta: real,
                                                  patience: int, metrics: seq<Metric>, lr: real, momentum: real,
                                                  sqrt: real -> real)
    requires |ls| == |ss| && batchSize > 0 && NonEmptyRows(sp.xTrain) && NonEmptyRows(sp.xVal) && w.wait >= 0
    requires EpochsFrom(ls, ss, v, sp, epoch, epochs, w, batchSize, minDelta, patience, metrics, lr, momentum, sqrt).result == Ok(false)
    ensures patience <= w.wait + (epochs - epoch)
    decreases epochs - epoch
  {
    hide EpochOver, EvaluatedAll;
    BatchBoundsWithin(|sp.xTrain|, batchSize, 0);
    var e := EpochOver(ls, ss, v, sp.xTrain, sp.yTrain, BatchBounds(|sp.xTrain|, batchSize, 0), 0.0, lr, momentum, sqrt);
    var loss := Average(e.result.value, |sp.xTrain|);
    var scored := EvaluatedAll(ls, e.states, sp.xVal, sp.yVal, metrics, sqrt);
    if !StopsEarly(w, loss, minDelta, patience) {
      StopsOnlyAfterPatience(ls, scored.states, e.velocities, sp, epoch + 1, epochs, Watched(w, loss, minDelta), batchSize,
                             minDelta, patience, metrics, lr, momentum, sqrt);
    }
  }

  /**
   * train(xTrain, yTrain, epochs, batchSize, validationSplit, patience,
   * minDelta) on values: shuffleDataset's check that data and labels have
   * as many rows (runtime_error otherwise), the split with the exclusive
   * end, then the epoch loop from bestLoss MaxDouble and waitCounter 0.
   */
  function Trained(ls: seq<Layer>, ss: seq<LayerState>, v: map<Matrix, Mat>, xTrain: Rows, yTrain: Rows, epochs: int,
                   batchSize: int, validationSplit: real, patience: int, minDelta: real, metrics: seq<Metric>,
                   lr: real, momentum: real, sqrt: real -> real): (r: Progress<bool>)
    requires |ls| == |ss| && batchSize > 0 && NonEmptyRows(xTrain)
    ensures |r.states| == |ss|
    ensures |xTrain| != |yTrain| ==> r == Progress(ss, v, Err(RuntimeError))
  {
    if |xTrain| != |yTrain| then Progress(ss, v, Err(RuntimeError))
    else
      var sp := SplitData(xTrain, yTrain, validationSplit);
      if sp.Err? then Progress(ss, v, Err(sp.error))
      else
        SplitKeepsRows(xTrain, yTrain, validationSplit);
        EpochsFrom(ls, ss, v, sp.value, 0, epochs, Watch(MaxDouble, 0), batchSize, minDelta, patience, metrics, lr, momentum, sqrt)
  }

  /** train returns false only when the run had at least patience epochs. */
  lemma TrainedStopsOnlyAfterPatience(ls: seq<Layer>, ss: seq<LayerState>, v: map<Matrix, Mat>, xTrain: Rows, yTrain: Rows,
                                      epochs: int, batchSize: int, validationSplit: real, patience: int, minDelta: real,
                                      metrics: seq<Metric>, lr: real, momentum: real, sqrt: real -> real)
    requires |ls| == |ss| && batchSize > 0 && NonEmptyRows(xTrain)
    requires Trained(ls, ss, v, xTrain, yTrain, epochs, batchSize, validationSplit, patience, minDelta, metrics, lr, momentum, sqrt).result == Ok(false)
    ensures patience <= epochs
  {
    hide EpochsFrom;
    SplitKeepsRows(xTrain, yTrain, validationSplit);
    StopsOnlyAfterPatience(ls, ss, v, SplitData(xTrain, yTrain, validationSplit).value, 0, epochs, Watch(MaxDouble, 0), batchSize,
                           minDelta, patience, metrics, lr, momentum, sqrt);
  }

  /** One turn of train's epoch loop, as the first step of EpochsFrom. */
  method TrainEpoch(m: ModelLayers, optimizer: SGD, sp: Split, epoch: int, epochs: int, bestLoss: real, waitCounter: int,
                    batchSize: int, minDelta: real, patience: int, metrics: seq<Metric>, ghost whole: Progress<bool>,
                    sqrt: real -> real) returns (newBest: real, newWait: int, stopped: Option<Result<bool>>)
    requires m.Valid() && AllConsistent(m.layers, m.States()) && optimizer.Valid() && optimizer !in m.Repr
    requires batchSize > 0 && NonEmptyRows(sp.xTrain) && NonEmptyRows(sp.xVal) && epoch < epochs
    requires whole == EpochsFrom(m.layers, m.States(), optimizer.velocities, sp, epoch, epochs, Watch(bestLoss, waitCounter),
                                 batchSize, minDelta, patience, metrics, optimizer.learningRate, optimizer.momentum, sqrt)
    modifies m.Repr, optimizer
    ensures m.Valid() && m.layers == old(m.layers) && m.parts == old(m.parts) && m.Repr == old(m.Repr) && optimizer.Valid()
    ensures AllConsistent(m.layers, m.States())
    ensures stopped.None? ==>
      whole == EpochsFrom(m.layers, m.States(), optimizer.velocities, sp, epoch + 1, epochs, Watch(newBest, newWait),
                          batchSize, minDelta, patience, metrics, optimizer.learningRate, optimizer.momentum, sqrt)
    ensures stopped.Some? ==> whole == Progress(m.States(), optimizer.velocities, stopped.value)
  {
    hide ForwardLayer, BackwardLayer, ApplyLayer, BatchTrained, EpochOver, EvaluatedAll;
    var total := RunEpoch(m, optimizer, sp.xTrain, sp.yTrain, batchSize, sqrt);
    if total.Err? {
      return bestLoss, waitCounter, Some(Err(total.error));
    }
    var loss := Average(total.value, |sp.xTrain|);
    EvaluatedConsistent(m.layers, m.States(), sp.xVal, sp.yVal, metrics, sqrt);
    var computedMetrics := EvaluateAll(m, sp.xVal, sp.yVal, metrics, sqrt);
    if computedMetrics.Err? {
      return bestLoss, waitCounter, Some(Err(computedMetrics.error));
    }
    if loss.Some? && loss.value < bestLoss - minDelta {
      newBest, newWait := loss.value, 0;
    } else {
      newBest, newWait := bestLoss, waitCounter + 1;
      if newWait >= patience {
        return newBest, newWait, Some(Ok(false));
      }
    }
    stopped := None;
  }

  /** ModelTrainer::train, as Trained says. */
  method Train(m: ModelLayers, optimizer: SGD, xTrain: Rows, yTrain: Rows, epochs: int, batchSize: int, validationSplit: real,
               patience: int, minDelta: real, metrics: seq<Metric>, sqrt: real -> real) returns (r: Result<bool>)
    requires m.Valid() && AllConsistent(m.layers, m.States()) && optimizer.Valid() && optimizer !in m.Repr
    requires batchSize > 0 && NonEmptyRows(xTrain)
    modifies m.Repr, optimizer
    ensures m.Valid() && m.layers == old(m.layers) && m.parts == old(m.parts) && m.Repr == old(m.Repr) && optimizer.Valid()
    ensures var t := Trained(m.layers, old(m.States()), old(optimizer.velocities), xTrain, yTrain, epochs, batchSize,
                             validationSplit, patience, minDelta, metrics, optimizer.learningRate, optimizer.momentum, sqrt);
      m.States() == t.states && optimizer.velocities == t.velocities && r == t.result
  {
    hide ForwardLayer, BackwardLayer, ApplyLayer, BatchTrained, EpochOver, EvaluatedAll, EpochsFrom;
    var bestLoss := MaxDouble;
    var waitCounter := 0;
    if |xTrain| != |yTrain| {
      return Err(RuntimeError);
    }
    var split := SplitData(xTrain, yTrain, validationSplit);
    if split.Err? {
      return Err(split.error);
    }
    SplitKeepsRows(xTrain, yTrain, validationSplit);
    var sp := split.value;
    ghost var whole := EpochsFrom(m.layers, m.States(), optimizer.velocities, sp, 0, epochs, Watch(bestLoss, waitCounter),
                                  batchSize, minDelta, patience, metrics, optimizer.learningRate, optimizer.momentum, sqrt);
    var epoch := 0;
    var stopped: Option<Result<bool>> := None;
    while epoch < epochs && stopped.None?
      invariant m.Valid() && m.layers == old(m.layers) && m.parts == old(m.parts) && m.Repr == old(m.Repr) && optimizer.Valid()
      invariant AllConsistent(m.layers, m.States())
      invariant stopped.None? ==>
        whole == EpochsFrom(m.layers, m.States(), optimizer.velocities, sp, epoch, epochs, Watch(bestLoss, waitCounter),
                            batchSize, minDelta, patience, metrics, optimizer.learningRate, optimizer.momentum, sqrt)
      invariant stopped.Some? ==> whole == Progress(m.States(), optimizer.velocities, stopped.value)
      decreases epochs - epoch
    {
      bestLoss, waitCounter, stopped := TrainEpoch(m, optimizer, sp, epoch, epochs, bestLoss, waitCounter, batchSize, minDelta,
                                                   patience, metrics, whole, sqrt);
      epoch := epoch + 1;
    }
    if stopped.None? {
      EpochsFromEnds(m.layers, m.States(), optimizer.velocities, sp, epoch, epochs, Watch(bestLoss, waitCounter), batchSize,
                     minDelta, patience, metrics, optimizer.learningRate, optimizer.momentum, sqrt);
      r := Ok(true);
    } else {
      r := stopped.value;
    }
  }
}
