/**
 * The layer stack of a model (ModelParts/ModelLayers/ModelLayers.cpp) and
 * the calls the evaluator and the trainer make on each layer through the
 * Layer interface. A layer is a DenseLayer or a BatchNormalization; each
 * owns its matrices, and the stack owns its layers (std::unique_ptr), so
 * the footprints of different layers never share an object.
 */
module LayerStack {
  import opened Wrappers
  import opened Matrices
  import opened Activations
  import opened Optimizers
  import opened Dense
  import opened Normalization

  /** e_layerType, in declaration order: DENSE = 0, BATCH_NORM = 1. */
  datatype LayerType = DENSE | BATCH_NORM

  /** The layer type an enum value names, or none for a value outside the enum. */
  function LayerTypeOfTag(tag: int): (r: Option<LayerType>)
    ensures r.Some? <==> 0 <= tag <= 1
  {
    if tag == 0 then Some(DENSE)
    else if tag == 1 then Some(BATCH_NORM)
    else None
  }

  /** A std::unique_ptr<Layer>, by the concrete class it points to. */
  datatype Layer = FullyConnected(dense: DenseLayer) | BatchNorm(norm: BatchNormalization)

  /** getType(). */
  function TypeOf(l: Layer): LayerType {
    if l.FullyConnected? then DENSE else BATCH_NORM
  }

  /** The layer object itself. */
  function Owner(l: Layer): object {
    match l
    case FullyConnected(d) => d
    case BatchNorm(n) => n
  }

  /** Every object the layer owns, itself included. */
  function Footprint(l: Layer): set<object>
    reads Owner(l)
  {
    match l
    case FullyConnected(d) => {d, d.weights, d.biases, d.input} + d.ActivationObjects()
    case BatchNorm(n) => {n, n.gamma, n.beta, n.normalized, n.gradGamma, n.gradBeta}
  }

  ghost predicate LayerValid(l: Layer)
    reads Owner(l), Footprint(l)
  {
    match l
    case FullyConnected(d) => d.Valid()
    case BatchNorm(n) => n.Valid()
  }

  /**
   * Everything of a layer that its operations read or change, as a value:
   * for a dense layer the activation, the parameters, the kept input and
   * the kept ReLU output; for a batch normalization the mode, the running
   * estimates, the parameters, the kept normalized input and the gradient
   * accumulators.
   */
  datatype LayerState =
    | DenseState(activation: ActivationId, weights: Mat, biases: Mat, input: Mat, activated: Mat)
    | NormState(training: bool, runningMean: real, runningVar: real, gamma: Mat, beta: Mat,
                normalized: Mat, gradGamma: Mat, gradBeta: Mat)

  function State(l: Layer): LayerState
    reads Owner(l), Footprint(l)
  {
    match l
    case FullyConnected(d) =>
      DenseState(d.activationId, d.weights.Value(), d.biases.Value(), d.input.Value(),
                 if d.relu == null then Mat(0, 0, []) else d.relu.output.Value())
    case BatchNorm(n) =>
      NormState(n.isTraining, n.runningMean, n.runningVar, n.gamma.Value(), n.beta.Value(),
                n.normalized.Value(), n.gradGamma.Value(), n.gradBeta.Value())
  }

  /**
   * s is a state a valid layer l can be in: well-formed matrices, biases a
   * 1 x outputSize row, accumulators of their parameters' shapes, and the
   * parameter matrices two distinct objects (the optimizer's keys).
   */
  predicate Consistent(l: Layer, s: LayerState) {
    match l
    case FullyConnected(d) =>
      s.DenseState? && d.weights != d.biases &&
      WellFormed(s.weights) && WellFormed(s.biases) && WellFormed(s.input) && WellFormed(s.activated) &&
      s.biases.rows == 1 && s.biases.cols == s.weights.cols
    case BatchNorm(n) =>
      s.NormState? && n.gamma != n.beta &&
      WellFormed(s.gamma) && WellFormed(s.beta) && WellFormed(s.normalized) &&
      WellFormed(s.gradGamma) && WellFormed(s.gradBeta) &&
      SameShape(s.gamma, s.beta) && SameShape(s.gradGamma, s.gamma) && SameShape(s.gradBeta, s.beta)
  }

  /**
   * The states the model covers: a dense layer's activation is ReLU or
   * none (sigmoid and softmax need exp), and a batch normalization has at
   * least one feature (a batch of no rows has no mean).
   */
  predicate Supported(s: LayerState) {
    match s
    case DenseState(act, _, _, _, _) => act == RELU || act == NONE
    case NormState(_, _, _, gamma, _, _, _, _) => gamma.rows > 0
  }

  lemma StateConsistent(l: Layer)
    requires LayerValid(l)
    ensures Consistent(l, State(l))
  {
  }

  // ----- The effect of each call on one layer, on values -----

  /** A layer's state after a call and the matrix the call returned or the error it threw. */
  datatype Effect = Effect(state: LayerState, output: Result<Mat>)

  /**
   * layer->forward(x). A dense layer keeps x, returns act(x * w + b) and,
   * with a ReLU, keeps that output; a batch normalization does what
   * ForwardStep says. Nothing else in the state changes.
   */
  function ForwardLayer(l: Layer, s: LayerState, x: Mat, sqrt: real -> real): (r: Effect)
    requires Consistent(l, s) && Supported(s) && WellFormed(x) && x.rows > 0
    ensures Consistent(l, r.state) && Supported(r.state)
    ensures r.output.Ok? ==> WellFormed(r.output.value) && r.output.value.rows > 0
  {
    match s
    case DenseState(act, w, b, _, activated) =>
      var out := DenseForward(act, x, w, b);
      Effect(DenseState(act, w, b, x, if act == RELU && out.Ok? then out.value else activated), out)
    case NormState(training, rm, rv, gamma, beta, normalized, gg, gb) =>
      var e := ForwardStep(training, rm, rv, l.norm.epsilon, l.norm.momentum, gamma, beta, normalized, x, sqrt);
      Effect(NormState(training, e.runningMean, e.runningVar, gamma, beta, e.normalized, gg, gb), e.output)
  }

  /** The gradient a dense layer's activation passes back, from its kept output. */
  function ActivationGradientOf(s: LayerState, g: Mat): (r: Result<Mat>)
    requires s.DenseState? && WellFormed(g) && WellFormed(s.activated)
    ensures r.Ok? ==> WellFormed(r.value) && SameShape(r.value, g)
  {
    if s.activation != RELU then Ok(g)
    else if !SameShape(g, s.activated) then Err(InvalidArgument)
    else Ok(Masked(g, s.activated))
  }

  /** A layer's state, the optimizer's velocities and the result after a backward call. */
  datatype BackwardOutcome = BackwardOutcome(state: LayerState, velocities: map<Matrix, Mat>, output: Result<Mat>)

  /**
   * layer->backward(g). A dense layer does what DenseBackward says with the
   * trainer's optimizer, keyed by its weight and bias matrices; a batch
   * normalization accumulates as BackwardStep says and leaves the
   * velocities alone.
   */
  function BackwardLayer(l: Layer, s: LayerState, g: Mat, velocities: map<Matrix, Mat>, lr: real, momentum: real,
                         sqrt: real -> real): (r: BackwardOutcome)
    requires Consistent(l, s) && Supported(s) && WellFormed(g) && AllWellFormed(velocities)
    ensures Consistent(l, r.state) && Supported(r.state) && AllWellFormed(r.velocities)
    ensures r.output.Ok? ==> WellFormed(r.output.value)
  {
    match s
    case DenseState(act, w, b, input, activated) =>
      var e := DenseBackward(ActivationGradientOf(s, g), input, velocities, l.dense.weights, l.dense.biases,
                             w, b, lr, momentum);
      BackwardOutcome(DenseState(act, e.step.weights, e.step.biases, input, activated), e.step.velocities, e.result)
    case NormState(training, rm, rv, gamma, beta, normalized, gg, gb) =>
      var e := BackwardStep(g, normalized, gamma, gg, gb, rv, l.norm.epsilon, sqrt);
      BackwardOutcome(NormState(training, rm, rv, gamma, beta, normalized, e.gradGamma, e.gradBeta), velocities, e.output)
  }

  /**
   * layer->resetGradients(): a batch normalization zeroes its accumulators;
   * a dense layer, which steps its parameters inside backward, keeps none.
   */
  function ResetLayer(s: LayerState): (r: LayerState)
  {
    match s
    case DenseState(_, _, _, _, _) => s
    case NormState(training, rm, rv, gamma, beta, normalized, _, _) =>
      NormState(training, rm, rv, gamma, beta, normalized, Fill(gamma.rows, gamma.cols, 0.0), Fill(beta.rows, beta.cols, 0.0))
  }

  /** A layer's state and the optimizer's velocities after applyGradient, and whether it threw. */
  datatype ApplyOutcome = ApplyOutcome(state: LayerState, velocities: map<Matrix, Mat>, outcome: Outcome)

  /**
   * layer->applyGradient(optimizer, batchSize): a batch normalization does
   * what ApplyStep says, keyed by its gamma and beta matrices; a dense
   * layer has nothing left to apply.
   */
  function ApplyLayer(l: Layer, s: LayerState, velocities: map<Matrix, Mat>, batchSize: int, lr: real, momentum: real): (r: ApplyOutcome)
    requires Consistent(l, s) && Supported(s) && AllWellFormed(velocities)
    ensures Consistent(l, r.state) && Supported(r.state) && AllWellFormed(r.velocities)
  {
    match s
    case DenseState(_, _, _, _, _) => ApplyOutcome(s, velocities, Pass)
    case NormState(training, rm, rv, gamma, beta, normalized, gg, gb) =>
      var e := Normalization.ApplyStep(velocities, l.norm.gamma, l.norm.beta, gamma, beta, gg, gb, batchSize, lr, momentum);
      ApplyOutcome(NormState(training, rm, rv, e.step.weights, e.step.biases, normalized, e.gradGamma, e.gradBeta),
                  e.step.velocities, e.step.outcome)
  }

  /** setTrainingMode(b) on a batch normalization; other layers are not touched. */
  function WithMode(s: LayerState, training: bool): LayerState {
    if s.NormState? then s.(training := training) else s
  }

  // ----- What the calls promise about a layer's state -----

  /**
   * forward changes no parameter and no accumulator; in inference mode a
   * batch normalization keeps its running estimates too.
   */
  lemma ForwardKeepsParameters(l: Layer, s: LayerState, x: Mat, sqrt: real -> real)
    requires Consistent(l, s) && Supported(s) && WellFormed(x) && x.rows > 0
    ensures var r := ForwardLayer(l, s, x, sqrt).state;
      (s.DenseState? ==> r.activation == s.activation && r.weights == s.weights && r.biases == s.biases && r.input == x) &&
      (s.NormState? ==> r.training == s.training && r.gamma == s.gamma && r.beta == s.beta &&
                        r.gradGamma == s.gradGamma && r.gradBeta == s.gradBeta) &&
      (s.NormState? && !s.training ==> r.runningMean == s.runningMean && r.runningVar == s.runningVar)
  {
    if s.NormState? {
      ForwardRunningStats(s.training, s.runningMean, s.runningVar, l.norm.epsilon, l.norm.momentum,
                          s.gamma, s.beta, s.normalized, x, sqrt);
    }
  }

  /**
   * After resetGradients a batch normalization's accumulators are zero and
   * the next backward leaves exactly g * normalized and g in them.
   */
  lemma ResetThenBackward(l: Layer, s: LayerState, g: Mat, velocities: map<Matrix, Mat>, lr: real, momentum: real,
                          sqrt: real -> real, k: nat)
    requires Consistent(l, s) && Supported(s) && s.NormState? && WellFormed(g) && AllWellFormed(velocities)
    requires SameShape(g, s.gamma) && SameShape(s.normalized, s.gamma) && k < |g.data|
    ensures var r := BackwardLayer(l, ResetLayer(s), g, velocities, lr, momentum, sqrt).state;
      r.gradGamma.data[k] == g.data[k] * s.normalized.data[k] && r.gradBeta.data[k] == g.data[k]
  {
    var z := ResetLayer(s);
    var w := ZipWith(g, s.normalized, Mul);
    assert w.data[k] == g.data[k] * s.normalized.data[k];
    assert ZipWith(z.gradGamma, w, Add).data[k] == 0.0 + w.data[k];
    assert ZipWith(z.gradBeta, g, Add).data[k] == 0.0 + g.data[k];
  }

  // ----- The stack -----

  /** The states of the layers ls, all of whose objects lie in fp. */
  function StatesOf(ls: seq<Layer>, fp: set<object>): (r: seq<LayerState>)
    requires forall i :: 0 <= i < |ls| ==> Owner(ls[i]) in fp && Footprint(ls[i]) <= fp
    reads fp
    ensures |r| == |ls| && forall i :: 0 <= i < |ls| ==> r[i] == State(ls[i])
  {
    if ls == [] then [] else StatesOf(ls[..|ls| - 1], fp) + [State(ls[|ls| - 1])]
  }

  class ModelLayers {
    /** m_layers, in the order they were added. */
    var layers: seq<Layer>
    /** The objects each layer owns, in stack order. */
    ghost var parts: seq<set<object>>
    ghost var Repr: set<object>

    ghost predicate Valid()
      reads this, Repr
    {
      this !in Repr && |parts| == |layers| &&
      (forall i :: 0 <= i < |layers| ==> parts[i] <= Repr && Owner(layers[i]) in parts[i]) &&
      (forall i :: 0 <= i < |layers| ==> Footprint(layers[i]) == parts[i] && LayerValid(layers[i])) &&
      (forall i, j :: 0 <= i < j < |layers| ==> parts[i] !! parts[j])
    }

    /** The state of every layer, in stack order. */
    ghost function States(): (r: seq<LayerState>)
      requires Valid()
      reads this, Repr
      ensures |r| == |layers| && forall i :: 0 <= i < |layers| ==> r[i] == State(layers[i])
    {
      StatesOf(layers, Repr)
    }

    /** An empty stack. */
    constructor ()
      ensures Valid() && layers == [] && Repr == {}
    {
      layers := [];
      parts := [];
      Repr := {};
    }

    /**
     * addLayer(layer): the layer goes to the end, the earlier layers keep
     * their places and their states. The stack takes ownership, so the
     * layer shares no object with the stack.
     */
    method AddLayer(l: Layer)
      requires Valid() && LayerValid(l) && Footprint(l) !! Repr + {this}
      modifies this
      ensures Valid() && layers == old(layers) + [l] && Repr == old(Repr) + Footprint(l)
      ensures States() == old(States()) + [State(l)]
    {
      layers := layers + [l];
      parts := parts + [Footprint(l)];
      Repr := Repr + Footprint(l);
    }

    /**
     * initLayer(layerType, file): DENSE appends the dense layer the file
     * describes, BATCH_NORM the batch normalization it describes, and any
     * other value throws runtime_error with the stack unchanged. The layers
     * read from the file are given.
     */
    method InitLayer(tag: int, fromFileDense: DenseLayer, fromFileNorm: BatchNormalization) returns (s: Outcome)
      requires Valid()
      requires tag == 0 ==> LayerValid(FullyConnected(fromFileDense)) && Footprint(FullyConnected(fromFileDense)) !! Repr + {this}
      requires tag == 1 ==> LayerValid(BatchNorm(fromFileNorm)) && Footprint(BatchNorm(fromFileNorm)) !! Repr + {this}
      modifies this
      ensures Valid()
      ensures s.Pass? <==> LayerTypeOfTag(tag).Some?
      ensures s.Fail? ==> s.error == RuntimeError && layers == old(layers) && Repr == old(Repr)
      ensures LayerTypeOfTag(tag) == Some(DENSE) ==> layers == old(layers) + [FullyConnected(fromFileDense)]
      ensures LayerTypeOfTag(tag) == Some(BATCH_NORM) ==> layers == old(layers) + [BatchNorm(fromFileNorm)]
    {
      var layerType := LayerTypeOfTag(tag);
      match layerType
      case Some(DENSE) =>
        AddLayer(FullyConnected(fromFileDense));
        return Pass;
      case Some(BATCH_NORM) =>
        AddLayer(BatchNorm(fromFileNorm));
        return Pass;
      case None =>
        return Fail(RuntimeError);
    }
  }

  // ----- The calls on one layer -----

  /** layer->forward(x), as ForwardLayer says. */
  method LayerForward(l: Layer, x: Matrix, sqrt: real -> real) returns (r: Result<Matrix>)
    requires LayerValid(l) && Supported(State(l)) && x.Valid() && x.rows > 0
    modifies Footprint(l)
    ensures LayerValid(l) && Footprint(l) == old(Footprint(l))
    ensures var e := ForwardLayer(l, old(State(l)), old(x.Value()), sqrt);
      State(l) == e.state && (r.Err? <==> e.output.Err?) && (r.Err? ==> r.error == e.output.error) &&
      (r.Ok? ==> fresh(r.value) && r.value.Valid() && r.value.Value() == e.output.value)
  {
    match l
    case FullyConnected(d) =>
      r := d.Forward(x);
    case BatchNorm(n) =>
      r := n.Forward(x, sqrt);
  }

  /** layer->backward(g), the dense layer stepping with the trainer's optimizer. */
  method LayerBackward(l: Layer, gradient: Matrix, optimizer: SGD, sqrt: real -> real) returns (r: Result<Matrix>)
    requires LayerValid(l) && Supported(State(l)) && gradient.Valid() && optimizer.Valid()
    modifies Footprint(l), optimizer
    ensures LayerValid(l) && Footprint(l) == old(Footprint(l)) && optimizer.Valid()
    ensures var e := BackwardLayer(l, old(State(l)), old(gradient.Value()), old(optimizer.velocities),
        optimizer.learningRate, optimizer.momentum, sqrt);
      State(l) == e.state && optimizer.velocities == e.velocities &&
      (r.Err? <==> e.output.Err?) && (r.Err? ==> r.error == e.output.error) &&
      (r.Ok? ==> fresh(r.value) && r.value.Valid() && r.value.Value() == e.output.value)
  {
    match l
    case FullyConnected(d) =>
      r := d.Backward(gradient, optimizer);
    case BatchNorm(n) =>
      r := n.Backward(gradient, sqrt);
  }

  /** layer->resetGradients(). */
  method LayerResetGradients(l: Layer)
    requires LayerValid(l)
    modifies Footprint(l)
    ensures LayerValid(l) && Footprint(l) == old(Footprint(l))
    ensures State(l) == ResetLayer(old(State(l)))
  {
    match l
    case FullyConnected(d) =>
    case BatchNorm(n) =>
      n.ResetGradients();
  }

  /** layer->applyGradient(optimizer, batchSize). */
  method LayerApplyGradient(l: Layer, optimizer: SGD, batchSize: int) returns (s: Outcome)
    requires LayerValid(l) && Supported(State(l)) && optimizer.Valid()
    modifies Footprint(l), optimizer
    ensures LayerValid(l) && Footprint(l) == old(Footprint(l)) && optimizer.Valid()
    ensures var e := ApplyLayer(l, old(State(l)), old(optimizer.velocities), batchSize, optimizer.learningRate, optimizer.momentum);
      State(l) == e.state && optimizer.velocities == e.velocities && s == e.outcome
  {
    match l
    case FullyConnected(d) =>
      s := Pass;
    case BatchNorm(n) =>
      s := n.ApplyGradient(optimizer, batchSize);
  }

  /** setTrainingMode(b) on a batch normalization layer. */
  method LayerSetMode(l: Layer, training: bool)
    requires LayerValid(l)
    modifies Footprint(l)
    ensures LayerValid(l) && Footprint(l) == old(Footprint(l))
    ensures State(l) == WithMode(old(State(l)), training)
  {
    match l
    case FullyConnected(d) =>
    case BatchNorm(n) =>
      n.SetTrainingMode(training);
  }

  // ----- The calls on the i-th layer of a stack -----

  /** m_layers[i]->forward(x): only that layer's state changes, as ForwardLayer says. */
  method ForwardAt(m: ModelLayers, i: nat, x: Matrix, sqrt: real -> real) returns (r: Result<Matrix>)
    requires m.Valid() && i < |m.layers| && Supported(m.States()[i]) && x.Valid() && x.rows > 0
    modifies m.Repr
    ensures m.Valid() && m.layers == old(m.layers) && m.parts == old(m.parts) && m.Repr == old(m.Repr)
    ensures var e := ForwardLayer(m.layers[i], old(m.States())[i], old(x.Value()), sqrt);
      m.States() == old(m.States())[i := e.state] &&
      (r.Err? <==> e.output.Err?) && (r.Err? ==> r.error == e.output.error) &&
      (r.Ok? ==> fresh(r.value) && r.value.Valid() && r.value.Value() == e.output.value)
  {
    r := LayerForward(m.layers[i], x, sqrt);
    forall j | 0 <= j < |m.layers| && j != i
      ensures Footprint(m.layers[j]) == m.parts[j]
      ensures LayerValid(m.layers[j]) && State(m.layers[j]) == old(State(m.layers[j]))
    {
      assert Owner(m.layers[j]) in m.parts[j];
    }
  }

  /** m_layers[i]->backward(g): only that layer's state and the optimizer change. */
  method BackwardAt(m: ModelLayers, i: nat, gradient: Matrix, optimizer: SGD, sqrt: real -> real) returns (r: Result<Matrix>)
    requires m.Valid() && i < |m.layers| && Supported(m.States()[i]) && gradient.Valid() && optimizer.Valid()
    requires optimizer !in m.Repr
    modifies m.Repr, optimizer
    ensures m.Valid() && m.layers == old(m.layers) && m.parts == old(m.parts) && m.Repr == old(m.Repr) && optimizer.Valid()
    ensures var e := BackwardLayer(m.layers[i], old(m.States())[i], old(gradient.Value()), old(optimizer.velocities),
        optimizer.learningRate, optimizer.momentum, sqrt);
      m.States() == old(m.States())[i := e.state] && optimizer.velocities == e.velocities &&
      (r.Err? <==> e.output.Err?) && (r.Err? ==> r.error == e.output.error) &&
      (r.Ok? ==> fresh(r.value) && r.value.Valid() && r.value.Value() == e.output.value)
  {
    r := LayerBackward(m.layers[i], gradient, optimizer, sqrt);
    forall j | 0 <= j < |m.layers| && j != i
      ensures Footprint(m.layers[j]) == m.parts[j]
      ensures LayerValid(m.layers[j]) && State(m.layers[j]) == old(State(m.layers[j]))
    {
      assert Owner(m.layers[j]) in m.parts[j];
    }
  }

  /** m_layers[i]->resetGradients(). */
  method ResetAt(m: ModelLayers, i: nat)
    requires m.Valid() && i < |m.layers|
    modifies m.Repr
    ensures m.Valid() && m.layers == old(m.layers) && m.parts == old(m.parts) && m.Repr == old(m.Repr)
    ensures m.States() == old(m.States())[i := ResetLayer(old(m.States())[i])]
  {
    LayerResetGradients(m.layers[i]);
    forall j | 0 <= j < |m.layers| && j != i
      ensures Footprint(m.layers[j]) == m.parts[j]
      ensures LayerValid(m.layers[j]) && State(m.layers[j]) == old(State(m.layers[j]))
    {
      assert Owner(m.layers[j]) in m.parts[j];
    }
  }

  /** m_layers[i]->applyGradient(optimizer, batchSize). */
  method ApplyAt(m: ModelLayers, i: nat, optimizer: SGD, batchSize: int) returns (s: Outcome)
    requires m.Valid() && i < |m.layers| && Supported(m.States()[i]) && optimizer.Valid()
    requires optimizer !in m.Repr
    modifies m.Repr, optimizer
    ensures m.Valid() && m.layers == old(m.layers) && m.parts == old(m.parts) && m.Repr == old(m.Repr) && optimizer.Valid()
    ensures var e := ApplyLayer(m.layers[i], old(m.States())[i], old(optimizer.velocities), batchSize,
        optimizer.learningRate, optimizer.momentum);
      m.States() == old(m.States())[i := e.state] && optimizer.velocities == e.velocities && s == e.outcome
  {
    s := LayerApplyGradient(m.layers[i], optimizer, batchSize);
    forall j | 0 <= j < |m.layers| && j != i
      ensures Footprint(m.layers[j]) == m.parts[j]
      ensures LayerValid(m.layers[j]) && State(m.layers[j]) == old(State(m.layers[j]))
    {
      assert Owner(m.layers[j]) in m.parts[j];
    }
  }

  /** setTrainingMode(b) on m_layers[i] when it is a batch normalization. */
  method SetModeAt(m: ModelLayers, i: nat, training: bool)
    requires m.Valid() && i < |m.layers|
    modifies m.Repr
    ensures m.Valid() && m.layers == old(m.layers) && m.parts == old(m.parts) && m.Repr == old(m.Repr)
    ensures m.States() == old(m.States())[i := WithMode(old(m.States())[i], training)]
  {
    LayerSetMode(m.layers[i], training);
    forall j | 0 <= j < |m.layers| && j != i
      ensures Footprint(m.layers[j]) == m.parts[j]
      ensures LayerValid(m.layers[j]) && State(m.layers[j]) == old(State(m.layers[j]))
    {
      assert Owner(m.layers[j]) in m.parts[j];
    }
  }
}
