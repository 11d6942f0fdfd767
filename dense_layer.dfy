/**
 * The fully connected layer (Layers/DenseLayer/DenseLayer.cpp): weights of
 * shape inputSize x outputSize, a 1 x outputSize bias row, an optional
 * activation, and the input of the last forward pass kept for backward.
 * Backward has the optimizer update the parameters first and then returns
 * the input gradient computed with the updated weights.
 */
module Dense {
  import opened Wrappers
  import opened Matrices
  import opened Activations
  import opened Optimizers

  /** e_activation, in declaration order: RELU = 0, SIGMOID = 1, SOFTMAX = 2, NONE = 3. */
  datatype ActivationId = RELU | SIGMOID | SOFTMAX | NONE

  /** e_initializer; the initializer only decides how weights are drawn, which the model leaves open. */
  datatype Initializer = HE_NORMAL | HE_UNIFORM | XAVIER_NORMAL | XAVIER_UNIFORM

  /** The activation an enum value names, or none for a value outside the enum. */
  function ActivationOfTag(tag: int): (r: Option<ActivationId>)
    ensures r.Some? <==> 0 <= tag <= 3
  {
    if tag == 0 then Some(RELU)
    else if tag == 1 then Some(SIGMOID)
    else if tag == 2 then Some(SOFTMAX)
    else if tag == 3 then Some(NONE)
    else None
  }

  // ----- What forward and backward compute, on values -----

  /**
   * forward on input x: x * w + b, then the activation. The product throws
   * invalid_argument unless x has w.rows columns, the sum unless the
   * product has b's shape.
   */
  function DenseForward(act: ActivationId, x: Mat, w: Mat, b: Mat): (r: Result<Mat>)
    requires WellFormed(x) && WellFormed(w) && WellFormed(b)
    requires act == RELU || act == NONE
    ensures r.Err? <==> x.cols != w.rows || x.rows != b.rows || w.cols != b.cols
    ensures r.Err? ==> r.error == InvalidArgument
    ensures r.Ok? ==> WellFormed(r.value) && SameShape(r.value, b)
  {
    if x.cols != w.rows then Err(InvalidArgument)
    else
      var z := Product(x, w);
      if !SameShape(z, b) then Err(InvalidArgument)
      else if act == RELU then Ok(Mapped(ZipWith(z, b, Add), Relu))
      else Ok(ZipWith(z, b, Add))
  }

  /**
   * On a layer built by the constructor (w is n x m, b is 1 x m), forward
   * succeeds exactly on a 1 x n row, and a ReLU layer's output is never
   * negative.
   */
  lemma ForwardOnLayer(act: ActivationId, x: Mat, w: Mat, b: Mat)
    requires WellFormed(x) && WellFormed(w) && WellFormed(b) && (act == RELU || act == NONE)
    requires b.rows == 1 && b.cols == w.cols
    ensures DenseForward(act, x, w, b).Ok? <==> x.rows == 1 && x.cols == w.rows
    ensures DenseForward(act, x, w, b).Ok? ==> DenseForward(act, x, w, b).value.rows == 1 && DenseForward(act, x, w, b).value.cols == w.cols
    ensures DenseForward(act, x, w, b).Ok? && act == RELU ==> forall k :: 0 <= k < |DenseForward(act, x, w, b).value.data| ==> DenseForward(act, x, w, b).value.data[k] >= 0.0
  {
    if DenseForward(act, x, w, b).Ok? && act == RELU {
      ReluOutput(ZipWith(Product(x, w), b, Add));
    }
  }

  /**
   * The column vectors the library's layer tests feed in (2 x 1 into a
   * 2-input layer, 3 x 1 into a 3-input layer) are rejected.
   */
  lemma ForwardRejectsColumn(act: ActivationId, x: Mat, w: Mat, b: Mat)
    requires WellFormed(x) && WellFormed(w) && WellFormed(b) && (act == RELU || act == NONE)
    requires b.rows == 1 && b.cols == w.cols
    requires x.cols == 1 && x.rows == w.rows && w.rows > 1
    ensures DenseForward(act, x, w, b) == Err(InvalidArgument)
  {
  }

  /** gradWeights = input^T * gradInput. */
  function WeightGradient(x: Mat, ga: Mat): (r: Mat)
    requires WellFormed(x) && WellFormed(ga) && x.rows == ga.rows
    ensures WellFormed(r) && r.rows == x.cols && r.cols == ga.cols
  {
    Product(Transposed(x), ga)
  }

  /** For a single sample, entry (i, j) of the weight gradient is input i times gradient j. */
  lemma WeightGradientOfRow(x: Mat, ga: Mat, i: nat, j: nat)
    requires WellFormed(x) && WellFormed(ga) && x.rows == 1 && ga.rows == 1
    requires i < x.cols && j < ga.cols
    ensures At(WeightGradient(x, ga), i, j) == At(x, 0, i) * At(ga, 0, j)
  {
    var xt := Transposed(x);
    calc {
      At(WeightGradient(x, ga), i, j);
      { ProductAt(xt, ga, i, j); }
      Dot(xt, ga, i, j, 1);
      Dot(xt, ga, i, j, 0) + At(xt, i, 0) * At(ga, 0, j);
      { TransposedAt(x, 0, i); }
      At(x, 0, i) * At(ga, 0, j);
    }
  }

  /** What backward leaves behind: its result and the optimizer step it took. */
  datatype BackwardResult<K> = BackwardResult(result: Result<Mat>, step: StepResult<K>)

  /**
   * backward, given the activation's gradient ga (or the error it threw):
   * the weight gradient x^T * ga, one SGD step on (w, b) with gradients
   * (x^T * ga, ga), and then ga * w'^T with the updated weights w'. An error
   * before the step leaves the parameters and velocities as they were.
   */
  function DenseBackward<K>(ga: Result<Mat>, x: Mat, velocities: map<K, Mat>, kw: K, kb: K, w: Mat, b: Mat, lr: real, momentum: real): (r: BackwardResult<K>)
    requires ga.Ok? ==> WellFormed(ga.value)
    requires WellFormed(x) && WellFormed(w) && WellFormed(b) && AllWellFormed(velocities) && kw != kb
    ensures AllWellFormed(r.step.velocities) && WellFormed(r.step.weights) && WellFormed(r.step.biases)
    ensures SameShape(r.step.weights, w) && SameShape(r.step.biases, b)
    ensures r.result.Ok? ==> WellFormed(r.result.value)
  {
    var untouched := StepResult(Fail(InvalidArgument), velocities, w, b);
    if ga.Err? then BackwardResult(Err(ga.error), untouched)
    else if x.rows != ga.value.rows then BackwardResult(Err(InvalidArgument), untouched)
    else
      var st := Step(velocities, kw, kb, w, b, WeightGradient(x, ga.value), ga.value, lr, momentum);
      if st.outcome.Fail? then BackwardResult(Err(st.outcome.error), st)
      else if ga.value.cols != st.weights.cols then BackwardResult(Err(InvalidArgument), st)
      else BackwardResult(Ok(Product(ga.value, Transposed(st.weights))), st)
  }

  /**
   * On a layer built by the constructor, after a successful forward on a
   * 1 x n row x, backward with a 1 x m gradient succeeds: the parameters
   * take one SGD step and the result is the 1 x n row ga * w'^T, where w'
   * are the weights after that step.
   */
  lemma BackwardOnLayer<K>(ga: Mat, x: Mat, velocities: map<K, Mat>, kw: K, kb: K, w: Mat, b: Mat, lr: real, momentum: real)
    requires WellFormed(ga) && WellFormed(x) && WellFormed(w) && WellFormed(b) && AllWellFormed(velocities) && kw != kb
    requires b.rows == 1 && b.cols == w.cols && x.rows == 1 && x.cols == w.rows && ga.rows == 1 && ga.cols == w.cols
    requires Fits(velocities, kw, w) && Fits(velocities, kb, b)
    ensures var r := DenseBackward(Ok(ga), x, velocities, kw, kb, w, b, lr, momentum);
      var st := Step(velocities, kw, kb, w, b, WeightGradient(x, ga), ga, lr, momentum);
      r.step == st && st.outcome == Pass &&
      r.result == Ok(Product(ga, Transposed(st.weights))) &&
      r.result.value.rows == 1 && r.result.value.cols == w.rows
  {
    StepOutcome(velocities, kw, kb, w, b, WeightGradient(x, ga), ga, lr, momentum);
  }

  /** backward never reports success with parameters it has not stepped. */
  lemma BackwardOkAfterStep<K>(ga: Result<Mat>, x: Mat, velocities: map<K, Mat>, kw: K, kb: K, w: Mat, b: Mat, lr: real, momentum: real)
    requires ga.Ok? ==> WellFormed(ga.value)
    requires WellFormed(x) && WellFormed(w) && WellFormed(b) && AllWellFormed(velocities) && kw != kb
    ensures var r := DenseBackward(ga, x, velocities, kw, kb, w, b, lr, momentum);
      r.result.Ok? ==>
        ga.Ok? && r.step.outcome == Pass && r.result.value.rows == ga.value.rows && r.result.value.cols == w.rows
  {
  }

  // ----- The layer object -----

  class DenseLayer {
    /** m_weights, m_biases and m_input; operator= copies into them, so they keep their identity. */
    const weights: Matrix
    const biases: Matrix
    const input: Matrix
    /** m_activationID. */
    var activationId: ActivationId
    /** m_activation when it is a ReLU; SIGMOID and SOFTMAX objects are not modelled. */
    var relu: ReLU?

    /** The objects the activation owns. */
    function ActivationObjects(): set<object>
      reads this
    {
      if relu == null then {} else {relu, relu.output}
    }

    ghost predicate Valid()
      reads this, weights, biases, input, ActivationObjects()
    {
      weights.Valid() && biases.Valid() && input.Valid() &&
      weights != biases && input != weights && input != biases &&
      biases.rows == 1 && biases.cols == weights.cols &&
      (relu != null <==> activationId == RELU) &&
      (relu != null ==> relu.Valid() && relu.output != weights && relu.output != biases && relu.output != input)
    }

    /**
     * The part of DenseLayer(inputSize, outputSize, initializer, activation)
     * after the size check: initWeights, with no activation yet.
     */
    constructor (inputSize: nat, outputSize: nat, initializer: Initializer)
      requires inputSize > 0 && outputSize > 0
      ensures Valid() && fresh(weights) && fresh(biases) && fresh(input)
      ensures weights.rows == inputSize && weights.cols == outputSize
      ensures biases.Value() == Fill(1, outputSize, 0.0) && input.Value() == Mat(0, 0, [])
      ensures activationId == NONE && relu == null
    {
      weights := new Matrix.Empty();
      biases := new Matrix.Empty();
      input := new Matrix.Empty();
      activationId := NONE;
      relu := null;
      new;
      InitWeights(inputSize, outputSize, initializer);
    }

    /**
     * initWeights: inputSize x outputSize weights drawn from the initializer
     * (only their shape is modelled) and a 1 x outputSize row of zero biases.
     */
    method InitWeights(inputSize: nat, outputSize: nat, initializer: Initializer)
      requires weights.Valid() && biases.Valid() && weights != biases
      modifies weights, biases
      ensures weights.Valid() && weights.rows == inputSize && weights.cols == outputSize
      ensures biases.Valid() && biases.Value() == Fill(1, outputSize, 0.0)
    {
      var drawn := new Matrix.Generated(inputSize, outputSize);
      weights.Assign(drawn);
      var zeros := new Matrix.Filled(1, outputSize, 0.0);
      biases.Assign(zeros);
    }

    /**
     * initActivationFunction: an enum value sets the activation and its id;
     * any other value throws runtime_error and changes nothing.
     */
    method InitActivationFunction(tag: int) returns (s: Outcome)
      requires Valid()
      modifies this
      ensures Valid()
      ensures s.Pass? <==> ActivationOfTag(tag).Some?
      ensures s.Fail? ==> s.error == RuntimeError && activationId == old(activationId) && relu == old(relu)
      ensures s.Pass? ==> activationId == ActivationOfTag(tag).value
      ensures s.Pass? && activationId == RELU ==> fresh(relu) && fresh(relu.output) && relu.output.Value() == Mat(0, 0, [])
    {
      if tag == 0 {
        activationId := RELU;
        relu := new ReLU();
      } else if tag == 1 {
        activationId, relu := SIGMOID, null;
      } else if tag == 2 {
        activationId, relu := SOFTMAX, null;
      } else if tag == 3 {
        activationId, relu := NONE, null;
      } else {
        return Fail(RuntimeError);
      }
      return Pass;
    }

    /**
     * forward: keeps a copy of the input, then returns the activation of
     * input * weights + biases; a ReLU activation also keeps that output.
     */
    method Forward(x: Matrix) returns (r: Result<Matrix>)
      requires Valid() && x.Valid() && (activationId == RELU || activationId == NONE)
      modifies input, ActivationObjects()
      ensures Valid()
      ensures input.Value() == old(x.Value())
      ensures var expected := DenseForward(activationId, old(x.Value()), weights.Value(), biases.Value());
        (r.Err? <==> expected.Err?) && (r.Err? ==> r.error == expected.error) &&
        (r.Ok? ==> fresh(r.value) && r.value.Valid() && r.value.Value() == expected.value)
      ensures relu != null && r.Ok? ==> relu.output.Value() == r.value.Value()
      ensures relu != null && r.Err? ==> relu.output.Value() == old(relu.output.Value())
    {
      ghost var x0 := x.Value();
      input.Assign(x);
      var product := Times(input, weights);
      if product.Err? {
        return Err(product.error);
      }
      var sum := Plus(product.value, biases);
      if sum.Err? {
        return Err(sum.error);
      }
      if relu != null {
        var activated := relu.Forward(sum.value);
        return Ok(activated);
      }
      return sum;
    }

    /** The gradient with respect to the activation's input, or the error its backward throws. */
    function ActivationGradient(g: Mat): (r: Result<Mat>)
      requires Valid() && WellFormed(g)
      reads this, weights, biases, input, ActivationObjects()
      ensures r.Ok? ==> WellFormed(r.value)
    {
      if relu == null then Ok(g)
      else if !SameShape(g, relu.output.Value()) then Err(InvalidArgument)
      else Ok(Masked(g, relu.output.Value()))
    }

    /**
     * The first step of backward: the gradient through the activation, or
     * a copy of the gradient when there is none.
     */
    method ActivationBackward(gradient: Matrix) returns (r: Result<Matrix>)
      requires Valid() && gradient.Valid() && (activationId == RELU || activationId == NONE)
      ensures r.Err? <==> ActivationGradient(gradient.Value()).Err?
      ensures r.Err? ==> r.error == ActivationGradient(gradient.Value()).error
      ensures r.Ok? ==> fresh(r.value) && r.value.Valid() && r.value.Value() == ActivationGradient(gradient.Value()).value
    {
      if relu != null {
        r := relu.Backward(gradient);
      } else {
        var copy := new Matrix.Copy(gradient);
        r := Ok(copy);
      }
    }

    /**
     * backward(gradient, optimizer): the activation's gradient, the weight
     * gradient input^T * gradInput, optimizer.update(weights, biases,
     * gradWeights, gradInput), and then gradInput * weights^T with the
     * updated weights.
     */
    method Backward(gradient: Matrix, optimizer: SGD) returns (r: Result<Matrix>)
      requires Valid() && gradient.Valid() && optimizer.Valid() && (activationId == RELU || activationId == NONE)
      modifies weights, biases, optimizer
      ensures Valid() && optimizer.Valid()
      ensures var expected := DenseBackward(old(ActivationGradient(gradient.Value())), old(input.Value()),
          old(optimizer.velocities), weights, biases, old(weights.Value()), old(biases.Value()),
          optimizer.learningRate, optimizer.momentum);
        (r.Err? <==> expected.result.Err?) && (r.Err? ==> r.error == expected.result.error) &&
        (r.Ok? ==> fresh(r.value) && r.value.Valid() && r.value.Value() == expected.result.value) &&
        optimizer.velocities == expected.step.velocities &&
        weights.Value() == expected.step.weights && biases.Value() == expected.step.biases
    {
      var activated := ActivationBackward(gradient);
      if activated.Err? {
        return Err(activated.error);
      }
      r := Propagate(activated.value, optimizer);
    }

    /**
     * The rest of backward, from the activation's gradient gradInput: the
     * weight gradient, the optimizer step, and the input gradient with the
     * updated weights.
     */
    method Propagate(gradInput: Matrix, optimizer: SGD) returns (r: Result<Matrix>)
      requires Valid() && gradInput.Valid() && optimizer.Valid()
      requires gradInput != weights && gradInput != biases
      modifies weights, biases, optimizer
      ensures Valid() && optimizer.Valid()
      ensures var expected := DenseBackward(Ok(gradInput.Value()), input.Value(),
          old(optimizer.velocities), weights, biases, old(weights.Value()), old(biases.Value()),
          optimizer.learningRate, optimizer.momentum);
        (r.Err? <==> expected.result.Err?) && (r.Err? ==> r.error == expected.result.error) &&
        (r.Ok? ==> fresh(r.value) && r.value.Valid() && r.value.Value() == expected.result.value) &&
        optimizer.velocities == expected.step.velocities &&
        weights.Value() == expected.step.weights && biases.Value() == expected.step.biases
    {
      var inputT := input.Transpose();
      var gradWeights := Times(inputT, gradInput);
      if gradWeights.Err? {
        return Err(gradWeights.error);
      }
      var s := optimizer.Update(weights, biases, gradWeights.value, gradInput);
      if s.Fail? {
        return Err(s.error);
      }
      var weightsT := weights.Transpose();
      r := Times(gradInput, weightsT);
    }
  }

  /**
   * DenseLayer(inputSize, outputSize, initializer, activation): throws
   * invalid_argument unless both sizes are positive, then runtime_error if
   * the activation value is outside the enum.
   */
  method Create(inputSize: int, outputSize: int, initializer: Initializer, tag: int) returns (r: Result<DenseLayer>)
    ensures r.Err? <==> inputSize <= 0 || outputSize <= 0 || ActivationOfTag(tag).None?
    ensures r.Err? ==> r.error == if inputSize <= 0 || outputSize <= 0 then InvalidArgument else RuntimeError
    ensures r.Ok? ==> fresh(r.value) && r.value.Valid() && r.value.activationId == ActivationOfTag(tag).value
    ensures r.Ok? ==> r.value.weights.rows == inputSize && r.value.weights.cols == outputSize
    ensures r.Ok? ==> r.value.biases.Value() == Fill(1, outputSize, 0.0)
  {
    if inputSize <= 0 || outputSize <= 0 {
      return Err(InvalidArgument);
    }
    var layer := new DenseLayer(inputSize, outputSize, initializer);
    var s := layer.InitActivationFunction(tag);
    if s.Fail? {
      return Err(s.error);
    }
    return Ok(layer);
  }
}
