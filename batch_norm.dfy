/**
 * Batch normalization (Layers/BatchNormalization/BatchNormalization.cpp): a
 * learnable scale gamma and shift beta (numFeatures x 1 each), running
 * estimates of the batch mean and variance, and gradient accumulators that
 * backward adds to and applyGradient averages before the optimizer step.
 * std::sqrt is a parameter `sqrt` of the operations that use it; nothing
 * about it is assumed beyond what a lemma states in its requires.
 */
module Normalization {
  import opened Wrappers
  import opened Matrices
  import opened Losses
  import opened Optimizers

  /** The constructor's default epsilon (1e-15) and momentum (0.9). */
  const DefaultEpsilon: real := 0.000000000000001
  const DefaultMomentum: real := 0.9

  // ----- Batch statistics -----

  /** input.sum() / input.getRows(). */
  function Mean(x: Mat): real
    requires WellFormed(x) && x.rows > 0
  {
    Sum(x.data) / x.rows as real
  }

  /** The squared deviation from the mean of every entry: input.map((x - mean)^2). */
  function Deviations(x: Mat): (d: Mat)
    requires WellFormed(x) && x.rows > 0
    ensures WellFormed(d) && SameShape(d, x)
    ensures forall k :: 0 <= k < |d.data| ==> d.data[k] == Square(x.data[k] - Mean(x)) >= 0.0
  {
    var mean := Mean(x);
    var d := Mapped(x, y => Square(y - mean));
    forall k | 0 <= k < |d.data|
      ensures d.data[k] == Square(x.data[k] - mean) >= 0.0
    {
      SquareNonNegative(x.data[k] - mean);
    }
    d
  }

  lemma SquareNonNegative(y: real)
    ensures Square(y) >= 0.0
  {
    if y != 0.0 {
      SquarePositive(y);
    }
  }

  /** The batch variance: the summed squared deviations over the row count; never negative. */
  function Variance(x: Mat): (v: real)
    requires WellFormed(x) && x.rows > 0
    ensures v >= 0.0
  {
    var d := Deviations(x);
    SumNonNegative(d.data);
    Sum(d.data) / x.rows as real
  }

  /** The exponential update of a running statistic. */
  function Running(current: real, batch: real, momentum: real): real {
    momentum * current + (1.0 - momentum) * batch
  }

  /** With 0 <= momentum <= 1 the update lies between the old estimate and the batch statistic. */
  lemma RunningBetween(current: real, batch: real, momentum: real)
    requires 0.0 <= momentum <= 1.0
    ensures current <= batch ==> current <= Running(current, batch, momentum) <= batch
    ensures batch <= current ==> batch <= Running(current, batch, momentum) <= current
  {
    var r := Running(current, batch, momentum);
    assert r == current + (1.0 - momentum) * (batch - current);
    assert r == batch + momentum * (current - batch);
    if current <= batch {
      ProductSign(1.0 - momentum, batch - current);
      ProductSign(momentum, batch - current);
    } else {
      ProductSign(1.0 - momentum, current - batch);
      ProductSign(momentum, current - batch);
    }
  }

  lemma ProductSign(a: real, b: real)
    requires a >= 0.0 && b >= 0.0
    ensures a * b >= 0.0 && a * -b <= 0.0
  {
    calc {
      a * b;
    >=
      0.0;
    }
    calc {
      a * -b;
      -(a * b);
    <=
      0.0;
    }
  }

  // ----- forward, on values -----

  /** (x - center) / scale; dividing a matrix by 0 throws runtime_error. */
  function Normalize(x: Mat, center: real, scale: real): (r: Result<Mat>)
    requires WellFormed(x)
    ensures r.Err? <==> scale == 0.0
    ensures r.Err? ==> r.error == RuntimeError
    ensures r.Ok? ==> WellFormed(r.value) && SameShape(r.value, x)
  {
    if scale == 0.0 then Err(RuntimeError)
    else Ok(WithScalar(WithScalar(x, center, Sub), scale, Div))
  }

  /** gamma.cwiseProduct(n) + beta, with the shape checks of both operators. */
  function ScaleShift(gamma: Mat, beta: Mat, n: Mat): (r: Result<Mat>)
    requires WellFormed(gamma) && WellFormed(beta) && WellFormed(n)
    ensures r.Err? <==> !SameShape(gamma, n) || !SameShape(gamma, beta)
    ensures r.Err? ==> r.error == InvalidArgument
    ensures r.Ok? ==> WellFormed(r.value) && SameShape(r.value, gamma)
  {
    if !SameShape(gamma, n) || !SameShape(gamma, beta) then Err(InvalidArgument)
    else Ok(ZipWith(ZipWith(gamma, n, Mul), beta, Add))
  }

  /** What forward leaves in the layer and what it returns. */
  datatype ForwardEffect = ForwardEffect(runningMean: real, runningVar: real, normalized: Mat, output: Result<Mat>)

  /**
   * forward: in training mode the batch mean and variance first update the
   * running estimates and then center and scale the input; in inference mode
   * the running estimates do. The normalized input is kept, and the result
   * is gamma times it plus beta. If the scale is zero the division throws
   * after the running estimates have changed and before normalized does.
   */
  function ForwardStep(training: bool, runningMean: real, runningVar: real, epsilon: real, momentum: real,
                       gamma: Mat, beta: Mat, normalized: Mat, x: Mat, sqrt: real -> real): (r: ForwardEffect)
    requires WellFormed(gamma) && WellFormed(beta) && WellFormed(normalized) && WellFormed(x)
    requires training ==> x.rows > 0
    ensures WellFormed(r.normalized)
    ensures r.output.Ok? ==> WellFormed(r.output.value) && SameShape(r.output.value, gamma)
  {
    var st := Statistics(training, runningMean, runningVar, momentum, x);
    var n := Normalize(x, st.center, sqrt(st.spread + epsilon));
    if n.Err? then ForwardEffect(st.runningMean, st.runningVar, normalized, Err(n.error))
    else ForwardEffect(st.runningMean, st.runningVar, n.value, ScaleShift(gamma, beta, n.value))
  }

  /** The running estimates after forward, and the center and spread it normalizes with. */
  datatype Stats = Stats(runningMean: real, runningVar: real, center: real, spread: real)

  function Statistics(training: bool, runningMean: real, runningVar: real, momentum: real, x: Mat): Stats
    requires WellFormed(x) && (training ==> x.rows > 0)
  {
    if training then
      Stats(Running(runningMean, Mean(x), momentum), Running(runningVar, Variance(x), momentum), Mean(x), Variance(x))
    else
      Stats(runningMean, runningVar, runningMean, runningVar)
  }

  /**
   * The running estimates move only in training mode, and there by the
   * exponential update with the batch mean and variance.
   */
  lemma ForwardRunningStats(training: bool, runningMean: real, runningVar: real, epsilon: real, momentum: real,
                            gamma: Mat, beta: Mat, normalized: Mat, x: Mat, sqrt: real -> real)
    requires WellFormed(gamma) && WellFormed(beta) && WellFormed(normalized) && WellFormed(x)
    requires training ==> x.rows > 0
    ensures var r := ForwardStep(training, runningMean, runningVar, epsilon, momentum, gamma, beta, normalized, x, sqrt);
      (!training ==> r.runningMean == runningMean && r.runningVar == runningVar) &&
      (training ==> r.runningMean == momentum * runningMean + (1.0 - momentum) * Mean(x) &&
                    r.runningVar == momentum * runningVar + (1.0 - momentum) * Variance(x))
  {
  }

  /**
   * A variance estimate that starts non-negative stays so under any number
   * of training steps with 0 <= momentum <= 1.
   */
  lemma RunningVarNonNegative(training: bool, runningMean: real, runningVar: real, epsilon: real, momentum: real,
                              gamma: Mat, beta: Mat, normalized: Mat, x: Mat, sqrt: real -> real)
    requires WellFormed(gamma) && WellFormed(beta) && WellFormed(normalized) && WellFormed(x)
    requires training ==> x.rows > 0
    requires 0.0 <= momentum <= 1.0 && runningVar >= 0.0
    ensures ForwardStep(training, runningMean, runningVar, epsilon, momentum, gamma, beta, normalized, x, sqrt).runningVar >= 0.0
  {
    if training {
      var v := Variance(x);
      RunningBetween(runningVar, v, momentum);
    }
  }

  /**
   * When sqrt is positive on positive arguments, epsilon is positive and the
   * running variance is not negative, forward fails only on shape: it
   * succeeds exactly when the input has gamma's shape (numFeatures x 1).
   */
  lemma ForwardSucceeds(training: bool, runningMean: real, runningVar: real, epsilon: real, momentum: real,
                        gamma: Mat, beta: Mat, normalized: Mat, x: Mat, sqrt: real -> real)
    requires WellFormed(gamma) && WellFormed(beta) && WellFormed(normalized) && WellFormed(x)
    requires training ==> x.rows > 0
    requires SameShape(gamma, beta) && epsilon > 0.0 && runningVar >= 0.0
    requires forall v :: v > 0.0 ==> sqrt(v) > 0.0
    ensures ForwardStep(training, runningMean, runningVar, epsilon, momentum, gamma, beta, normalized, x, sqrt).output.Ok?
      <==> SameShape(x, gamma)
  {
    var spread := if training then Variance(x) else runningVar;
    assert sqrt(spread + epsilon) > 0.0;
  }

  /**
   * Entry k of an inference-mode result: gamma[k] (x[k] - runningMean) /
   * sqrt(runningVar + epsilon) + beta[k].
   */
  lemma InferenceOutputAt(runningMean: real, runningVar: real, epsilon: real, momentum: real,
                          gamma: Mat, beta: Mat, normalized: Mat, x: Mat, sqrt: real -> real, k: nat)
    requires WellFormed(gamma) && WellFormed(beta) && WellFormed(normalized) && WellFormed(x)
    requires SameShape(x, gamma) && SameShape(gamma, beta) && k < |x.data|
    requires sqrt(runningVar + epsilon) != 0.0
    ensures var r := ForwardStep(false, runningMean, runningVar, epsilon, momentum, gamma, beta, normalized, x, sqrt);
      r.output.Ok? &&
      r.output.value.data[k] == gamma.data[k] * ((x.data[k] - runningMean) / sqrt(runningVar + epsilon)) + beta.data[k]
  {
    var s := sqrt(runningVar + epsilon);
    var centered := WithScalar(x, runningMean, Sub);
    var n := WithScalar(centered, s, Div);
    assert centered.data[k] == x.data[k] - runningMean;
    assert n.data[k] == (x.data[k] - runningMean) / s;
    assert ZipWith(gamma, n, Mul).data[k] == gamma.data[k] * n.data[k];
  }

  // ----- backward, on values -----

  /** What backward leaves in the accumulators and what it returns. */
  datatype BackwardEffect = BackwardEffect(gradGamma: Mat, gradBeta: Mat, output: Result<Mat>)

  /**
   * backward(g): gradGamma += g * normalized, then gradBeta += g, then
   * returns g * gamma / sqrt(runningVar + epsilon), entry by entry. Each
   * step throws invalid_argument on a shape mismatch, after the steps
   * before it took effect.
   */
  function BackwardStep(g: Mat, normalized: Mat, gamma: Mat, gradGamma: Mat, gradBeta: Mat,
                        runningVar: real, epsilon: real, sqrt: real -> real): (r: BackwardEffect)
    requires WellFormed(g) && WellFormed(normalized) && WellFormed(gamma) && WellFormed(gradGamma) && WellFormed(gradBeta)
    ensures WellFormed(r.gradGamma) && SameShape(r.gradGamma, gradGamma)
    ensures WellFormed(r.gradBeta) && SameShape(r.gradBeta, gradBeta)
    ensures r.output.Ok? ==> WellFormed(r.output.value) && SameShape(r.output.value, g)
  {
    if !SameShape(g, normalized) || !SameShape(gradGamma, g) then BackwardEffect(gradGamma, gradBeta, Err(InvalidArgument))
    else
      var gg := ZipWith(gradGamma, ZipWith(g, normalized, Mul), Add);
      if !SameShape(gradBeta, g) then BackwardEffect(gg, gradBeta, Err(InvalidArgument))
      else
        var gb := ZipWith(gradBeta, g, Add);
        if !SameShape(g, gamma) then BackwardEffect(gg, gb, Err(InvalidArgument))
        else
          var s := sqrt(runningVar + epsilon);
          if s == 0.0 then BackwardEffect(gg, gb, Err(RuntimeError))
          else BackwardEffect(gg, gb, Ok(WithScalar(ZipWith(g, gamma, Mul), s, Div)))
  }

  /**
   * backward accumulates: two calls with gradients g1 and g2 of the layer's
   * shape add both to the accumulators, whatever they held before.
   */
  lemma BackwardAccumulates(g1: Mat, g2: Mat, normalized: Mat, gamma: Mat, gradGamma: Mat, gradBeta: Mat,
                            runningVar: real, epsilon: real, sqrt: real -> real, k: nat)
    requires WellFormed(g1) && WellFormed(g2) && WellFormed(normalized) && WellFormed(gamma) && WellFormed(gradGamma) && WellFormed(gradBeta)
    requires SameShape(g1, gamma) && SameShape(g2, gamma) && SameShape(normalized, gamma)
    requires SameShape(gradGamma, gamma) && SameShape(gradBeta, gamma) && k < |gamma.data|
    ensures var r1 := BackwardStep(g1, normalized, gamma, gradGamma, gradBeta, runningVar, epsilon, sqrt);
      var r2 := BackwardStep(g2, normalized, gamma, r1.gradGamma, r1.gradBeta, runningVar, epsilon, sqrt);
      r2.gradBeta.data[k] == gradBeta.data[k] + g1.data[k] + g2.data[k] &&
      r2.gradGamma.data[k] == gradGamma.data[k] + g1.data[k] * normalized.data[k] + g2.data[k] * normalized.data[k]
  {
    var r1 := BackwardStep(g1, normalized, gamma, gradGamma, gradBeta, runningVar, epsilon, sqrt);
    assert r1.gradBeta.data[k] == gradBeta.data[k] + g1.data[k];
    assert ZipWith(g1, normalized, Mul).data[k] == g1.data[k] * normalized.data[k];
    assert r1.gradGamma.data[k] == gradGamma.data[k] + g1.data[k] * normalized.data[k];
    assert ZipWith(g2, normalized, Mul).data[k] == g2.data[k] * normalized.data[k];
  }

  /**
   * The input gradient backward returns: g[k] gamma[k] / sqrt(runningVar +
   * epsilon), with the running variance even in training mode.
   */
  lemma BackwardOutputAt(g: Mat, normalized: Mat, gamma: Mat, gradGamma: Mat, gradBeta: Mat,
                         runningVar: real, epsilon: real, sqrt: real -> real, k: nat)
    requires WellFormed(g) && WellFormed(normalized) && WellFormed(gamma) && WellFormed(gradGamma) && WellFormed(gradBeta)
    requires SameShape(g, gamma) && SameShape(normalized, gamma) && SameShape(gradGamma, gamma) && SameShape(gradBeta, gamma)
    requires sqrt(runningVar + epsilon) != 0.0 && k < |g.data|
    ensures var r := BackwardStep(g, normalized, gamma, gradGamma, gradBeta, runningVar, epsilon, sqrt);
      r.output.Ok? && r.output.value.data[k] == g.data[k] * gamma.data[k] / sqrt(runningVar + epsilon)
  {
    assert ZipWith(g, gamma, Mul).data[k] == g.data[k] * gamma.data[k];
  }

  // ----- applyGradient, on values -----

  /** What applyGradient leaves in the accumulators, and the optimizer step it took. */
  datatype ApplyEffect<K> = ApplyEffect(gradGamma: Mat, gradBeta: Mat, step: StepResult<K>)

  /**
   * applyGradient(optimizer, batchSize): both accumulators divided by
   * batchSize, then optimizer.update(gamma, beta, gradGamma, gradBeta). A
   * zero batch size throws runtime_error before anything changes.
   */
  function ApplyStep<K>(velocities: map<K, Mat>, kg: K, kb: K, gamma: Mat, beta: Mat, gradGamma: Mat, gradBeta: Mat,
                        batchSize: int, lr: real, momentum: real): (r: ApplyEffect<K>)
    requires AllWellFormed(velocities) && WellFormed(gamma) && WellFormed(beta) && WellFormed(gradGamma) && WellFormed(gradBeta)
    requires kg != kb
    ensures AllWellFormed(r.step.velocities) && WellFormed(r.step.weights) && WellFormed(r.step.biases)
    ensures SameShape(r.step.weights, gamma) && SameShape(r.step.biases, beta)
    ensures WellFormed(r.gradGamma) && SameShape(r.gradGamma, gradGamma) && WellFormed(r.gradBeta) && SameShape(r.gradBeta, gradBeta)
  {
    if batchSize == 0 then ApplyEffect(gradGamma, gradBeta, StepResult(Fail(RuntimeError), velocities, gamma, beta))
    else
      var gg := WithScalar(gradGamma, batchSize as real, Div);
      var gb := WithScalar(gradBeta, batchSize as real, Div);
      ApplyEffect(gg, gb, Step(velocities, kg, kb, gamma, beta, gg, gb, lr, momentum))
  }

  /**
   * On a layer whose accumulators have its parameters' shapes, applyGradient
   * succeeds exactly when batchSize is not zero.
   */
  lemma ApplySucceeds<K>(velocities: map<K, Mat>, kg: K, kb: K, gamma: Mat, beta: Mat, gradGamma: Mat, gradBeta: Mat,
                         batchSize: int, lr: real, momentum: real)
    requires AllWellFormed(velocities) && WellFormed(gamma) && WellFormed(beta) && WellFormed(gradGamma) && WellFormed(gradBeta)
    requires kg != kb && Fits(velocities, kg, gamma) && Fits(velocities, kb, beta)
    requires SameShape(gradGamma, gamma) && SameShape(gradBeta, beta)
    ensures ApplyStep(velocities, kg, kb, gamma, beta, gradGamma, gradBeta, batchSize, lr, momentum).step.outcome == Pass <==> batchSize != 0
  {
    if batchSize != 0 {
      var gg := WithScalar(gradGamma, batchSize as real, Div);
      var gb := WithScalar(gradBeta, batchSize as real, Div);
      StepOutcome(velocities, kg, kb, gamma, beta, gg, gb, lr, momentum);
    }
  }

  /**
   * A successful applyGradient takes the SGD step with the averaged
   * gradients gradGamma / batchSize and gradBeta / batchSize.
   */
  lemma ApplyAverages<K>(velocities: map<K, Mat>, kg: K, kb: K, gamma: Mat, beta: Mat, gradGamma: Mat, gradBeta: Mat,
                         batchSize: int, lr: real, momentum: real)
    requires AllWellFormed(velocities) && WellFormed(gamma) && WellFormed(beta) && WellFormed(gradGamma) && WellFormed(gradBeta)
    requires kg != kb && Fits(velocities, kg, gamma) && Fits(velocities, kb, beta)
    requires SameShape(gradGamma, gamma) && SameShape(gradBeta, beta) && batchSize != 0
    ensures var r := ApplyStep(velocities, kg, kb, gamma, beta, gradGamma, gradBeta, batchSize, lr, momentum);
      var vg := Momentum(Current(velocities, kg, gamma), WithScalar(gradGamma, batchSize as real, Div), lr, momentum);
      var vb := Momentum(Current(velocities, kb, beta), WithScalar(gradBeta, batchSize as real, Div), lr, momentum);
      r.step == StepResult(Pass, r.step.velocities, ZipWith(gamma, vg, Sub), ZipWith(beta, vb, Sub)) &&
      r.step.velocities[kg] == vg && r.step.velocities[kb] == vb
  {
    var gg := WithScalar(gradGamma, batchSize as real, Div);
    var gb := WithScalar(gradBeta, batchSize as real, Div);
    StepSucceeds(velocities, kg, kb, gamma, beta, gg, gb, lr, momentum);
  }

  /** The batch mean and variance forward computes in training mode. */
  method BatchStatistics(input: Matrix) returns (mean: real, variance: real)
    requires input.Valid() && input.rows > 0
    ensures mean == Mean(input.Value()) && variance == Variance(input.Value())
  {
    mean := Sum(input.data) / input.rows as real;
    var deviations := input.Map(y => Square(y - mean));
    variance := Sum(deviations.data) / input.rows as real;
  }

  // ----- The layer object -----

  class BatchNormalization {
    /** m_gamma, m_beta, m_normalized, m_gradGamma and m_gradBeta; operator= copies into them. */
    const gamma: Matrix
    const beta: Matrix
    const normalized: Matrix
    const gradGamma: Matrix
    const gradBeta: Matrix
    var runningMean: real
    var runningVar: real
    const epsilon: real
    const momentum: real
    var isTraining: bool

    ghost predicate Valid()
      reads this, gamma, beta, normalized, gradGamma, gradBeta
    {
      gamma.Valid() && beta.Valid() && normalized.Valid() && gradGamma.Valid() && gradBeta.Valid() &&
      gamma != beta && gamma != normalized && gamma != gradGamma && gamma != gradBeta &&
      beta != normalized && beta != gradGamma && beta != gradBeta &&
      normalized != gradGamma && normalized != gradBeta && gradGamma != gradBeta &&
      SameShape(gamma.Value(), beta.Value()) &&
      SameShape(gradGamma.Value(), gamma.Value()) && SameShape(gradBeta.Value(), beta.Value())
    }

    /**
     * BatchNormalization(numFeatures, epsilon, momentum): gamma all ones and
     * beta all zeros, numFeatures x 1; running mean 0 and variance 1;
     * training mode; zero accumulators.
     */
    constructor (numFeatures: nat, epsilon: real, momentum: real)
      ensures Valid() && fresh(gamma) && fresh(beta) && fresh(normalized) && fresh(gradGamma) && fresh(gradBeta)
      ensures gamma.Value() == Fill(numFeatures, 1, 1.0) && beta.Value() == Fill(numFeatures, 1, 0.0)
      ensures gradGamma.Value() == Fill(numFeatures, 1, 0.0) && gradBeta.Value() == Fill(numFeatures, 1, 0.0)
      ensures normalized.Value() == Mat(0, 0, [])
      ensures runningMean == 0.0 && runningVar == 1.0 && isTraining
      ensures this.epsilon == epsilon && this.momentum == momentum
    {
      this.epsilon, this.momentum := epsilon, momentum;
      isTraining, runningMean, runningVar := true, 0.0, 1.0;
      gamma := new Matrix.Filled(numFeatures, 1, 1.0);
      beta := new Matrix.Filled(numFeatures, 1, 0.0);
      normalized := new Matrix.Empty();
      gradGamma := new Matrix.Empty();
      gradBeta := new Matrix.Empty();
      new;
      ResetGradients();
    }

    /** resetGradients: zero accumulators of gamma's and beta's shapes. */
    method ResetGradients()
      requires gamma.Valid() && beta.Valid() && gradGamma.Valid() && gradBeta.Valid()
      requires gradGamma != gradBeta && gradGamma != gamma && gradGamma != beta && gradBeta != gamma && gradBeta != beta
      modifies gradGamma, gradBeta
      ensures gradGamma.Valid() && gradBeta.Valid()
      ensures gradGamma.Value() == Fill(gamma.rows, gamma.cols, 0.0)
      ensures gradBeta.Value() == Fill(beta.rows, beta.cols, 0.0)
    {
      var zeros := new Matrix.Filled(gamma.rows, gamma.cols, 0.0);
      gradGamma.Assign(zeros);
      zeros := new Matrix.Filled(beta.rows, beta.cols, 0.0);
      gradBeta.Assign(zeros);
    }

    /** setTrainingMode: sets the flag and nothing else. */
    method SetTrainingMode(training: bool)
      modifies this
      ensures isTraining == training
      ensures runningMean == old(runningMean) && runningVar == old(runningVar)
    {
      isTraining := training;
    }

    /** forward, as ForwardStep describes it. */
    method Forward(input: Matrix, sqrt: real -> real) returns (r: Result<Matrix>)
      requires Valid() && input.Valid() && (isTraining ==> input.rows > 0)
      modifies this, normalized
      ensures Valid() && isTraining == old(isTraining)
      ensures var e := ForwardStep(old(isTraining), old(runningMean), old(runningVar), epsilon, momentum,
          gamma.Value(), beta.Value(), old(normalized.Value()), old(input.Value()), sqrt);
        runningMean == e.runningMean && runningVar == e.runningVar && normalized.Value() == e.normalized &&
        (r.Err? <==> e.output.Err?) && (r.Err? ==> r.error == e.output.error) &&
        (r.Ok? ==> fresh(r.value) && r.value.Valid() && r.value.Value() == e.output.value)
    {
      ghost var st := Statistics(isTraining, runningMean, runningVar, momentum, input.Value());
      var center, spread;
      if isTraining {
        var mean, variance := BatchStatistics(input);
        runningMean := momentum * runningMean + (1.0 - momentum) * mean;
        runningVar := momentum * runningVar + (1.0 - momentum) * variance;
        center, spread := mean, variance;
      } else {
        center, spread := runningMean, runningVar;
      }
      assert st == Stats(runningMean, runningVar, center, spread);
      r := NormalizeAndScale(input, center, sqrt(spread + epsilon));
    }

    /**
     * The second half of forward: normalized = (input - center) / scale,
     * then gamma.cwiseProduct(normalized) + beta.
     */
    method NormalizeAndScale(input: Matrix, center: real, scale: real) returns (r: Result<Matrix>)
      requires Valid() && input.Valid()
      modifies normalized
      ensures Valid()
      ensures var n := Normalize(old(input.Value()), center, scale);
        normalized.Value() == (if n.Ok? then n.value else old(normalized.Value())) &&
        (r.Err? <==> n.Err? || ScaleShift(gamma.Value(), beta.Value(), n.value).Err?) &&
        (r.Err? ==> r.error == if n.Err? then n.error else ScaleShift(gamma.Value(), beta.Value(), n.value).error) &&
        (r.Ok? ==> fresh(r.value) && r.value.Valid() && r.value.Value() == ScaleShift(gamma.Value(), beta.Value(), n.value).value)
    {
      var centered := MinusScalar(input, center);
      var n := QuotientScalar(centered, scale);
      if n.Err? {
        return Err(n.error);
      }
      normalized.Assign(n.value);
      var scaled := gamma.CwiseProduct(normalized);
      if scaled.Err? {
        return Err(scaled.error);
      }
      r := Plus(scaled.value, beta);
    }

    /** backward, as BackwardStep describes it. */
    method Backward(gradient: Matrix, sqrt: real -> real) returns (r: Result<Matrix>)
      requires Valid() && gradient.Valid()
      modifies gradGamma, gradBeta
      ensures Valid()
      ensures var e := BackwardStep(old(gradient.Value()), normalized.Value(), gamma.Value(),
          old(gradGamma.Value()), old(gradBeta.Value()), runningVar, epsilon, sqrt);
        gradGamma.Value() == e.gradGamma && gradBeta.Value() == e.gradBeta &&
        (r.Err? <==> e.output.Err?) && (r.Err? ==> r.error == e.output.error) &&
        (r.Ok? ==> fresh(r.value) && r.value.Valid() && r.value.Value() == e.output.value)
    {
      var g := new Matrix.Copy(gradient);
      var weighted := g.CwiseProduct(normalized);
      if weighted.Err? {
        return Err(weighted.error);
      }
      var s := gradGamma.AddAssign(weighted.value);
      if s.Fail? {
        return Err(s.error);
      }
      // Past the first check g has the accumulators' shape, which is gamma's and beta's.
      s := gradBeta.AddAssign(g);
      var gradNormalized := g.CwiseProduct(gamma);
      r := QuotientScalar(gradNormalized.value, sqrt(runningVar + epsilon));
    }

    /** applyGradient, as ApplyStep describes it. */
    method ApplyGradient(optimizer: SGD, batchSize: int) returns (s: Outcome)
      requires Valid() && optimizer.Valid()
      modifies gradGamma, gradBeta, gamma, beta, optimizer
      ensures Valid() && optimizer.Valid()
      ensures var e := ApplyStep(old(optimizer.velocities), gamma, beta, old(gamma.Value()), old(beta.Value()),
          old(gradGamma.Value()), old(gradBeta.Value()), batchSize, optimizer.learningRate, optimizer.momentum);
        s == e.step.outcome && gradGamma.Value() == e.gradGamma && gradBeta.Value() == e.gradBeta &&
        optimizer.velocities == e.step.velocities && gamma.Value() == e.step.weights && beta.Value() == e.step.biases
    {
      s := gradGamma.DivScalarAssign(batchSize as real);
      if s.Fail? {
        return;
      }
      s := gradBeta.DivScalarAssign(batchSize as real);
      if s.Fail? {
        return;
      }
      s := optimizer.Update(gamma, beta, gradGamma, gradBeta);
    }
  }
}
