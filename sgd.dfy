/**
 * Stochastic gradient descent with momentum (Optimizers/SGD/SGD.cpp). The
 * optimizer keeps one velocity per parameter matrix, keyed by the matrix's
 * identity, creates it as zeros the first time it sees that matrix, and on
 * each update sets v := momentum * v + learningRate * grad and then
 * param := param - v.
 */
module Optimizers {
  import opened Wrappers
  import opened Matrices

  /** momentum * v + lr * g, entry by entry. */
  function Momentum(v: Mat, g: Mat, lr: real, momentum: real): (r: Mat)
    requires WellFormed(v) && WellFormed(g) && SameShape(v, g)
    ensures WellFormed(r) && SameShape(r, g)
  {
    ZipWith(WithScalar(v, momentum, Mul), WithScalar(g, lr, Mul), Add)
  }

  lemma MomentumAt(v: Mat, g: Mat, lr: real, momentum: real, k: nat)
    requires WellFormed(v) && WellFormed(g) && SameShape(v, g) && k < |g.data|
    ensures Momentum(v, g, lr, momentum).data[k] == momentum * v.data[k] + lr * g.data[k]
  {
    assert WithScalar(v, momentum, Mul).data[k] == v.data[k] * momentum;
    assert WithScalar(g, lr, Mul).data[k] == g.data[k] * lr;
  }

  predicate AllWellFormed<K>(velocities: map<K, Mat>) {
    forall key | key in velocities :: WellFormed(velocities[key])
  }

  /** The velocity map once key has one: a zero matrix of param's shape if it had none. */
  function WithVelocity<K>(velocities: map<K, Mat>, key: K, param: Mat): (r: map<K, Mat>)
    ensures key in r && r.Keys == velocities.Keys + {key}
    ensures key in velocities ==> r == velocities
    ensures key !in velocities ==> r[key] == Fill(param.rows, param.cols, 0.0)
  {
    if key in velocities then velocities else velocities[key := Fill(param.rows, param.cols, 0.0)]
  }

  /** What one update leaves behind: its outcome, the velocities and both parameters. */
  datatype StepResult<K> = StepResult(outcome: Outcome, velocities: map<K, Mat>, weights: Mat, biases: Mat)

  /** The first half of update: both velocities advanced, or the shape error that stops it. */
  function Advanced<K>(v0: map<K, Mat>, kw: K, kb: K, gw: Mat, gb: Mat, lr: real, momentum: real): (r: (Outcome, map<K, Mat>))
    requires AllWellFormed(v0) && WellFormed(gw) && WellFormed(gb) && kw in v0 && kb in v0 && kw != kb
    ensures AllWellFormed(r.1) && r.1.Keys == v0.Keys
    ensures r.0.Pass? <==> SameShape(v0[kw], gw) && SameShape(v0[kb], gb)
  {
    if !SameShape(v0[kw], gw) then (Fail(InvalidArgument), v0)
    else
      var v1 := v0[kw := Momentum(v0[kw], gw, lr, momentum)];
      if !SameShape(v1[kb], gb) then (Fail(InvalidArgument), v1)
      else (Pass, v1[kb := Momentum(v1[kb], gb, lr, momentum)])
  }

  /** The second half of update: each parameter minus its velocity. */
  function Applied<K>(v2: map<K, Mat>, kw: K, kb: K, w: Mat, b: Mat): (r: StepResult<K>)
    requires AllWellFormed(v2) && WellFormed(w) && WellFormed(b) && kw in v2 && kb in v2
    ensures r.velocities == v2 && WellFormed(r.weights) && WellFormed(r.biases)
    ensures SameShape(r.weights, w) && SameShape(r.biases, b)
  {
    if !SameShape(w, v2[kw]) then StepResult(Fail(InvalidArgument), v2, w, b)
    else
      var w' := ZipWith(w, v2[kw], Sub);
      if !SameShape(b, v2[kb]) then StepResult(Fail(InvalidArgument), v2, w', b)
      else StepResult(Pass, v2, w', ZipWith(b, v2[kb], Sub))
  }

  /**
   * One call of update(weights, biases, gradWeights, gradBiases) for weights
   * stored under key kw and biases under kb. Each matrix operation throws
   * invalid_argument on a shape mismatch, and whatever was assigned before
   * the throw stays assigned.
   */
  function Step<K>(velocities: map<K, Mat>, kw: K, kb: K, w: Mat, b: Mat, gw: Mat, gb: Mat, lr: real, momentum: real): (r: StepResult<K>)
    requires AllWellFormed(velocities) && WellFormed(w) && WellFormed(b) && WellFormed(gw) && WellFormed(gb)
    requires kw != kb
    ensures AllWellFormed(r.velocities) && WellFormed(r.weights) && WellFormed(r.biases)
    ensures r.velocities.Keys == velocities.Keys + {kw, kb}
    ensures SameShape(r.weights, w) && SameShape(r.biases, b)
  {
    var v0 := WithVelocity(WithVelocity(velocities, kw, w), kb, b);
    var (outcome, v2) := Advanced(v0, kw, kb, gw, gb, lr, momentum);
    if outcome.Fail? then StepResult(outcome, v2, w, b)
    else Applied(v2, kw, kb, w, b)
  }

  /** An update touches only the velocities of its own two parameters. */
  lemma StepKeepsOtherVelocities<K>(velocities: map<K, Mat>, kw: K, kb: K, w: Mat, b: Mat, gw: Mat, gb: Mat, lr: real, momentum: real)
    requires AllWellFormed(velocities) && WellFormed(w) && WellFormed(b) && WellFormed(gw) && WellFormed(gb)
    requires kw != kb
    ensures forall key :: key in velocities && key != kw && key != kb ==>
      Step(velocities, kw, kb, w, b, gw, gb, lr, momentum).velocities[key] == velocities[key]
  {
  }

  /**
   * A velocity whose shape matches its parameter: true of every velocity the
   * optimizer created, as long as the parameter keeps its shape.
   */
  predicate Fits<K>(velocities: map<K, Mat>, key: K, param: Mat) {
    key in velocities ==> SameShape(velocities[key], param)
  }

  /**
   * With velocities that fit their parameters, update succeeds exactly when
   * each gradient has its parameter's shape; when it fails, neither
   * parameter changes.
   */
  lemma StepOutcome<K>(velocities: map<K, Mat>, kw: K, kb: K, w: Mat, b: Mat, gw: Mat, gb: Mat, lr: real, momentum: real)
    requires AllWellFormed(velocities) && WellFormed(w) && WellFormed(b) && WellFormed(gw) && WellFormed(gb)
    requires kw != kb && Fits(velocities, kw, w) && Fits(velocities, kb, b)
    ensures var r := Step(velocities, kw, kb, w, b, gw, gb, lr, momentum);
      (r.outcome == Pass <==> SameShape(w, gw) && SameShape(b, gb)) &&
      (r.outcome.Fail? ==> r.outcome.error == InvalidArgument && r.weights == w && r.biases == b)
  {
  }

  /** The velocity a parameter starts its update from: its stored one, or zeros of its shape. */
  function Current<K>(velocities: map<K, Mat>, key: K, param: Mat): Mat {
    if key in velocities then velocities[key] else Fill(param.rows, param.cols, 0.0)
  }

  /**
   * A successful update moves each parameter against its new velocity,
   * which is momentum times the old one (zero if there was none) plus
   * learningRate times the gradient.
   */
  lemma StepSucceeds<K>(velocities: map<K, Mat>, kw: K, kb: K, w: Mat, b: Mat, gw: Mat, gb: Mat, lr: real, momentum: real)
    requires AllWellFormed(velocities) && WellFormed(w) && WellFormed(b) && WellFormed(gw) && WellFormed(gb)
    requires kw != kb && Fits(velocities, kw, w) && Fits(velocities, kb, b)
    requires SameShape(w, gw) && SameShape(b, gb)
    ensures var r := Step(velocities, kw, kb, w, b, gw, gb, lr, momentum);
      var vw := Momentum(Current(velocities, kw, w), gw, lr, momentum);
      var vb := Momentum(Current(velocities, kb, b), gb, lr, momentum);
      r == StepResult(Pass, r.velocities, ZipWith(w, vw, Sub), ZipWith(b, vb, Sub)) &&
      r.velocities[kw] == vw && r.velocities[kb] == vb
  {
  }

  /** Entry k of the new weights and of their new velocity. */
  lemma StepUpdates<K>(velocities: map<K, Mat>, kw: K, kb: K, w: Mat, b: Mat, gw: Mat, gb: Mat, lr: real, momentum: real, k: nat)
    requires AllWellFormed(velocities) && WellFormed(w) && WellFormed(b) && WellFormed(gw) && WellFormed(gb)
    requires kw != kb && Fits(velocities, kw, w) && Fits(velocities, kb, b)
    requires SameShape(w, gw) && SameShape(b, gb) && k < |w.data|
    ensures var r := Step(velocities, kw, kb, w, b, gw, gb, lr, momentum);
      r.velocities[kw].data[k] == momentum * Current(velocities, kw, w).data[k] + lr * gw.data[k] &&
      r.weights.data[k] == w.data[k] - r.velocities[kw].data[k]
  {
    StepSucceeds(velocities, kw, kb, w, b, gw, gb, lr, momentum);
    MomentumAt(Current(velocities, kw, w), gw, lr, momentum, k);
  }

  /**
   * The velocity persists from call to call: two updates of a fresh
   * parameter with gradients g1 and then g2 leave the velocity
   * momentum * lr * g1 + lr * g2.
   */
  lemma TwoStepsAccumulate<K>(velocities: map<K, Mat>, kw: K, kb: K, w: Mat, b: Mat, g1: Mat, g2: Mat, gb: Mat, lr: real, momentum: real, k: nat)
    requires AllWellFormed(velocities) && WellFormed(w) && WellFormed(b) && WellFormed(g1) && WellFormed(g2) && WellFormed(gb)
    requires kw != kb && kw !in velocities && Fits(velocities, kb, b)
    requires SameShape(w, g1) && SameShape(w, g2) && SameShape(b, gb) && k < |w.data|
    ensures var r1 := Step(velocities, kw, kb, w, b, g1, gb, lr, momentum);
      var r2 := Step(r1.velocities, kw, kb, r1.weights, r1.biases, g2, gb, lr, momentum);
      r2.outcome == Pass && r2.velocities[kw].data[k] == momentum * (lr * g1.data[k]) + lr * g2.data[k]
  {
    var r1 := Step(velocities, kw, kb, w, b, g1, gb, lr, momentum);
    StepSucceeds(velocities, kw, kb, w, b, g1, gb, lr, momentum);
    MomentumAt(Fill(w.rows, w.cols, 0.0), g1, lr, momentum, k);
    assert r1.velocities[kw].data[k] == lr * g1.data[k];
    assert Fits(r1.velocities, kw, r1.weights) && Fits(r1.velocities, kb, r1.biases);
    StepSucceeds(r1.velocities, kw, kb, r1.weights, r1.biases, g2, gb, lr, momentum);
    MomentumAt(r1.velocities[kw], g2, lr, momentum, k);
  }

  /**
   * The library's SGD test: SGD(0.01, 0.9) on weights [[1, 2], [3, 4]] with
   * gradients [[0.1, 0.2], [0.3, 0.4]] and biases [0.5, 0.5] with gradients
   * [0.05, 0.05] gives weights [[0.999, 1.998], [2.997, 3.996]] and biases
   * [0.4995, 0.4995].
   */
  lemma SgdTestValues<K>(kw: K, kb: K)
    requires kw != kb
    ensures var r := Step(map[], kw, kb, Mat(2, 2, [1.0, 2.0, 3.0, 4.0]), Mat(2, 1, [0.5, 0.5]),
      Mat(2, 2, [0.1, 0.2, 0.3, 0.4]), Mat(2, 1, [0.05, 0.05]), 0.01, 0.9);
      r.outcome == Pass && r.weights == Mat(2, 2, [0.999, 1.998, 2.997, 3.996]) && r.biases == Mat(2, 1, [0.4995, 0.4995])
  {
    var w, b := Mat(2, 2, [1.0, 2.0, 3.0, 4.0]), Mat(2, 1, [0.5, 0.5]);
    var gw, gb := Mat(2, 2, [0.1, 0.2, 0.3, 0.4]), Mat(2, 1, [0.05, 0.05]);
    StepSucceeds(map[], kw, kb, w, b, gw, gb, 0.01, 0.9);
    var vw := Momentum(Fill(2, 2, 0.0), gw, 0.01, 0.9);
    var vb := Momentum(Fill(2, 1, 0.0), gb, 0.01, 0.9);
    assert vw.data == [0.001, 0.002, 0.003, 0.004];
    assert vb.data == [0.0005, 0.0005];
    assert ZipWith(w, vw, Sub).data == [0.999, 1.998, 2.997, 3.996];
    assert ZipWith(b, vb, Sub).data == [0.4995, 0.4995];
  }

  class SGD {
    const learningRate: real
    const momentum: real
    /** m_velocities: the velocity of every parameter matrix seen so far. */
    var velocities: map<Matrix, Mat>

    ghost predicate Valid()
      reads this
    {
      AllWellFormed(velocities)
    }

    /** SGD(learningRate, momentum): no velocities yet. */
    constructor (learningRate: real, momentum: real)
      ensures Valid() && this.learningRate == learningRate && this.momentum == momentum && velocities == map[]
    {
      this.learningRate, this.momentum := learningRate, momentum;
      velocities := map[];
    }

    /** update(weights, biases, gradWeights, gradBiases): one Step, applied in place. */
    method Update(weights: Matrix, biases: Matrix, gradWeights: Matrix, gradBiases: Matrix) returns (s: Outcome)
      requires Valid() && weights.Valid() && biases.Valid() && gradWeights.Valid() && gradBiases.Valid()
      requires weights != biases
      modifies this, weights, biases
      ensures Valid() && weights.Valid() && biases.Valid()
      ensures var r := Step(old(velocities), weights, biases, old(weights.Value()), old(biases.Value()),
          old(gradWeights.Value()), old(gradBiases.Value()), learningRate, momentum);
        s == r.outcome && velocities == r.velocities && weights.Value() == r.weights && biases.Value() == r.biases
    {
      if weights !in velocities {
        velocities := velocities[weights := Fill(weights.rows, weights.cols, 0.0)];
      }
      if biases !in velocities {
        velocities := velocities[biases := Fill(biases.rows, biases.cols, 0.0)];
      }
      s := AdvanceBoth(weights, biases, gradWeights, gradBiases);
      if s.Fail? {
        return;
      }
      s := ApplyBoth(weights, biases);
    }

    /** The velocity half of update. */
    method AdvanceBoth(kw: Matrix, kb: Matrix, gradWeights: Matrix, gradBiases: Matrix) returns (s: Outcome)
      requires Valid() && gradWeights.Valid() && gradBiases.Valid() && kw in velocities && kb in velocities && kw != kb
      modifies this
      ensures Valid() && (s, velocities) == Advanced(old(velocities), kw, kb, gradWeights.Value(), gradBiases.Value(), learningRate, momentum)
    {
      var v := Advance(velocities[kw], gradWeights);
      if v.Err? {
        return Fail(v.error);
      }
      velocities := velocities[kw := v.value];
      v := Advance(velocities[kb], gradBiases);
      if v.Err? {
        return Fail(v.error);
      }
      velocities := velocities[kb := v.value];
      return Pass;
    }

    /** The parameter half of update: weights -= velocity, then biases -= velocity. */
    method ApplyBoth(weights: Matrix, biases: Matrix) returns (s: Outcome)
      requires Valid() && weights.Valid() && biases.Valid() && weights in velocities && biases in velocities && weights != biases
      modifies weights, biases
      ensures weights.Valid() && biases.Valid()
      ensures var r := Applied(velocities, weights, biases, old(weights.Value()), old(biases.Value()));
        s == r.outcome && weights.Value() == r.weights && biases.Value() == r.biases
    {
      var current := new Matrix.FromValue(velocities[weights]);
      s := weights.SubAssign(current);
      if s.Fail? {
        return;
      }
      current := new Matrix.FromValue(velocities[biases]);
      s := biases.SubAssign(current);
    }

    /** (momentum * v) + (learningRate * grad); throws invalid_argument unless the shapes agree. */
    method Advance(v: Mat, grad: Matrix) returns (r: Result<Mat>)
      requires WellFormed(v) && grad.Valid()
      ensures r.Err? <==> !SameShape(v, grad.Value())
      ensures r.Err? ==> r.error == InvalidArgument
      ensures r.Ok? ==> r.value == Momentum(v, grad.Value(), learningRate, momentum)
    {
      var velocity := new Matrix.FromValue(v);
      var decayed := ScalarTimes(momentum, velocity);
      var step := ScalarTimes(learningRate, grad);
      var sum := Plus(decayed, step);
      if sum.Err? {
        return Err(sum.error);
      }
      return Ok(sum.value.Value());
    }
  }
}
