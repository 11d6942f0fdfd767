# NeuralNetworkCPP core in Dafny

This project models the numeric and bookkeeping core of NeuralNetworkCPP, a
small C++ library for feed-forward networks, and proves what its operations
promise. C++ `double` is Dafny's `real`, with exact arithmetic. An exception
is an `Err`/`Fail` carrying one of `InvalidArgument`, `RuntimeError` or
`OutOfRange`. A parallel loop of the library's thread pool is a sequential
loop over the same range.

- **Matrix engine** (module `Matrices`). `Mat(rows, cols, data)` is a matrix
  value: entry (r, c) sits at `data[r * cols + c]`. The class `Matrix` holds
  one such value in fields that its compound operators (`+=`, `-=`, `*=`,
  `/=`) rewrite in place, in index loops. Each operator is proved against a
  specification function: `ZipWith`, `WithScalar`, `Product`, `Transposed`
  or `Mapped`. Lemmas relate those functions to each other:
  - transposing twice gives the matrix back;
  - `(a b)^T = b^T a^T`;
  - adding and then subtracting the same matrix is the identity;
  - scaling and then dividing by the same scalar is the identity.
- **Broadcast proxies** (`ColWiseProxies`, `RowWiseProxies`). These scale
  row r by entry r of a column vector, or subtract a row vector from every
  row, after a shape check.
- **Row utilities** (`Utils`). `slice` is modelled with its bound check as
  written, and `reorderRows` as the in-place gather it is.
- **Tables** (`Tables`). The matrix that the evaluator and the trainer build
  from a table of rows, and the rows read back from a matrix.
- **ReLU** (`Activations`), **mean squared error** (`Losses`) and **SGD with
  momentum** (`Optimizers`). SGD's velocities are a map from parameter
  objects to matrices, created lazily on the first update.
- **Dense layer** (`Dense`) and **batch normalization** (`Normalization`),
  as classes whose fields hold the parameters, the caches and the
  accumulators. `std::sqrt` is a parameter `sqrt: real -> real`.
- **Layer stack** (`LayerStack`). A layer is either a dense layer or a batch
  normalization. `LayerState` is the value of everything a layer holds.
  `ModelLayers` owns the layers and appends to them.
- **Evaluator** (`Evaluation`) covers:
  - the forward pass as a fold over the stack;
  - `predict` with its mode switching;
  - `evaluate` with one metric or several;
  - accuracy and mean absolute error.
- **Trainer** (`Training`) covers:
  - the reverse backward pass;
  - the protocol of a batch: reset, forward, loss, backward, apply;
  - the split into validation and training rows;
  - the batch ranges of an epoch;
  - the early-stopping check.
- **CSV reader** (`Csv`): `std::getline` tokenizing, conversion through
  `stod` (a parameter), the split of each line into a data row and a label
  row, and `read`'s line loop.

Each loop of the library is a `method` with the invariants that tie it to a
specification function. The stack's passes (forward, backward, apply, reset,
epoch and epoch loop) are folds over a step function. Lemmas prove what
those folds keep: shapes, caches, parameters, and the states a layer can be
in.

Where the library's documentation and its code disagree, the model follows
the code, except in train and its batch loop. Those cut the data with the
exclusive-end slice that the documentation describes, because the code's
slice makes every call of train throw (see Findings). The places are:
- `slice` is documented with an exclusive end, but the code rejects
  `end == size` (see Findings). `Utils.Slice` models the code;
  `Training.Trained`, `Training.EpochOver` and the methods that follow them
  use `Utils.SliceExclusive`.
- `SGD.hpp` declares two velocity maps, `m_velocityWeights` and
  `m_velocityBiases`, while `SGD.cpp` keeps every velocity in a single
  `m_velocities`. The model follows `SGD.cpp` with one map.
- `Layer.hpp` declares `backward(gradient, optimizer)`, while the trainer
  calls `backward(gradient)`, `resetGradients` and `applyGradient`.
  `DenseLayer.cpp` defines only the first. In the model, a dense layer in
  the stack steps its parameters inside `backward`, using the trainer's
  optimizer, and its `resetGradients` and `applyGradient` do nothing.
- The library's ReLU test expects a backward gradient of 1.0 where the code
  passes the incoming 0.1. The dense-layer tests feed column vectors, which
  `forward` rejects. `Activations.ReluTestValues` and
  `Dense.ForwardRejectsColumn` state what the code does.

## Model

| member | source | states |
|---|---|---|
| Matrices.TransposedAt | NeuralNetworkCPP/Matrix/Matrix.cpp:131-143 | entry (c, r) of the transpose is entry (r, c) of the matrix |
| Matrices.TransposeInvolutive | NeuralNetworkCPP/Matrix/Matrix.cpp:131-143 | transposing twice gives back the matrix |
| Matrices.ProductAt | NeuralNetworkCPP/Matrix/Matrix.cpp:327-348 | entry (i, j) of the product is the dot product of row i of the left operand with column j of the right |
| Matrices.ProductTransposed | NeuralNetworkCPP/Matrix/Matrix.cpp:327-348 | the transpose of a product is the product of the transposes in reverse order |
| Matrices.AddThenSubtract | NeuralNetworkCPP/Matrix/Matrix.cpp:172-214 | adding b and then subtracting b gives back a |
| Matrices.MulThenDivide | NeuralNetworkCPP/Matrix/Matrix.cpp:253-302 | scaling by a non-zero s and then dividing by s gives back a |
| Matrices.SubtractedFromIsDifference | NeuralNetworkCPP/Matrix/Matrix.cpp:395-406 | scalar - m is the difference of the constant matrix and m |
| Matrices.Matrix.Empty | NeuralNetworkCPP/Matrix/Matrix.cpp:13-14 | the default matrix is 0 x 0 with an empty buffer |
| Matrices.Matrix.Copy | NeuralNetworkCPP/Matrix/Matrix.cpp:16-20 | a copy holds the same shape and entries in a buffer of its own |
| Matrices.Matrix.Filled | NeuralNetworkCPP/Matrix/Matrix.cpp:22-23 | rows x cols with every entry initVal |
| Matrices.Matrix.Generated | NeuralNetworkCPP/Matrix/Matrix.cpp:32-41 | a rows x cols matrix (its entries come from the generator) |
| Matrices.FromData | NeuralNetworkCPP/Matrix/Matrix.cpp:25-30 | throws invalid_argument exactly when the data does not hold rows * cols values; otherwise the matrix holds the data |
| Matrices.Matrix.Get | NeuralNetworkCPP/Matrix/Matrix.cpp:71-89 | operator() and operator[] read entry (r, c) at r * cols + c |
| Matrices.Matrix.Set | NeuralNetworkCPP/Matrix/Matrix.cpp:71-89 | writing entry (r, c) changes that entry and no other |
| Matrices.Matrix.Assign | NeuralNetworkCPP/Matrix/Matrix.cpp:158-170 | assignment takes the other matrix's shape and entries |
| Matrices.Matrix.AddAssign | NeuralNetworkCPP/Matrix/Matrix.cpp:172-186 | throws invalid_argument exactly on a shape mismatch, leaving this unchanged; otherwise this becomes the entry-wise sum |
| Matrices.Matrix.AddScalarAssign | NeuralNetworkCPP/Matrix/Matrix.cpp:188-198 | never throws; the scalar is added to every entry |
| Matrices.Matrix.SubAssign | NeuralNetworkCPP/Matrix/Matrix.cpp:200-214 | throws invalid_argument exactly on a shape mismatch, leaving this unchanged; otherwise the entry-wise difference |
| Matrices.Matrix.SubScalarAssign | NeuralNetworkCPP/Matrix/Matrix.cpp:216-226 | never throws; the scalar is subtracted from every entry |
| Matrices.Matrix.MulAssign | NeuralNetworkCPP/Matrix/Matrix.cpp:228-251 | throws invalid_argument exactly when the inner dimensions differ, leaving this unchanged; otherwise this becomes the product |
| Matrices.Matrix.MulScalarAssign | NeuralNetworkCPP/Matrix/Matrix.cpp:253-263 | never throws; every entry is scaled |
| Matrices.Matrix.DivAssign | NeuralNetworkCPP/Matrix/Matrix.cpp:265-286 | a shape mismatch throws invalid_argument, and a zero divisor entry throws runtime_error; either way this is unchanged; otherwise the entry-wise quotient |
| Matrices.Matrix.DivScalarAssign | NeuralNetworkCPP/Matrix/Matrix.cpp:288-302 | throws runtime_error exactly when the scalar is zero, leaving this unchanged; otherwise every entry is divided |
| Matrices.Matrix.CwiseProduct | NeuralNetworkCPP/Matrix/Matrix.cpp:114-129 | throws invalid_argument exactly on a shape mismatch; otherwise a new matrix of entry-wise products |
| Matrices.Matrix.Transpose | NeuralNetworkCPP/Matrix/Matrix.cpp:131-143 | a new cols x rows matrix that is the transpose |
| Matrices.Matrix.Map | NeuralNetworkCPP/Matrix/Matrix.cpp:145-156 | a new matrix of the same shape with the function applied to every entry |
| Matrices.Times | NeuralNetworkCPP/Matrix/Matrix.cpp:327-348 | throws invalid_argument exactly when left.cols != right.rows; otherwise a new matrix holding the product |
| Matrices.RowTimesColumn | NeuralNetworkCPP/Matrix/Matrix.cpp:340-343 | the inner loop sums row i times column j |
| Matrices.ScalarTimes | NeuralNetworkCPP/Matrix/Matrix.cpp:350-355 | a new matrix with every entry scaled; the operand is not changed |
| Matrices.TimesScalar | NeuralNetworkCPP/Matrix/Matrix.cpp:357-360 | the same as scalar * m |
| Matrices.Plus | NeuralNetworkCPP/Matrix/Matrix.cpp:362-367 | throws invalid_argument exactly on a shape mismatch; otherwise a new matrix holding the sum |
| Matrices.ScalarPlus | NeuralNetworkCPP/Matrix/Matrix.cpp:369-374 | a new matrix with the scalar added to every entry |
| Matrices.PlusScalar | NeuralNetworkCPP/Matrix/Matrix.cpp:376-379 | the same as scalar + m |
| Matrices.Minus | NeuralNetworkCPP/Matrix/Matrix.cpp:381-386 | throws invalid_argument exactly on a shape mismatch; otherwise a new matrix holding the difference |
| Matrices.MinusScalar | NeuralNetworkCPP/Matrix/Matrix.cpp:388-393 | a new matrix with the scalar subtracted from every entry |
| Matrices.ScalarMinus | NeuralNetworkCPP/Matrix/Matrix.cpp:395-406 | a new matrix whose entry x becomes scalar - x |
| Matrices.Quotient | NeuralNetworkCPP/Matrix/Matrix.cpp:408-413 | the errors of /= (invalid_argument on shape, runtime_error on a zero entry); otherwise the entry-wise quotient |
| Matrices.QuotientScalar | NeuralNetworkCPP/Matrix/Matrix.cpp:415-420 | throws runtime_error exactly when the scalar is zero; otherwise every entry is divided |
| Matrices.Equal | NeuralNetworkCPP/Matrix/Matrix.cpp:422-436 | true exactly when the shapes and all entries agree |
| Matrices.NotEqual | NeuralNetworkCPP/Matrix/Matrix.cpp:438-441 | the negation of == |
| ColWiseProxies.ColWiseProxy.constructor | NeuralNetworkCPP/Matrix/ColWiseProxy/ColWiseProxy.cpp:12-13 | the proxy binds the given matrix |
| ColWiseProxies.RowsScaledAt | NeuralNetworkCPP/Matrix/ColWiseProxy/ColWiseProxy.cpp:28-31 | entry (r, c) of the result is M(r, c) times v(r, 0) |
| ColWiseProxies.Times | NeuralNetworkCPP/Matrix/ColWiseProxy/ColWiseProxy.cpp:15-34 | throws invalid_argument exactly unless the right operand is a column vector with one entry per row; otherwise a new matrix of M's shape with each row scaled; neither operand changes |
| ColWiseProxies.ScaleColumn | NeuralNetworkCPP/Matrix/ColWiseProxy/ColWiseProxy.cpp:28-31 | one turn of the parallel loop scales column c and no other |
| RowWiseProxies.RowWiseProxy.constructor | NeuralNetworkCPP/Matrix/RowWiseProxy/RowWiseProxy.cpp:12-13 | the proxy binds the given matrix |
| RowWiseProxies.ColumnsShiftedAt | NeuralNetworkCPP/Matrix/RowWiseProxy/RowWiseProxy.cpp:28-31 | entry (r, c) of the result is M(r, c) minus v(0, c) |
| RowWiseProxies.Minus | NeuralNetworkCPP/Matrix/RowWiseProxy/RowWiseProxy.cpp:15-34 | throws invalid_argument exactly unless the right operand is a row vector with one entry per column; otherwise a new matrix of M's shape with the vector subtracted from every row; neither operand changes |
| RowWiseProxies.ShiftRow | NeuralNetworkCPP/Matrix/RowWiseProxy/RowWiseProxy.cpp:28-31 | one turn of the parallel loop shifts row r and no other |
| Utils.Slice | NeuralNetworkCPP/Utils/Utils.cpp:12-21 | throws out_of_range exactly when start < 0, end >= size or start > end; otherwise rows start .. end - 1 in order |
| Utils.SliceNeverReachesEnd | NeuralNetworkCPP/Utils/Utils.cpp:15-16 | every slice that ends at the row count throws |
| Utils.SliceExclusive | NeuralNetworkCPP/Utils/Utils.cpp:12-21 | the documented exclusive end: throws exactly when start < 0, end > size or start > end; otherwise rows start .. end - 1 |
| Utils.SliceExclusiveSplit | NeuralNetworkCPP/Utils/Utils.cpp:12-21 | two adjacent slices together are the slice that spans both |
| Utils.SliceAgreesBelowEnd | NeuralNetworkCPP/Utils/Utils.cpp:15-16 | whatever the written check accepts, the exclusive check accepts with the same rows |
| Utils.FirstInvalid | NeuralNetworkCPP/Utils/Utils.cpp:33-37 | the first position of order whose index names no row; all before it are valid |
| Utils.ReorderRows | NeuralNetworkCPP/Utils/Utils.cpp:23-42 | the outcome (size mismatch or first bad index throws out_of_range) and the rows left behind, including the rows written before the throw |
| Utils.ReorderSucceeds | NeuralNetworkCPP/Utils/Utils.cpp:30-41 | when reorderRows returns, row i is the original row order[i] for every i |
| Utils.GatherInverse | NeuralNetworkCPP/Utils/Utils.cpp:23-42 | reordering by a permutation and then by its inverse gives the rows back |
| Utils.ReorderPartialWrite | NeuralNetworkCPP/Utils/Utils.cpp:33-40 | on rows {{1,2},{3,4}} with order {1,2} it throws after overwriting row 0 |
| Utils.ReorderRowsChecked | NeuralNetworkCPP/Utils/Utils.cpp:23-42 | the same outcome, no change on failure, and the gathered rows on success |
| Tables.FromRows | NeuralNetworkCPP/ModelParts/ModelTrainer/ModelTrainer.cpp:149-150 | Matrix(rows) throws invalid_argument exactly on rows of unequal length; otherwise entry (i, j) is value j of row i |
| Tables.RowAt | NeuralNetworkCPP/ModelParts/ModelEvaluator/ModelEvaluator.cpp:43-45 | row i read entry by entry |
| Tables.RowsOf | NeuralNetworkCPP/ModelParts/ModelEvaluator/ModelEvaluator.cpp:41-47 | the rows of a matrix, entry (i, j) at row i, position j |
| Tables.RowsOfFromRows | NeuralNetworkCPP/ModelParts/ModelEvaluator/ModelEvaluator.cpp:37-47 | reading back the rows of the matrix built from rows gives the rows |
| Tables.FromRowsOfRows | NeuralNetworkCPP/ModelParts/ModelEvaluator/ModelEvaluator.cpp:37-47 | building a matrix from a matrix's rows gives it back |
| Tables.FromRowsInjective | NeuralNetworkCPP/ModelParts/ModelEvaluator/ModelEvaluator.cpp:178-179 | two tables give the same matrix exactly when they are equal |
| Activations.ReluOutput | NeuralNetworkCPP/Activations/ReLU/ReLU.cpp:11-16 | every output is non-negative, and an input passes unchanged exactly when it is non-negative |
| Activations.ReluIdempotent | NeuralNetworkCPP/Activations/ReLU/ReLU.cpp:11-16 | applying ReLU twice is applying it once |
| Activations.MaskedAfterForward | NeuralNetworkCPP/Activations/ReLU/ReLU.cpp:18-24 | after forward on x, backward passes the gradient exactly where x was positive and zero elsewhere |
| Activations.MaskedIdempotent | NeuralNetworkCPP/Activations/ReLU/ReLU.cpp:18-24 | masking twice with the same output is masking once |
| Activations.ReluTestValues | Tests/Activations/TestActivations.cpp:10-30 | the values of the library's ReLU test as the code computes them |
| Activations.ReLU.constructor | NeuralNetworkCPP/Activations/ReLU/ReLU.cpp:11-16 | a ReLU starts with an empty kept output |
| Activations.ReLU.Forward | NeuralNetworkCPP/Activations/ReLU/ReLU.cpp:11-16 | max(0, x) entry by entry, kept as the output and returned as a copy |
| Activations.ReLU.Backward | NeuralNetworkCPP/Activations/ReLU/ReLU.cpp:18-24 | throws invalid_argument exactly when the gradient's shape differs from the kept output; otherwise the masked gradient |
| Losses.Loss | NeuralNetworkCPP/Losses/MeanSquaredError/MeanSquaredError.cpp:12-19 | throws invalid_argument exactly on a shape mismatch; otherwise the loss is non-negative |
| Losses.LossZeroIffEqual | NeuralNetworkCPP/Losses/MeanSquaredError/MeanSquaredError.cpp:12-19 | the loss is zero exactly when the predictions equal the targets |
| Losses.Gradient | NeuralNetworkCPP/Losses/MeanSquaredError/MeanSquaredError.cpp:21-25 | throws invalid_argument exactly on a shape mismatch; otherwise a matrix of the predictions' shape |
| Losses.GradientAt | NeuralNetworkCPP/Losses/MeanSquaredError/MeanSquaredError.cpp:21-25 | entry k of the gradient is 2 (p[k] - t[k]) / (rows * cols) |
| Losses.GradientZeroIffEqual | NeuralNetworkCPP/Losses/MeanSquaredError/MeanSquaredError.cpp:21-25 | the gradient vanishes exactly when the predictions equal the targets |
| Losses.GradientPairsWithLoss | NeuralNetworkCPP/Losses/MeanSquaredError/MeanSquaredError.cpp:12-25 | the gradient's inner product with the error p - t is twice the loss |
| Losses.MseTestValues | Tests/Losses/MSE/TestMSE.cpp:11-55 | the loss and gradient values and the shape errors of the library's MSE tests |
| Optimizers.MomentumAt | NeuralNetworkCPP/Optimizers/SGD/SGD.cpp:23-26 | entry k of a new velocity is momentum * v[k] + learningRate * g[k] |
| Optimizers.WithVelocity | NeuralNetworkCPP/Optimizers/SGD/SGD.cpp:17-20 | an unseen parameter gets a zero velocity of its shape; a seen one keeps its velocity |
| Optimizers.Advanced | NeuralNetworkCPP/Optimizers/SGD/SGD.cpp:22-26 | advancing both velocities succeeds exactly when each gradient has its velocity's shape, and keeps the map's keys |
| Optimizers.Applied | NeuralNetworkCPP/Optimizers/SGD/SGD.cpp:28-30 | subtracting the velocities keeps the parameters' shapes and the velocities |
| Optimizers.Step | NeuralNetworkCPP/Optimizers/SGD/SGD.cpp:14-31 | after an update both parameters have velocities and keep their shapes |
| Optimizers.StepKeepsOtherVelocities | NeuralNetworkCPP/Optimizers/SGD/SGD.cpp:14-31 | an update touches only its own two parameters' velocities |
| Optimizers.StepOutcome | NeuralNetworkCPP/Optimizers/SGD/SGD.cpp:14-31 | an update succeeds exactly when each gradient has its parameter's shape; on failure neither parameter changes |
| Optimizers.StepSucceeds | NeuralNetworkCPP/Optimizers/SGD/SGD.cpp:14-31 | a successful update sets v := momentum v + lr g (v zero if new) and param := param - v for both parameters |
| Optimizers.StepUpdates | NeuralNetworkCPP/Optimizers/SGD/SGD.cpp:22-30 | entry k of the new velocity and of the new weights |
| Optimizers.TwoStepsAccumulate | NeuralNetworkCPP/Optimizers/SGD/SGD.cpp:17-26 | the velocity persists: two updates leave momentum * lr * g1 + lr * g2 |
| Optimizers.SgdTestValues | Tests/Optimizers/TestOptimizers.cpp:10-27 | SGD(0.01, 0.9) on the test's weights and biases gives the expected values |
| Optimizers.SGD.constructor | NeuralNetworkCPP/Optimizers/SGD/SGD.cpp:11-12 | the learning rate and momentum given, and no velocities |
| Optimizers.SGD.Update | NeuralNetworkCPP/Optimizers/SGD/SGD.cpp:14-31 | update changes the velocities and both parameters as Step says |
| Optimizers.SGD.AdvanceBoth | NeuralNetworkCPP/Optimizers/SGD/SGD.cpp:22-26 | the velocity half of update, as Advanced says |
| Optimizers.SGD.ApplyBoth | NeuralNetworkCPP/Optimizers/SGD/SGD.cpp:28-30 | the parameter half of update, as Applied says |
| Optimizers.SGD.Advance | NeuralNetworkCPP/Optimizers/SGD/SGD.cpp:23 | throws invalid_argument exactly on a shape mismatch; otherwise the new velocity |
| Dense.ActivationOfTag | NeuralNetworkCPP/Layers/Common/Layer.hpp:29 | a tag names an activation exactly when it lies in the enum |
| Dense.DenseForward | NeuralNetworkCPP/Layers/DenseLayer/DenseLayer.cpp:47-60 | forward throws invalid_argument exactly when x * w + b is ill-shaped; otherwise the result has the biases' shape |
| Dense.ForwardOnLayer | NeuralNetworkCPP/Layers/DenseLayer/DenseLayer.cpp:47-60 | on a constructed layer forward succeeds exactly on a 1 x inputSize row, gives a 1 x outputSize row, non-negative under ReLU |
| Dense.ForwardRejectsColumn | Tests/Layers/TestLayers.cpp:12-46 | the column-vector inputs of the library's layer tests are rejected with invalid_argument |
| Dense.WeightGradient | NeuralNetworkCPP/Layers/DenseLayer/DenseLayer.cpp:62-77 | the weight gradient input^T * gradInput has the weights' shape |
| Dense.WeightGradientOfRow | NeuralNetworkCPP/Layers/DenseLayer/DenseLayer.cpp:62-77 | for one sample, entry (i, j) of the weight gradient is input i times gradient j |
| Dense.DenseBackward | NeuralNetworkCPP/Layers/DenseLayer/DenseLayer.cpp:62-77 | backward keeps the parameters' shapes and every velocity well formed |
| Dense.BackwardOnLayer | NeuralNetworkCPP/Layers/DenseLayer/DenseLayer.cpp:62-77 | after a forward on a row, backward takes one SGD step and returns gradInput times the updated weights transposed |
| Dense.BackwardOkAfterStep | NeuralNetworkCPP/Layers/DenseLayer/DenseLayer.cpp:62-77 | backward succeeds only after the optimizer step succeeded, and returns gradient.rows x inputSize |
| Dense.DenseLayer.constructor | NeuralNetworkCPP/Layers/DenseLayer/DenseLayer.cpp:13-24 | inputSize x outputSize weights and a 1 x outputSize row of zero biases |
| Dense.DenseLayer.InitWeights | NeuralNetworkCPP/Layers/DenseLayer/DenseLayer.cpp:97-124 | inputSize x outputSize weights and zero biases of one row |
| Dense.DenseLayer.InitActivationFunction | NeuralNetworkCPP/Layers/DenseLayer/DenseLayer.cpp:126-154 | an enum value sets the activation; any other throws runtime_error and changes nothing |
| Dense.DenseLayer.Forward | NeuralNetworkCPP/Layers/DenseLayer/DenseLayer.cpp:47-60 | keeps the input, returns DenseForward's result, and a ReLU keeps the output |
| Dense.DenseLayer.ActivationBackward | NeuralNetworkCPP/Layers/DenseLayer/DenseLayer.cpp:62-77 | the gradient through the activation, or a copy when there is none |
| Dense.DenseLayer.Backward | NeuralNetworkCPP/Layers/DenseLayer/DenseLayer.cpp:62-77 | the optimizer step on the weights and biases and the returned gradient, as DenseBackward says |
| Dense.DenseLayer.Propagate | NeuralNetworkCPP/Layers/DenseLayer/DenseLayer.cpp:62-77 | the rest of backward, from the activation's gradient |
| Dense.Create | NeuralNetworkCPP/Layers/DenseLayer/DenseLayer.cpp:13-24 | throws invalid_argument exactly when a size is not positive, then runtime_error for a tag outside the enum; otherwise a layer of those sizes |
| Normalization.Deviations | NeuralNetworkCPP/Layers/BatchNormalization/BatchNormalization.cpp:47 | the squared deviation of each entry from the mean, never negative |
| Normalization.Variance | NeuralNetworkCPP/Layers/BatchNormalization/BatchNormalization.cpp:47 | the batch variance is never negative |
| Normalization.RunningBetween | NeuralNetworkCPP/Layers/BatchNormalization/BatchNormalization.cpp:50-51 | with 0 <= momentum <= 1 the running update lies between the old estimate and the batch statistic |
| Normalization.Normalize | NeuralNetworkCPP/Layers/BatchNormalization/BatchNormalization.cpp:54-59 | dividing by a zero scale throws runtime_error; otherwise the input's shape |
| Normalization.ScaleShift | NeuralNetworkCPP/Layers/BatchNormalization/BatchNormalization.cpp:75 | throws invalid_argument exactly unless gamma, beta and the normalized input share a shape |
| Normalization.ForwardStep | NeuralNetworkCPP/Layers/BatchNormalization/BatchNormalization.cpp:40-76 | a successful forward returns gamma's shape |
| Normalization.ForwardRunningStats | NeuralNetworkCPP/Layers/BatchNormalization/BatchNormalization.cpp:40-60 | running estimates move only in training mode, by momentum * running + (1 - momentum) * batch statistic |
| Normalization.RunningVarNonNegative | NeuralNetworkCPP/Layers/BatchNormalization/BatchNormalization.cpp:47-51 | the running variance stays non-negative |
| Normalization.ForwardSucceeds | NeuralNetworkCPP/Layers/BatchNormalization/BatchNormalization.cpp:40-76 | with epsilon > 0, a non-negative running variance and sqrt positive on positive arguments, forward fails only on shape: it succeeds exactly when the input is numFeatures x 1 |
| Normalization.InferenceOutputAt | NeuralNetworkCPP/Layers/BatchNormalization/BatchNormalization.cpp:56-75 | in inference mode entry k is gamma[k] (x[k] - runningMean) / sqrt(runningVar + epsilon) + beta[k] |
| Normalization.BackwardStep | NeuralNetworkCPP/Layers/BatchNormalization/BatchNormalization.cpp:78-87 | backward keeps the accumulators' shapes and returns the gradient's shape |
| Normalization.BackwardAccumulates | NeuralNetworkCPP/Layers/BatchNormalization/BatchNormalization.cpp:81-82 | two backward calls add both gradients to the accumulators |
| Normalization.BackwardOutputAt | NeuralNetworkCPP/Layers/BatchNormalization/BatchNormalization.cpp:85-86 | the returned gradient is g[k] gamma[k] / sqrt(runningVar + epsilon) |
| Normalization.ApplyStep | NeuralNetworkCPP/Layers/BatchNormalization/BatchNormalization.cpp:95-103 | applyGradient keeps every shape |
| Normalization.ApplySucceeds | NeuralNetworkCPP/Layers/BatchNormalization/BatchNormalization.cpp:95-103 | applyGradient succeeds exactly when batchSize is not zero |
| Normalization.ApplyAverages | NeuralNetworkCPP/Layers/BatchNormalization/BatchNormalization.cpp:95-103 | a successful applyGradient takes the SGD step with the accumulators divided by batchSize |
| Normalization.BatchStatistics | NeuralNetworkCPP/Layers/BatchNormalization/BatchNormalization.cpp:46-47 | the batch mean and variance |
| Normalization.BatchNormalization.constructor | NeuralNetworkCPP/Layers/BatchNormalization/BatchNormalization.cpp:12-18 | gamma ones, beta zeros, numFeatures x 1; running mean 0 and variance 1; training mode; zero accumulators |
| Normalization.BatchNormalization.ResetGradients | NeuralNetworkCPP/Layers/BatchNormalization/BatchNormalization.cpp:89-93 | zero accumulators of gamma's and beta's shapes |
| Normalization.BatchNormalization.SetTrainingMode | NeuralNetworkCPP/Layers/BatchNormalization/BatchNormalization.hpp:102 | sets the flag and nothing else |
| Normalization.BatchNormalization.Forward | NeuralNetworkCPP/Layers/BatchNormalization/BatchNormalization.cpp:40-76 | running estimates, the kept normalized input and the result, as ForwardStep says |
| Normalization.BatchNormalization.NormalizeAndScale | NeuralNetworkCPP/Layers/BatchNormalization/BatchNormalization.cpp:53-75 | the normalized input is kept and scaled and shifted |
| Normalization.BatchNormalization.Backward | NeuralNetworkCPP/Layers/BatchNormalization/BatchNormalization.cpp:78-87 | the accumulators and the result, as BackwardStep says |
| Normalization.BatchNormalization.ApplyGradient | NeuralNetworkCPP/Layers/BatchNormalization/BatchNormalization.cpp:95-103 | the averaged accumulators, velocities and parameters, as ApplyStep says |
| LayerStack.LayerTypeOfTag | NeuralNetworkCPP/Layers/Common/Layer.hpp:19 | a tag names a layer type exactly when it lies in the enum |
| LayerStack.ForwardLayer | NeuralNetworkCPP/ModelParts/ModelEvaluator/ModelEvaluator.cpp:79 | a layer's forward leaves it in a state it can be in and returns a well-formed non-empty output |
| LayerStack.BackwardLayer | NeuralNetworkCPP/ModelParts/ModelTrainer/ModelTrainer.cpp:19 | a layer's backward leaves it and the velocities well formed |
| LayerStack.ApplyLayer | NeuralNetworkCPP/ModelParts/ModelTrainer/ModelTrainer.cpp:163-164 | a layer's applyGradient leaves it and the velocities well formed |
| LayerStack.ForwardKeepsParameters | NeuralNetworkCPP/ModelParts/ModelEvaluator/ModelEvaluator.cpp:79 | forward changes no parameter or accumulator, and in inference mode no running estimate |
| LayerStack.ResetThenBackward | NeuralNetworkCPP/ModelParts/ModelTrainer/ModelTrainer.cpp:144-160 | after a reset the next backward leaves exactly g * normalized and g in the accumulators |
| LayerStack.ModelLayers.AddLayer | NeuralNetworkCPP/ModelParts/ModelLayers/ModelLayers.cpp:11-15 | the layer goes to the end; earlier layers keep their places and states |
| LayerStack.ModelLayers.InitLayer | NeuralNetworkCPP/ModelParts/ModelLayers/ModelLayers.cpp:17-33 | DENSE appends one dense layer, BATCH_NORM one batch normalization, any other tag throws runtime_error with the stack unchanged |
| LayerStack.LayerForward | NeuralNetworkCPP/ModelParts/ModelEvaluator/ModelEvaluator.cpp:79 | one layer's forward call, as ForwardLayer says |
| LayerStack.LayerBackward | NeuralNetworkCPP/ModelParts/ModelTrainer/ModelTrainer.cpp:19 | one layer's backward call, as BackwardLayer says |
| LayerStack.LayerResetGradients | NeuralNetworkCPP/ModelParts/ModelTrainer/ModelTrainer.cpp:145 | one layer's resetGradients |
| LayerStack.LayerApplyGradient | NeuralNetworkCPP/ModelParts/ModelTrainer/ModelTrainer.cpp:164 | one layer's applyGradient, as ApplyLayer says |
| LayerStack.LayerSetMode | NeuralNetworkCPP/ModelParts/ModelEvaluator/ModelEvaluator.cpp:112-117 | the mode of a batch normalization; other layers untouched |
| LayerStack.ForwardAt | NeuralNetworkCPP/ModelParts/ModelEvaluator/ModelEvaluator.cpp:79 | only layer i's state changes |
| LayerStack.BackwardAt | NeuralNetworkCPP/ModelParts/ModelTrainer/ModelTrainer.cpp:19 | only layer i's state and the velocities change |
| LayerStack.ResetAt | NeuralNetworkCPP/ModelParts/ModelTrainer/ModelTrainer.cpp:145 | only layer i's state changes |
| LayerStack.ApplyAt | NeuralNetworkCPP/ModelParts/ModelTrainer/ModelTrainer.cpp:164 | only layer i's state and the velocities change |
| LayerStack.SetModeAt | NeuralNetworkCPP/ModelParts/ModelEvaluator/ModelEvaluator.cpp:112-117 | only layer i's state changes |
| Evaluation.PassStops | NeuralNetworkCPP/ModelParts/ModelEvaluator/ModelEvaluator.cpp:73-82 | once a layer throws, the later layers are not called and keep their states |
| Evaluation.PassExtends | NeuralNetworkCPP/ModelParts/ModelEvaluator/ModelEvaluator.cpp:78-79 | a pass that reached layer i goes on with layer i's call on the previous output |
| Evaluation.ForwardOne | NeuralNetworkCPP/ModelParts/ModelEvaluator/ModelEvaluator.cpp:78-79 | one turn of forward's loop extends the pass by one layer |
| Evaluation.Forward | NeuralNetworkCPP/ModelParts/ModelEvaluator/ModelEvaluator.cpp:73-82 | the layers in stack order, each on the previous output |
| Evaluation.WithModes | NeuralNetworkCPP/ModelParts/ModelEvaluator/ModelEvaluator.cpp:108-120 | every layer's state with a batch normalization's flag set |
| Evaluation.ModesKeep | NeuralNetworkCPP/ModelParts/ModelEvaluator/ModelEvaluator.cpp:108-120 | switching modes keeps every parameter, estimate and accumulator |
| Evaluation.ModesOverride | NeuralNetworkCPP/ModelParts/ModelEvaluator/ModelEvaluator.cpp:108-120 | only the last switch counts |
| Evaluation.SetBatchTrainingMode | NeuralNetworkCPP/ModelParts/ModelEvaluator/ModelEvaluator.cpp:108-120 | each batch normalization is set; other layers are untouched |
| Evaluation.PassRelates | NeuralNetworkCPP/ModelParts/ModelEvaluator/ModelEvaluator.cpp:73-82 | a relation that every layer call keeps holds of the whole pass |
| Evaluation.PassKeepsConsistent | NeuralNetworkCPP/ModelParts/ModelEvaluator/ModelEvaluator.cpp:73-82 | a forward pass leaves every layer in a state it can be in |
| Evaluation.PredictKeepsModel | NeuralNetworkCPP/ModelParts/ModelEvaluator/ModelEvaluator.cpp:13-29 | predict changes no parameter, estimate or accumulator; the modes end in training unless the pass threw |
| Evaluation.Infer | NeuralNetworkCPP/ModelParts/ModelEvaluator/ModelEvaluator.cpp:22-25 | one pass, then back to training mode |
| Evaluation.Predict | NeuralNetworkCPP/ModelParts/ModelEvaluator/ModelEvaluator.cpp:13-29 | the input as an n x 1 matrix through the stack in inference mode, returning the output's buffer |
| Evaluation.ToRows | NeuralNetworkCPP/ModelParts/ModelEvaluator/ModelEvaluator.cpp:41-47 | the output read back row by row |
| Evaluation.PredictRows | NeuralNetworkCPP/ModelParts/ModelEvaluator/ModelEvaluator.cpp:31-54 | the samples as columns through the stack, read back as rows |
| Evaluation.ArgMax | NeuralNetworkCPP/ModelParts/ModelEvaluator/ModelEvaluator.cpp:156-157 | the first position of a largest value |
| Evaluation.ArgMaxUnique | NeuralNetworkCPP/ModelParts/ModelEvaluator/ModelEvaluator.cpp:156-157 | the first largest position is the only one with that property |
| Evaluation.Round | NeuralNetworkCPP/ModelParts/ModelEvaluator/ModelEvaluator.cpp:164 | the nearest integer, halves away from zero |
| Evaluation.RoundOdd | NeuralNetworkCPP/ModelParts/ModelEvaluator/ModelEvaluator.cpp:164 | rounding is symmetric about zero |
| Evaluation.RoundNearest | NeuralNetworkCPP/ModelParts/ModelEvaluator/ModelEvaluator.cpp:164 | within a half of x, and integers round to themselves |
| Evaluation.Hits | NeuralNetworkCPP/ModelParts/ModelEvaluator/ModelEvaluator.cpp:150-166 | correct predictions never outnumber the samples |
| Evaluation.AccuracyBetweenZeroAndOne | NeuralNetworkCPP/ModelParts/ModelEvaluator/ModelEvaluator.cpp:140-170 | an accuracy lies between 0 and 1 |
| Evaluation.AccuracyOfTargets | NeuralNetworkCPP/ModelParts/ModelEvaluator/ModelEvaluator.cpp:140-170 | predicting every target exactly scores 1 |
| Evaluation.ComputeAccuracy | NeuralNetworkCPP/ModelParts/ModelEvaluator/ModelEvaluator.cpp:140-170 | the counting loop gives Accuracy |
| Evaluation.AbsoluteErrorsZeroIffEqual | NeuralNetworkCPP/ModelParts/ModelEvaluator/ModelEvaluator.cpp:182 | summed absolute errors are non-negative and zero exactly on equal matrices |
| Evaluation.MeanAbsoluteErrorZeroIffEqual | NeuralNetworkCPP/ModelParts/ModelEvaluator/ModelEvaluator.cpp:172-183 | the MAE is non-negative, and zero exactly when every prediction is its target |
| Evaluation.Slots | NeuralNetworkCPP/ModelParts/ModelEvaluator/ModelEvaluator.cpp:90-103 | evaluate's result has two slots |
| Evaluation.SlotsFilled | NeuralNetworkCPP/ModelParts/ModelEvaluator/ModelEvaluator.cpp:84-106 | throws exactly when a requested metric throws; each slot holds its metric if requested, else 0.0 |
| Evaluation.FillSlots | NeuralNetworkCPP/ModelParts/ModelEvaluator/ModelEvaluator.cpp:98-103 | the metric loop gives Slots |
| Evaluation.SlotsStop | NeuralNetworkCPP/ModelParts/ModelEvaluator/ModelEvaluator.cpp:98-103 | once a metric has thrown, later ones change nothing |
| Evaluation.EvaluatedKeepsModel | NeuralNetworkCPP/ModelParts/ModelEvaluator/ModelEvaluator.cpp:84-106 | evaluating changes no parameter, estimate or accumulator, and a call that returns leaves training mode on |
| Evaluation.EvaluatedConsistent | NeuralNetworkCPP/ModelParts/ModelEvaluator/ModelEvaluator.cpp:84-106 | evaluating leaves every layer in a state it can be in |
| Evaluation.Evaluate | NeuralNetworkCPP/ModelParts/ModelEvaluator/ModelEvaluator.cpp:56-71 | no samples or no targets give 0.0; otherwise the metric of the predictions |
| Evaluation.EvaluateAll | NeuralNetworkCPP/ModelParts/ModelEvaluator/ModelEvaluator.cpp:84-106 | no samples or no targets give [0, 0]; otherwise the requested slots |
| Training.BackwardKeepsCaches | NeuralNetworkCPP/ModelParts/ModelTrainer/ModelTrainer.cpp:19 | a layer's backward keeps every cache, and a batch normalization's parameters |
| Training.ApplyKeepsCaches | NeuralNetworkCPP/ModelParts/ModelTrainer/ModelTrainer.cpp:164 | applyGradient keeps every cache and leaves a dense layer alone |
| Training.BackFromRelates | NeuralNetworkCPP/ModelParts/ModelTrainer/ModelTrainer.cpp:13-20 | the backward pass calls each layer below its start once and leaves the rest alone |
| Training.BackwardKeeps | NeuralNetworkCPP/ModelParts/ModelTrainer/ModelTrainer.cpp:13-20 | the backward pass keeps caches and batch normalization parameters, and every layer consistent |
| Training.BackFromUnfolds | NeuralNetworkCPP/ModelParts/ModelTrainer/ModelTrainer.cpp:18-19 | the pass from layer i is layer i - 1's call and then the pass from i - 1 on its gradient |
| Training.BackwardCall | NeuralNetworkCPP/ModelParts/ModelTrainer/ModelTrainer.cpp:19 | one layer's backward call |
| Training.BackwardOne | NeuralNetworkCPP/ModelParts/ModelTrainer/ModelTrainer.cpp:18-19 | one turn of the reverse loop |
| Training.Backward | NeuralNetworkCPP/ModelParts/ModelTrainer/ModelTrainer.cpp:13-20 | the layers from last to first, each on the gradient the later one returned |
| Training.ResetStates | NeuralNetworkCPP/ModelParts/ModelTrainer/ModelTrainer.cpp:144-145 | resetGradients on every layer |
| Training.ResetZeroes | NeuralNetworkCPP/ModelParts/ModelTrainer/ModelTrainer.cpp:144-145 | after the reset loop every accumulator is zero of its parameter's shape and nothing else changed |
| Training.ResetGradients | NeuralNetworkCPP/ModelParts/ModelTrainer/ModelTrainer.cpp:144-145 | the reset loop |
| Training.ApplyFromRelates | NeuralNetworkCPP/ModelParts/ModelTrainer/ModelTrainer.cpp:163-164 | a relation every applyGradient keeps holds of the whole loop |
| Training.ApplyKeeps | NeuralNetworkCPP/ModelParts/ModelTrainer/ModelTrainer.cpp:163-164 | the apply loop keeps caches, leaves dense layers alone and every layer consistent |
| Training.ApplyOne | NeuralNetworkCPP/ModelParts/ModelTrainer/ModelTrainer.cpp:164 | one turn of the apply loop |
| Training.ApplyGradients | NeuralNetworkCPP/ModelParts/ModelTrainer/ModelTrainer.cpp:163-164 | the apply loop, as ApplyFrom says |
| Training.Fitted | NeuralNetworkCPP/ModelParts/ModelTrainer/ModelTrainer.cpp:156-164 | the carried loss never decreases |
| Training.ColumnsTrained | NeuralNetworkCPP/ModelParts/ModelTrainer/ModelTrainer.cpp:153-164 | the carried loss never decreases |
| Training.BatchTrained | NeuralNetworkCPP/ModelParts/ModelTrainer/ModelTrainer.cpp:137-165 | the carried loss never decreases |
| Training.LearnedKeepsConsistent | NeuralNetworkCPP/ModelParts/ModelTrainer/ModelTrainer.cpp:160-164 | backward then apply keep every layer consistent |
| Training.FittedKeepsConsistent | NeuralNetworkCPP/ModelParts/ModelTrainer/ModelTrainer.cpp:156-164 | the end of a batch keeps every layer consistent |
| Training.BatchKeepsConsistent | NeuralNetworkCPP/ModelParts/ModelTrainer/ModelTrainer.cpp:137-165 | a batch keeps every layer consistent |
| Training.BatchIgnoresStaleGradients | NeuralNetworkCPP/ModelParts/ModelTrainer/ModelTrainer.cpp:144-145 | accumulators left from an earlier batch do not affect this one |
| Training.Learn | NeuralNetworkCPP/ModelParts/ModelTrainer/ModelTrainer.cpp:160-164 | backward then the apply loop |
| Training.Fit | NeuralNetworkCPP/ModelParts/ModelTrainer/ModelTrainer.cpp:156-164 | the loss added, then backward and apply |
| Training.TrainOnColumns | NeuralNetworkCPP/ModelParts/ModelTrainer/ModelTrainer.cpp:153-164 | forward on the batch, then Fit |
| Training.TrainOnBatch | NeuralNetworkCPP/ModelParts/ModelTrainer/ModelTrainer.cpp:137-165 | reset, forward, loss, backward, apply with the batch size |
| Training.BatchBoundsWithin | NeuralNetworkCPP/ModelParts/ModelTrainer/ModelTrainer.cpp:84-97 | each batch holds between one and batchSize rows inside the data |
| Training.BatchBoundsAt | NeuralNetworkCPP/ModelParts/ModelTrainer/ModelTrainer.cpp:84-97 | batch k is [i + k batchSize, min(n, i + (k+1) batchSize)); there are ceil((n - i) / batchSize) |
| Training.BatchesCover | NeuralNetworkCPP/ModelParts/ModelTrainer/ModelTrainer.cpp:84-97 | the batches hold every training row exactly once, in order |
| Training.EpochOver | NeuralNetworkCPP/ModelParts/ModelTrainer/ModelTrainer.cpp:84-101 | (intended: exclusive-end batch slices) the carried loss never decreases |
| Training.EpochKeepsConsistent | NeuralNetworkCPP/ModelParts/ModelTrainer/ModelTrainer.cpp:84-101 | an epoch keeps every layer consistent |
| Training.EpochOverEnds | NeuralNetworkCPP/ModelParts/ModelTrainer/ModelTrainer.cpp:84 | with no batches left the loss is returned unchanged |
| Training.EpochBatch | NeuralNetworkCPP/ModelParts/ModelTrainer/ModelTrainer.cpp:93-100 | (intended: exclusive-end batch slices) one turn of the batch loop, as the first step of EpochOver |
| Training.RunEpoch | NeuralNetworkCPP/ModelParts/ModelTrainer/ModelTrainer.cpp:77-101 | (intended: exclusive-end batch slices) the batch loop from loss 0.0, as EpochOver says |
| Training.Trunc | NeuralNetworkCPP/ModelParts/ModelTrainer/ModelTrainer.cpp:57 | converting a double to int drops the fraction toward zero |
| Training.ValidationCountBounds | NeuralNetworkCPP/ModelParts/ModelTrainer/ModelTrainer.cpp:57 | a split between 0 and 1 takes between none and all rows |
| Training.SplitAsWrittenThrows | NeuralNetworkCPP/ModelParts/ModelTrainer/ModelTrainer.cpp:58-61 | the split as written throws out_of_range whatever the data |
| Training.SplitData | NeuralNetworkCPP/ModelParts/ModelTrainer/ModelTrainer.cpp:57-61 | the intended split throws exactly when there are too few targets, with out_of_range |
| Training.SplitPartitions | NeuralNetworkCPP/ModelParts/ModelTrainer/ModelTrainer.cpp:57-61 | the first k rows validate, the rest train, and together they are the data |
| Training.SplitSucceeds | NeuralNetworkCPP/ModelParts/ModelTrainer/ModelTrainer.cpp:57-61 | a split in [0, 1] with enough targets never throws |
| Training.SplitKeepsRows | NeuralNetworkCPP/ModelParts/ModelTrainer/ModelTrainer.cpp:57-61 | both parts keep rows with values |
| Training.BestNeverRises | NeuralNetworkCPP/ModelParts/ModelTrainer/ModelTrainer.cpp:112-127 | with minDelta >= 0 the best loss never rises, and improves by more than minDelta |
| Training.EpochsFromEnds | NeuralNetworkCPP/ModelParts/ModelTrainer/ModelTrainer.cpp:130-134 | after the last epoch train returns true |
| Training.StopsOnlyAfterPatience | NeuralNetworkCPP/ModelParts/ModelTrainer/ModelTrainer.cpp:112-127 | a stop needs enough epochs for the counter to reach patience |
| Training.TrainedStopsOnlyAfterPatience | NeuralNetworkCPP/ModelParts/ModelTrainer/ModelTrainer.cpp:35-135 | train returns false only when epochs >= patience |
| Training.TrainEpoch | NeuralNetworkCPP/ModelParts/ModelTrainer/ModelTrainer.cpp:71-128 | (intended: exclusive-end batch slices) one epoch: batches, mean loss, evaluation, then the early-stopping check |
| Training.Trained | NeuralNetworkCPP/ModelParts/ModelTrainer/ModelTrainer.cpp:50-61 | (intended: exclusive-end split) data and labels with different row counts throw runtime_error, as shuffleDataset's documentation (Utils.hpp:44) says, with no layer or velocity changed |
| Training.Train | NeuralNetworkCPP/ModelParts/ModelTrainer/ModelTrainer.cpp:35-135 | (intended: exclusive-end split and batches) the row-count check, the split, then the epoch loop, as Trained says |
| Csv.FieldEnd | NeuralNetworkCPP/DataPreprocessing/CSVReader/CSVReader.cpp:67-68 | a field ends at the first separator or the end of the line |
| Csv.SplitAtSeparator | NeuralNetworkCPP/DataPreprocessing/CSVReader/CSVReader.cpp:60-71 | a field followed by a separator is one token |
| Csv.SplitLastField | NeuralNetworkCPP/DataPreprocessing/CSVReader/CSVReader.cpp:60-71 | a final field is a token only when it is not empty |
| Csv.SplitNoSeparator | NeuralNetworkCPP/DataPreprocessing/CSVReader/CSVReader.cpp:60-71 | no token holds the separator |
| Csv.JoinCons | NeuralNetworkCPP/DataPreprocessing/CSVReader/CSVReader.cpp:60-71 | joining puts a separator between tokens |
| Csv.JoinSplit | NeuralNetworkCPP/DataPreprocessing/CSVReader/CSVReader.cpp:60-71 | joining the tokens gives the line back, less a trailing separator |
| Csv.SplitEmptyIff | NeuralNetworkCPP/DataPreprocessing/CSVReader/CSVReader.cpp:60-71 | only the empty line has no tokens |
| Csv.SplitTestLine | Tests/Preprocessing/TestPreprocessing.cpp:12-46 | the tests' line 1.0,2.0,0 gives three tokens |
| Csv.SplitLeadingSeparator | NeuralNetworkCPP/DataPreprocessing/CSVReader/CSVReader.cpp:60-71 | for every line, a leading separator adds one empty token in front of the rest's tokens |
| Csv.SplitEdgeCases | NeuralNetworkCPP/DataPreprocessing/CSVReader/CSVReader.cpp:60-71 | a trailing separator adds no token; a leading one adds an empty token |
| Csv.ValuesAt | NeuralNetworkCPP/DataPreprocessing/CSVReader/CSVReader.cpp:73-91 | every token converts exactly when stod accepts them all; otherwise the first rejection's exception |
| Csv.ValuesErrSticks | NeuralNetworkCPP/DataPreprocessing/CSVReader/CSVReader.cpp:78-87 | a rejection in a prefix decides the whole line |
| Csv.Partition | NeuralNetworkCPP/DataPreprocessing/CSVReader/CSVReader.cpp:39-56 | the label is the last value or the first; the data row is the rest in order |
| Csv.LinesReadAppends | NeuralNetworkCPP/DataPreprocessing/CSVReader/CSVReader.cpp:30-57 | read only appends, one data row and one single-value label row per line with tokens; passes exactly when every line converts |
| Csv.LinesReadFrom | NeuralNetworkCPP/DataPreprocessing/CSVReader/CSVReader.cpp:30-57 | reading onto existing rows is reading from nothing with those rows in front |
| Csv.ReadTwiceDuplicates | NeuralNetworkCPP/DataPreprocessing/CSVReader/CSVReader.cpp:46-55 | read never clears, so a second read duplicates every row |
| Csv.Reader.constructor | NeuralNetworkCPP/DataPreprocessing/CSVReader/CSVReader.cpp:13-14 | the settings given, nothing read |
| Csv.Reader.SplitLine | NeuralNetworkCPP/DataPreprocessing/CSVReader/CSVReader.cpp:60-71 | split gives the getline tokens |
| Csv.Reader.ToDouble | NeuralNetworkCPP/DataPreprocessing/CSVReader/CSVReader.cpp:73-91 | toDouble gives Values |
| Csv.Reader.Read | NeuralNetworkCPP/DataPreprocessing/CSVReader/CSVReader.cpp:16-58 | a file that does not open throws runtime_error with nothing changed; otherwise the line loop after the header |

## Left out

- Matrices.Matrix.Generated: only the shape is stated. The generator is called in a nondeterministic parallel order, so which value lands in which entry is not fixed.
- Dense.DenseLayer.InitWeights: only the weights' shape is stated. The initializers draw from random engines and are not part of this model.
- Dense.DenseLayer.Forward: SIGMOID and SOFTMAX activations are not modelled, because they need exp. The layer's methods require RELU or NONE.
- LayerStack.ForwardLayer: a batch normalization with no features is outside the model. A batch of no rows has no mean; in C++ it gives NaN.
- Evaluation.Predict: requires a non-empty input. An empty one makes a batch normalization divide by zero rows (NaN).
- Evaluation.PredictRows: requires at least one sample, and a first sample with at least one value, for the same reason.
- Evaluation.Evaluate: requires the first test sample to hold a value when there are samples, for the same reason; Evaluation.EvaluateAll likewise.
- Losses.Loss: requires non-empty matrices when the shapes agree. 0 / 0 is NaN in C++.
- Training.Train: requires batchSize > 0. With 0 the batch loop never advances; with a negative size the index runs down and the C++ int overflows.
- Training.Train: requires every training row to hold a value. A row of none gives an empty batch matrix, which batch normalization turns into NaN.
- Training.Train: requires a consistent stack and an optimizer that owns none of the layers' objects.
- Training.Train: the split and every batch use the exclusive-end slice (Utils.SliceExclusive). As written, `slice` rejects `end == size`, so train throws out_of_range at the split for all data (Training.SplitAsWrittenThrows); the model trains instead.
- Training.EpochOver: the last batch of an epoch ends at the row count, which the code's `slice` at ModelTrainer.cpp:96-97 would reject; the model cuts it with the exclusive end, as do Training.EpochBatch, Training.RunEpoch and Training.TrainEpoch.
- Training.Train: shuffleDataset is declared but not defined. The model keeps its documented runtime_error on unequal row counts, but not the shuffle itself, so rows stay in the order given.
- Normalization.BatchNormalization.constructor: numFeatures is a nat, where the C++ takes an int. A negative count would reach `Matrix(numFeatures, 1, ...)`, whose behaviour on it is not modelled.
- Training.Average: the NaN of an empty training split (0.0 / 0) is modelled as no loss, which never improves on the best.
- NaN and infinity in general: real arithmetic has neither, and no contract follows them.
- Floating-point rounding: every contract holds for exact arithmetic. The double value of 0.001 is not 0.001.
- Integer widths: indices, sizes and `rows * cols` are unbounded. `numValidation` is truncated toward zero but not bounded to int.
- The thread pool (GlobalThreadPool, ThreadPool): every parallelFor is a sequential loop over the same range.
- shuffleDataset and to_categorical are declared in Utils.hpp but not defined in Utils.cpp, so the model trains on rows in the order given; only shuffleDataset's row-count check is modelled.
- Logger, verbose output and operator<< printing.
- ModelTrainer::compile: the optimizer, the loss (MSE) and the metrics are parameters of Training.Train.
- The Adam and RMSprop optimizers (sqrt, pow) and the cross-entropy losses (log) are not part of this model.
- Binary persistence is not part of this model: Matrix(std::ifstream&), save, the layers' file constructors, and NeuralNetworkCPP.cpp.
- LayerStack.ModelLayers.InitLayer: the layer read from the stream is a parameter.
- Csv.Reader.Read: opening the file is modelled as the file's text, or none when it does not open.
- Csv.Reader.Read: the text is split into lines at '\n'.
- Csv.Reader.ToDouble: stod is a parameter from a token to a number, "no conversion" or "out of range".
- computeMetric's final `return 0.0` serves an enum value outside ACCURACY_LOG and MAE_LOG. The metric datatype has only those two values.
- Matrix(std::vector<std::vector<double>>) and Matrix::sum are used but defined in neither Matrix.hpp nor Matrix.cpp. Tables.FromRows and Matrices.Sum give them the meaning their callers rely on.
- Matrix::colwise() and ColumnWiseProxy.hpp are not part of this model.
- The move constructor is the copy constructor in the model, which has value semantics.
- Scalers, initializers, examples and test mains are not part of this model.
- The older copy under Model/ModelEvaluator is not part of this model.

## Findings

| source | as written | input that shows it | evidently intended | confidence | as-written member | corrected member |
|---|---|---|---|---|---|---|
| NeuralNetworkCPP/Utils/Utils.cpp:15-16 with NeuralNetworkCPP/ModelParts/ModelTrainer/ModelTrainer.cpp:58-61 | `slice` rejects `end >= size`, yet `train` slices the training rows up to `size`, so every call of `train` throws out_of_range before the first epoch; the last batch of an epoch (lines 93-97) would hit the same check | any data, e.g. xTrain = {{1.0}}, yTrain = {{1.0}}, validationSplit 0; the model's train, built on the intended slice, trains on it | the end is exclusive, as Utils.hpp documents it, so the training part runs to the last row | not executed | Training.SplitAsWrittenThrows | Training.SplitPartitions |
| NeuralNetworkCPP/Utils/Utils.cpp:23-42 | `reorderRows` checks each index only when it reaches it, after writing the rows before it, so a throw leaves data half reordered | data {{1, 2}, {3, 4}}, order {1, 2}: throws with data {{3, 4}, {3, 4}} | every index is checked before the first write, so a throw leaves data unchanged | not executed | Utils.ReorderPartialWrite | Utils.ReorderRowsChecked |
