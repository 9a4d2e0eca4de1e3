# ml-framework in Dafny

This project models the numeric core of a small TypeScript neural-network toolkit. All numbers are Dafny `real`s. It has two halves.

The layered library under `src/` has these parts:
- the vector helpers of `src/utils/math.ts`;
- the `Dense` layer, which runs a forward cache that `backward` consumes and trains with Adam;
- the `SimpleRNN` layer, which does backpropagation through time over a recorded arena of hidden states;
- the feed-forward `NeuralNetwork` and the `RNNModel` built from these layers, including the model checkpoint.

The flat-array network appears in two variants, `src/neural.ts` and the root `neural.ts`. It has these parts:
- matrices stored row by row in a single array;
- `initNN`/`zeroNN`, `fillRand`, `forward` and `getCost`;
- the finite-difference gradients `numGrad`/`finiteDiff`, `backprop` and `learn`.

Each layer and model is an immutable datatype. Each operation is a pure function that returns the updated object together with its result. Where the source's loop order is the point of the code, a loop method follows the source step by step and is proved equal to the functional definition:
- the flat matrix product, `Multiply`;
- the recurrent accumulation loop, `Bptt`;
- the feed-forward backward loop, `BackwardLoop`;
- the root `initNN` loop;
- the finite-difference perturb/measure/restore loops;
- the in-place `backprop`, `learn` and gradient averaging.

Transcendental and undefined functions are passed in as parameters, together with the random generators:
- `Math.tanh`;
- the exponential behind `sigmoid`;
- `Math.sqrt`, typed to return non-negative values;
- `clipValue`, which the source imports but does not define.

Modules:
- `Results` (results.dfy): `Result`/`Option` and the error kinds.
- `Prims` (prims.dfy): the logistic sigmoid built from an abstract positive exponential.
- `Vectors` (vectors.dfy): `multiplyMatrixVector`, `addVectors`, `initializeMatrix`/`initializeVector`, and the transpose and outer-sum helpers of the layers.
- `Activations` (activation.dfy): relu, identity and their derivatives.
- `Loss` (loss.dfy): the gradient seed `output - target` and the mean squared error.
- `Adam` (adam.dfy): one Adam step at step count `t`, applied entry-wise.
- `DenseLayer` (dense.dfy): `Dense`.
- `Recurrent` (recurrent.dfy): `SimpleRNN`.
- `NeuralNetwork` (network.dfy): `src/models/neural.ts`.
- `RnnModel` (rnn_model.dfy): `src/models/rnn.ts`.
- `FlatMatrix` (flat_matrix.dfy): `createMatrix`, `at`/`matAt`, `multiplyMatrix`, `sumMatrix`, `activateMatrix`.
- `FlatNet` (flat_net.dfy): `initNN`, `zeroNN`, `fillRand`, `forward`.
- `FlatCost` (flat_cost.dfy): `getCost`, `numGrad`, `finiteDiff`.
- `FlatTrain` (flat_train.dfy): the reference `backprop` (per-sample chain rule, batch sums, averaging) and `learn`.
- `FlatBackprop` (flat_backprop.dfy): `backprop` in the source's loop order, proved equal to the reference.

The two `getCost` variants differ in what they walk:
- `src/neural.ts` walks the output row, so target entries beyond the output are ignored.
- The root file walks the target row, so output entries beyond the target are ignored.

`Span` selects the variant. `SpansAgree` proves the two equal when the rows have the same width.

## Model

| member | source | states |
|---|---|---|
| Vectors.MatVec | src/utils/math.ts:1-5 | one entry per matrix row; entry i is the sum of row[idx]·vector[idx] over the row |
| Vectors.AddVectors | src/utils/math.ts:7-9 | a vector as long as vec1 whose entry idx is vec1[idx] + vec2[idx] |
| Vectors.InitializeMatrix | src/utils/math.ts:11-15 | exactly `rows` rows of `cols` entries, each the generator's value for its position |
| Vectors.InitializeVector | src/utils/math.ts:17-19 | `size` entries, each the generator's value |
| Vectors.InitializeWithZero | src/utils/math.ts:11-15 | with the generator `() => 0` the matrix is the all-zero matrix |
| Vectors.DotIsSum | src/utils/math.ts:2-4 | the `reduce` fold `sum + val * vector[idx]` from 0 is the sum of the entry-wise products |
| Vectors.MatVecZero | src/utils/math.ts:1-5 | a matrix times the zero vector is the zero vector, one entry per row |
| Vectors.MatVecLinear | src/utils/math.ts:1-9 | multiplyMatrixVector distributes over addVectors |
| Vectors.TransposeMatVec | src/layers/dense.ts:86-92 | `cols` entries; entry k is Σ_j w[j][k]·d[j], the column-k dot product |
| Vectors.TransposeIsAdjoint | src/layers/dense.ts:86-92 | the transposed product is the adjoint of multiplyMatrixVector: ⟨x, Wᵀd⟩ = ⟨Wx, d⟩ |
| Vectors.OuterSumEntry | src/layers/dense.ts:80-85 | entry (j, k) of the accumulated weight gradient is Σ_i dPre_i[j]·input_i[k] |
| Vectors.VectorSumEntry | src/layers/dense.ts:84 | entry j of the accumulated bias gradient is Σ_i dPre_i[j] |
| Activations.ReluFacts | src/layers/dense.ts:13-18 | relu(x) ≥ 0; relu(x) = x for x > 0 and 0 otherwise; dRelu(x) ∈ {0, 1} and is 1 exactly when x > 0 |
| Activations.IdentityFacts | src/layers/dense.ts:10-11 | identity(x) = x and dIdentity(x) = 1 |
| Prims.Sigmoid | src/neural.ts:15-17 | 1 / (1 + e^(-x)) lies strictly between 0 and 1 for any positive exponential |
| Prims.Logistic | neural.ts:24-26 | the sigmoid as a function value, which squashes every input into (0, 1) |
| Loss.Seed | src/models/neural.ts:26-32 | one row per output row, as wide as it, with entry (i, j) = output[i][j] - target[i][j], unscaled |
| Loss.MeanSquares | src/models/neural.ts:25-33 | Σ diff² over all entries divided by the number of rows; non-negative, and 0 when output equals target |
| Loss.SquaresNonNegative | src/models/neural.ts:29 | the accumulated `loss += diff * diff` is non-negative and is 0 when every diff is 0 |
| Adam.PowBelowOne | src/layers/dense.ts:104-106 | β^t < 1 for 0 < β < 1 and t ≥ 1, so the bias corrections never divide by zero |
| Adam.CorrectionIncreasing | src/layers/dense.ts:103-106 | 1 - β^t is positive for t ≥ 1 and grows strictly with t, staying below 1 |
| Adam.Step | src/layers/dense.ts:98-108 | the new first moment lies between the old one and the gradient; the second moment stays non-negative; the parameter moves against the sign of the new first moment and stays put when it is 0 |
| Adam.FirstStepUnbiased | src/layers/dense.ts:98-108 | from zero moments at t = 1 the bias-corrected step is lr·g / (sqrt(g²) + ε) and the moments are (1-β1)·g and (1-β2)·g² |
| Adam.NewMatrix | src/layers/dense.ts:41-44 | a parameter matrix with zero moment tensors of the same shape |
| Adam.NewVector | src/layers/dense.ts:42-46 | a parameter vector with zero moment vectors of the same length |
| Adam.StepMatrix | src/layers/dense.ts:96-109 | every weight entry takes exactly one Adam step on its own gradient at the shared step count; shapes are kept |
| Adam.StepVector | src/layers/dense.ts:110-118 | every bias entry takes exactly one Adam step on its own gradient; the length is kept |
| Adam.UpdateMatrix | src/layers/dense.ts:80-83 | entry (j, k) is one Adam step on Σ_i dPre_i[j]·x_i[k] divided by the batch size |
| Adam.UpdateVector | src/layers/dense.ts:84 | entry j is one Adam step on Σ_i dPre_i[j] divided by the batch size |
| DenseLayer.New | src/layers/dense.ts:35-47 | weights are outputSize×inputSize and biases have outputSize entries, both from the generators; all four moments are zero; adamT = 0; nothing is cached |
| DenseLayer.PreActivation | src/layers/dense.ts:53-54 | entry j is Σ_k weights[j][k]·x[k] + biases[j] |
| DenseLayer.Forward | src/layers/dense.ts:49-58 | one output of width outputSize per sample, each entry the activation of the pre-activation; the cache holds the batch and exactly one pre-activation per sample; nothing else changes |
| DenseLayer.InputGradient | src/layers/dense.ts:86-92 | batch×inputSize, with dInput[i][k] = Σ_j w[j][k]·dPre_i[j] |
| DenseLayer.Backward | src/layers/dense.ts:60-122 | fails with "No forward pass input recorded." exactly when nothing is cached; otherwise returns batch×inputSize gradients, bumps adamT by exactly one, and keeps the cache, sizes, activation and parameter shapes |
| DenseLayer.BackwardUpdates | src/layers/dense.ts:73-119 | the input gradients use the weights from before the update; every weight and bias takes one Adam step at the same adamT on its batch-summed gradient divided by the batch size |
| DenseLayer.InputGradientIsAdjoint | src/layers/dense.ts:86-92 | each returned input-gradient row is the adjoint of the pre-update weights applied to dPre: ⟨x, dInput[i]⟩ = ⟨W·x, dPre_i⟩ |
| DenseLayer.ForwardDependsOnlyOnParams | src/layers/dense.ts:49-58 | forward's output depends only on sizes, activation, weights and biases, not on moments, step counter or cache |
| DenseLayer.Serialize | src/layers/dense.ts:124-129 | records exactly the weights and biases |
| DenseLayer.Load | src/layers/dense.ts:131-134 | replaces weights and biases as given and keeps moments, cache, activation and step counter |
| DenseLayer.LoadSerialize | src/layers/dense.ts:124-134 | loading a layer's own checkpoint changes nothing; serializing after a load gives back the checkpoint |
| Recurrent.New | src/layers/recurrent.ts:26-45 | inputWeights hiddenSize×inputSize, recurrentWeights hiddenSize×hiddenSize, biases hiddenSize, from the generators; all moments zero; zero hidden state; empty caches; adamT = 0 |
| Recurrent.Cell | src/layers/recurrent.ts:55-64 | h[i] = tanh(Σ inputWeights[i]·x + Σ recurrentWeights[i]·h_prev + biases[i]) |
| Recurrent.Prev | src/layers/recurrent.ts:109-110 | the previous hidden state is the zero vector at t = 0 and the recorded state t - 1 otherwise |
| Recurrent.Hidden | src/layers/recurrent.ts:52-67 | one hidden state per step, each the cell applied to the previous state and the step's input |
| Recurrent.Forward | src/layers/recurrent.ts:47-69 | the caches become exactly this sequence and its hidden states, so nothing carries over from an earlier call; T outputs of width hiddenSize, each equal to the recorded hidden state; the final state is the last output (zero for an empty sequence); parameters, moments and counter are untouched |
| Recurrent.ForwardRecurrence | src/layers/recurrent.ts:48-66 | each output is the cell applied to the previous output (zero before the first) and that step's input |
| Recurrent.HiddenDependsOnlyOnParams | src/layers/recurrent.ts:52-67 | the hidden states depend only on the three parameter tensors, not on moments, caches or the old hidden state |
| Recurrent.DPreIsCausal | src/layers/recurrent.ts:91-96 | dPre at step t depends only on dOut at steps t and later |
| Recurrent.Prevs | src/layers/recurrent.ts:109-110 | one previous hidden state per recorded step |
| Recurrent.InputGradients | src/layers/recurrent.ts:117-123 | T rows of inputSize entries, dInputs[t][j] = Σ_i inputWeights[i][j]·dPre_t[i] |
| Recurrent.Bptt | src/layers/recurrent.ts:73-133 | the loop from t = T-1 down to 0 yields the input-weight, recurrent-weight and bias gradients summed over all steps, and each step's input gradients from the pre-update input weights |
| Recurrent.Backward | src/layers/recurrent.ts:71-179 | adamT grows by exactly one; only the three parameter tensors and their moments change; the result has T rows of inputSize entries |
| Recurrent.BackwardUpdates | src/layers/recurrent.ts:136-176 | every input-weight, recurrent-weight and bias entry takes one Adam step at the same adamT on its accumulated gradient divided by T; input gradients use the pre-update weights |
| Recurrent.Update | src/layers/recurrent.ts:136-178 | the update phase changes only the parameter tensors and moments and bumps adamT once |
| Recurrent.BackwardInPlace | src/layers/recurrent.ts:71-179 | accumulating every gradient first and updating afterwards gives exactly the reference `Backward` |
| Recurrent.Serialize | src/layers/recurrent.ts:181-187 | records exactly the three parameter tensors |
| Recurrent.Load | src/layers/recurrent.ts:189-193 | replaces the three parameter tensors and keeps everything else |
| Recurrent.LoadSerialize | src/layers/recurrent.ts:181-193 | loading its own checkpoint changes nothing; serializing after a load gives back the checkpoint |
| NeuralNetwork.New | src/models/neural.ts:7-13 | layerSizes.length - 1 relu layers, layer i mapping layerSizes[i] to layerSizes[i+1], so consecutive layers fit |
| NeuralNetwork.Forward | src/models/neural.ts:15-21 | every layer changes only its cache and ends with a batch of the input's size; the output is as wide as the last layer |
| NeuralNetwork.ForwardFeeds | src/models/neural.ts:15-21 | layer i runs its own forward on exactly the output of layer i-1 (the input for i = 0), and the chain returns the last layer's output |
| NeuralNetwork.Backward | src/models/neural.ts:34-37 | backward never fails on a forward-run chain; every layer takes exactly one step, keeping its cache, sizes and activation |
| NeuralNetwork.BackwardUnfold | src/models/neural.ts:34-37 | the last layer is stepped first and the layers before it receive the gradient it returned |
| NeuralNetwork.BackwardLoop | src/models/neural.ts:34-37 | the loop from the last layer to the first, each call fed the previous call's result, updates the layers as the backward sweep does and ends with the same gradient |
| NeuralNetwork.SeedAccepted | src/models/neural.ts:26-36 | the unscaled diff rows are a gradient the last layer accepts |
| NeuralNetwork.LossAndSweep | src/models/neural.ts:25-38 | the loss is the mean squared error of the output, hence non-negative, and the sweep is seeded with output - target |
| NeuralNetwork.Train | src/models/neural.ts:23-39 | the returned loss comes from the forward pass made before any update and is non-negative; the layers are those of the backward sweep seeded with output - target; the chain stays intact |
| RnnModel.New | src/models/rnn.ts:13-20 | stores the three sizes and builds SimpleRNN(inputSize, hiddenSize) followed by Dense(hiddenSize, outputSize, identity, dIdentity) |
| RnnModel.Forward | src/models/rnn.ts:22-25 | the recurrent layer's forward, then the dense layer's forward on its outputs; one output of width outputSize per step |
| RnnModel.ForwardIsAffine | src/models/rnn.ts:22-25 | each output entry is the identity-activated affine map of that step's hidden state |
| RnnModel.Backward | src/models/rnn.ts:43-44 | Dense backward runs first and succeeds; the recurrent backward gets Dense's returned gradient; each step counter grows by one |
| RnnModel.Train | src/models/rnn.ts:27-46 | loss = Σ diff² / sequence length from the pre-update forward pass, non-negative; the model is that pass's model stepped backward on output - target |
| RnnModel.Serialize | src/models/rnn.ts:48-59 | type "RNNModel", an architecture equal to the three sizes, and both layers' parameters |
| RnnModel.Load | src/models/rnn.ts:60-68 | fails with an architecture mismatch exactly when any of the three sizes differs, and then changes nothing; otherwise both layers load their parts |
| RnnModel.LoadOwnCheckpoint | src/models/rnn.ts:48-68 | loading a model's own serialization succeeds and leaves the model unchanged |
| RnnModel.LoadRestoresPredictions | src/models/rnn.ts:48-68 | loading another same-architecture model's checkpoint passes the architecture comparison and then predicts exactly what that model predicts |
| FlatMatrix.Index | src/neural.ts:70-72 | at(m, r, c) = r·cols + c lies inside the data for r < rows, c < cols |
| FlatMatrix.IndexSplit | neural.ts:50-52 | every data index is at(m, r, c) for exactly r = idx / cols and c = idx % cols |
| FlatMatrix.IndexJoin | neural.ts:50-56 | at(m, r, c) splits back into row r and column c |
| FlatMatrix.Create | src/neural.ts:19-25 | rows·cols entries, every one equal to `value` |
| FlatMatrix.Tabulate | src/neural.ts:19-25 | a rows×cols matrix whose entry (r, c) is the given function's value |
| FlatMatrix.Multiply | src/neural.ts:35-48 | throws "Columns should equal rows", then "Dst rows differ", then "Dst cols differ", in that order; succeeds exactly when all three shapes fit, and then entry (i, j) is Σ_k a[i][k]·b[k][j] |
| FlatMatrix.MultiplyOverwrites | neural.ts:58-71 | the product does not depend on what dst held before |
| FlatMatrix.MultiplyInPlace | neural.ts:58-71 | the triple loop that zeroes and accumulates each dst entry computes exactly `Multiply` |
| FlatMatrix.AccumulateEntry | src/neural.ts:42-45 | the inner k loop leaves Σ_k a[i][k]·b[k][j] at dst's (i, j) and changes nothing else |
| FlatMatrix.SumInto | src/neural.ts:50-56 | a keeps its shape and entry (i, j) becomes a[i][j] + b[i][j] |
| FlatMatrix.Activate | src/neural.ts:58-64 | every entry is replaced by its sigmoid, and the shape is kept |
| FlatMatrix.LayerEntry | src/neural.ts:77-79 | entry j of a layer is sigmoid(Σ_k a[k]·w[k][j] + b[j]) |
| FlatMatrix.AllZero | src/neural.ts:19-25 | a well-formed matrix whose entries are all 0 is createMatrix(rows, cols) |
| FlatNet.ZeroRows | src/neural.ts:90 | one 1×arch[k] zero row per architecture entry |
| FlatNet.ZeroWeights | src/neural.ts:101-103 | arch.length - 1 zero weight matrices, matrix i of shape arch[i]×arch[i+1] |
| FlatNet.ZeroBiases | src/neural.ts:104 | arch.length - 1 zero rows, row i of width arch[i+1] |
| FlatNet.DrawnWeights | src/neural.ts:91-93 | weight matrix i is arch[i]×arch[i+1] and entry idx is the generator's value |
| FlatNet.InitNN | src/neural.ts:88-96 | layers = arch.length; as[k] is 1×arch[k]; ws[i] is arch[i]×arch[i+1] with drawn entries; bs[i] is a 1×arch[i+1] zero row |
| FlatNet.ZeroNN | src/neural.ts:98-106 | the same shapes as InitNN with every weight zero |
| FlatNet.ZeroNNIsZeroDraw | src/neural.ts:88-106 | zeroNN is initNN with the generator that always draws 0 |
| FlatNet.ZeroArray | src/neural.ts:84-86 | n zeros |
| FlatNet.InitNNRoot | neural.ts:89-122 | the root loop builds exactly zeroNN(layers): as[i] 1×layers[i], ws[i-1] layers[i-1]×layers[i], bs[i-1] 1×layers[i], all zero, layers = layers.length |
| FlatNet.FillRand | neural.ts:40-48 | every weight and bias matrix of the first layers - 1 links gets rows·cols fresh draws and keeps its rows and cols; nothing else changes |
| FlatNet.FillRandKeepsShape | neural.ts:40-48 | fillRand keeps every shape of a well-shaped network |
| FlatNet.Layer | src/neural.ts:74-81 | the activation row k is 1×arch[k] |
| FlatNet.LayerInUnitInterval | src/neural.ts:76-80 | with a squashing sigmoid every activation after the input row lies in (0, 1) |
| FlatNet.LayerIgnoresActivations | src/neural.ts:74-81 | what forward computes does not depend on the activation rows it overwrites |
| FlatNet.Forward | src/neural.ts:74-82 | forward changes only the activation rows; row k is the layer-k activation of the input; it returns the last row |
| FlatCost.SampleError | src/neural.ts:113-117 | a sample's Σ (out - target)² over the walked entries is non-negative |
| FlatCost.ExactSampleError | neural.ts:150-152 | a sample whose walked entries match costs nothing |
| FlatCost.GetCost | src/neural.ts:108-121 | the cost is the mean of the samples' squared errors and is non-negative |
| FlatCost.TotalNonNegative | neural.ts:146-155 | the accumulated cost over any prefix of the samples is non-negative |
| FlatCost.PerfectFitCostsNothing | neural.ts:146-155 | a network that reproduces every target has cost 0 |
| FlatCost.SpansAgree | neural.ts:146-155 | walking the output (src) and walking the target (root) give the same cost when the rows have the output's width |
| FlatCost.CostIgnoresActivations | src/neural.ts:108-121 | the cost does not depend on the activation rows left by earlier forward passes |
| FlatCost.RestoreWeight | src/neural.ts:131-135 | perturbing a weight and writing back the saved value gives back the network |
| FlatCost.RestoreBias | src/neural.ts:140-143 | perturbing a bias and writing back the saved value gives back the network |
| FlatCost.WeightLoop | src/neural.ts:129-137 | each gradient entry of weight matrix i is (cost with that weight + eps - cost) / eps; the weights and biases are restored |
| FlatCost.BiasLoop | src/neural.ts:139-144 | each gradient entry of bias row i is (cost with that bias + eps - cost) / eps; the weights and biases are restored |
| FlatCost.LinkSlopes | src/neural.ts:128-145 | one link's weight and bias slopes, all measured against the unperturbed network |
| FlatCost.Slopes | neural.ts:169-185 | every weight and bias gradient entry is its finite-difference slope; the parameters are as they were |
| FlatCost.NumGrad | src/neural.ts:123-148 | with eps = 1e-4 and the output-walking cost: a gradient shaped like the network, every entry the finite-difference slope, the parameters restored |
| FlatCost.FiniteDiff | neural.ts:166-187 | with any eps ≠ 0 and the target-walking cost: the same, starting from the zero network |
| FlatTrain.Seed | src/neural.ts:161-166 | the output-row gradient is out[j] - target[j], and 0 where the target is shorter |
| FlatTrain.WeightSums | src/neural.ts:168-181 | entry (k, j) of link i's summed weight gradient is Σ over samples of 2·da·a(1-a)·prevAct[k] |
| FlatTrain.BiasSums | src/neural.ts:172 | entry j of link i's summed bias gradient is Σ over samples of 2·da·a(1-a) |
| FlatTrain.Backprop | src/neural.ts:150-197 | the gradient has the network's shape |
| FlatTrain.BackpropWeight | src/neural.ts:184-190 | each weight gradient is its sum over the samples divided by ins.length |
| FlatTrain.BackpropBias | src/neural.ts:191-193 | each bias gradient is its sum over the samples divided by ins.length |
| FlatTrain.BackpropActs | src/neural.ts:157-179 | the returned activation gradients are those of the last sample |
| FlatTrain.GradAZero | src/neural.ts:161-179 | on a sample the network reproduces, every activation gradient is 0 |
| FlatTrain.DeltaZero | src/neural.ts:168-172 | on a sample the network reproduces, every 2·da·a(1-a) term is 0 |
| FlatTrain.WeightsZero | src/neural.ts:184-190 | on data the network fits exactly, every weight gradient matrix is zero |
| FlatTrain.BiasesZero | src/neural.ts:191-193 | on data the network fits exactly, every bias gradient row is zero |
| FlatTrain.ExactFitZeroGradient | src/neural.ts:150-197 | on data the network fits exactly, backprop returns zeroNN |
| FlatTrain.Learn | src/neural.ts:199-212 | learn keeps every shape and the activation rows |
| FlatTrain.LearnEntries | src/neural.ts:199-212 | every weight and bias entry of every link drops by rate times its gradient entry |
| FlatTrain.LearnInverse | src/neural.ts:199-212 | learning with rate r and then -r restores the network |
| FlatTrain.LearnZero | neural.ts:231-244 | learning from a zero gradient changes nothing |
| FlatTrain.TrainingStepAtExactFit | src/neural.ts:150-212 | at an exact fit, a backprop-then-learn step leaves the network unchanged |
| FlatTrain.NudgeInPlace | src/neural.ts:201-206 | the j, k loop over a weight matrix computes the entry-wise w - rate·g |
| FlatTrain.NudgeRowInPlace | src/neural.ts:208-210 | the k loop over a bias row computes the entry-wise b - rate·g |
| FlatTrain.LearnInPlace | neural.ts:231-244 | the in-place learn loop computes exactly `Learn` |
| FlatTrain.DivideInPlace | neural.ts:218-222 | the j, k loop divides every weight gradient entry by ins.length |
| FlatTrain.DivideRowInPlace | neural.ts:223-225 | the k loop divides every bias gradient entry by ins.length |
| FlatTrain.AverageInPlace | src/neural.ts:184-194 | the averaging loops compute exactly `Average` |
| FlatBackprop.ColumnBackward | src/neural.ts:174-179 | the k loop adds 2·da·a(1-a)·prevAct[k] to weight gradient (k, j) and 2·da·a(1-a)·w[k][j] to activation gradient k |
| FlatBackprop.UnitBackward | src/neural.ts:169-180 | one unit j of layer l adds its bias term and its column of weight and back-propagated terms |
| FlatBackprop.LinkBackward | src/neural.ts:169-180 | after all units of layer l, the previous activation gradient is the reference one, and link l-1's weight and bias sums include this sample |
| FlatBackprop.SeedLast | src/neural.ts:161-166 | writing diff = out[j] - target[j] over the target row gives the reference seed |
| FlatBackprop.SampleBackward | src/neural.ts:157-181 | for one sample: reset, seed and the layer loop leave the reference activation gradients and add this sample to every weight and bias sum |
| FlatBackprop.SampleLoop | src/neural.ts:153-182 | after all samples the sums are the reference sums, and the activation rows are those of the last sample's forward pass |
| FlatBackprop.Finish | src/neural.ts:184-194 | dividing the sums by ins.length gives the reference `Backprop` |
| FlatBackprop.BackpropInPlace | neural.ts:189-229 | the whole in-place backprop returns exactly the reference `Backprop`; the network changes only in its activation rows, which hold the last sample's forward pass |

## Left out

- Console output: `printNN`, `printMatrix` and the `console.log(cost / ins.length)` in `src/neural.ts` `backprop`. The squared-error tally `cost` in that function exists only for the print.
- Drivers: `src/index.ts`, `src/run_best_model.ts` and `logic-gates.ts`, which cover data generation, training loops, file I/O and exit codes.
- `src/utils/activation.ts` is not part of this model. Its `tanh` is passed in as a parameter, and its `relu` duplicates the one in `src/layers/dense.ts`.
- The interface and abstract base class, `src/layers/layer.interface.ts` and `src/models/model.abstract.ts`, hold only signatures.
- Floating point: all arithmetic is exact real arithmetic. IEEE rounding, overflow, NaN and Infinity are not modelled.
- Accuracy and convergence of training are not modelled, and neither is how well finite differences approximate derivatives.
- `Math.tanh`, `Math.E ** x` and `Math.sqrt` are passed in as functions with no properties beyond their signatures:
  - the exponential is positive;
  - `sqrt` is non-negative.
- `clipValue` is used but not defined in `src/utils/math.ts`, so it is an arbitrary function parameter. No clipping bound is proved.
- `Math.random` is replaced by generator parameters that choose any value per position. Only the shapes of random initial values are promised.
- NaN-producing edge cases are preconditions, not modelled behaviour:
  - the recurrent `backward` needs T > 0; the source divides by T = 0;
  - the dense `backward` needs a non-empty cached batch;
  - the flat `getCost`, `numGrad`, `finiteDiff` and `backprop` need at least one sample;
  - `finiteDiff` needs eps ≠ 0.
- The flat `forward` writes the caller's input into `as[0]` unchecked. The model requires the input length to equal `architecture[0]`.
- The flat `learn` indexes `g` by `nn`'s shape. The model requires `g` to have the same shape as `nn`.
- The root `initNN` reads `layers[0]` unchecked. The model requires a non-empty architecture.
- Missing or ragged operands are preconditions: vector helpers need the vector at least as long as each row, and the layers need rows as wide as the layer. `src/utils/math.ts` performs no shape check. A longer operand's extra entries are ignored. A row that is too short gives NaN in the source. A whole missing row makes the source throw a TypeError instead: `dOut[i].map` in src/layers/dense.ts:76 and `dOut[t].map` in src/layers/recurrent.ts:92 when `dOut` has fewer rows than the cached batch or sequence, and `target[i][j]` in src/models/neural.ts:28 and src/models/rnn.ts:37 when `target` has fewer rows than the output. The model excludes these throws through the preconditions `DenseLayer.GradientFits`, `Recurrent.GradientFits` and `Loss.TargetFits`.
- FlatTrain.Seed: for a target row longer than the output, the source writes NaN entries past the end of `g.as[last]`. The model writes only within the output's width and treats missing target entries as no contribution.
- FlatCost.WeightLoop, FlatCost.BiasLoop, FlatCost.LinkSlopes, FlatCost.Slopes, FlatCost.NumGrad and FlatCost.FiniteDiff: the activation rows `nn.as` that `getCost`'s forward passes leave behind are not tracked. Only weights, biases and shapes are promised, and the cost is proved not to depend on the activation rows.
- FlatNet.FillRand: the root `fillRand` re-reads `rows`/`cols` for each redraw. The model states the count `rows·cols` and draws each entry from the generator.
- Loss.MeanSquares: only "0 when output equals target" is stated, not the converse "0 only when output equals target".
- Aliasing: checkpoints alias live arrays in the source (`serialize` returns the layer's own arrays). In the model they are plain values, and the untyped payload of `load` is a typed record. `load` on a layer performs no shape check, so a checkpoint that does not fit is accepted and then breaks the layer invariant. The model states this as "a fitting checkpoint keeps the layer valid".
- Mutation through shared references: `forward` in the flat variants assigns the caller's array to `as[0].data`, so later writes would alias it. The model copies values.
