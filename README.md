# finge-rs trainer core, modelled in Dafny

This project models the neural-network trainer of finge-rs (`src/nn.rs`). That is a
small fully-connected feed-forward network whose parameters are arrays indexed by
layer:

- `weights[0]` is a 0×0 placeholder;
- `weights[i]` is a `layer_sizes[i-1]` × `layer_sizes[i]` matrix;
- `biases[i]` and `activation_coeffs[i]` belong to layer `i`. `from_definition` puts 0.0 in front of the
  definition's coefficients, so layer `i` uses definition coefficient `i-1`. A definition may give more
  coefficients than that; the extra ones are never read.

The model covers:

- building a network from a definition, and the zero accumulators (`NetworkData`);
- the forward pass `feed_forward` / `eval` / `eval_to_layer`, and `backpropagate` (`Propagation`);
- the per-example gradient (`compute_weight_update`), its batch-wide sum with
  `weight_sum` / `bias_sum`, and the gradient step with L2 shrinkage and
  momentum, `update_weights` (`Gradients`, `Batches`);
- the validation error and the cost (`Batches`, `Training`);
- splitting a data set into training and validation parts (`Splitting`);
- the training loop with early stopping and restoration of the best validated
  network (`Training`, and the `Network` class in `Networks`).

Floats are modelled as `real`. `exp`, `tanh` and `cosh` are arbitrary functions
supplied in a `Libm` value. The network object is the class `Networks.Network`;
its methods change its fields in place. Every method is proved against a
function of its inputs:

- `UpdateWeights` against `Updated`;
- `Train` against `Trained`, the final state of the loop run as a state machine.

The properties the trainer promises are lemmas about those functions.

The training loop is stated once for any `Trainer`: a learning step and a
validation cost, given as function values. `Learner` is the trainer's own pair.
`Training.LearnerNext` shows that one step of the state machine with that pair is
`Epoch` after `TrainStep`. The batch supplier is a finite sequence of
batches; the next call after the last one answers "no more data". The
cancellation flag is a function from the epoch number to a boolean, read at
every test of the loop condition.

Behaviour of `src/nn.rs` worth knowing:

- `backpropagate` walks down to layer 0, not to layer 1 (`src/nn.rs:343`).
  `delta[0]` is zero because `activation_coeffs[0]` is the inserted 0.0
  (`Propagation.InputDeltaVanishes`).
- The tanh derivative is applied to the pre-activation sums, because
  `backpropagate` is given `layer_inputs` (`src/nn.rs:209`).
- The regularization term divides each matrix's sum of squares by the number of
  examples, not by the number of entries. It then divides by
  `weights.len()`, which counts the placeholder (`src/nn.rs:165`).
- The L2 factor is applied to `weights[1]` whatever λ is. It is 1 when λ is 0.
- `eval_impl` ignores its `stop_at` argument, so `eval_to_layer(k)` reads layer
  `k-1` of a complete pass (`src/nn.rs:286-291`, `302-308`).

## Model

| member | source | states |
|---|---|---|
| Activation.SigmoidBounds | src/nn.rs:34 | a sigmoid activation lies strictly between 0 and 1 |
| Activation.DerivativeSign | src/nn.rs:40-46 | for sigmoid and tanh the derivative has the sign of the coefficient, and is 0 for a 0 coefficient |
| Activation.IdentitySlopeExact | src/nn.rs:36-44 | the identity derivative is the exact slope of the identity activation |
| Linalg.ZeroVector | src/nn.rs:99 | a zero vector of the requested length |
| Linalg.ZeroMatrix | src/nn.rs:68 | a zero matrix of the requested shape |
| Linalg.VecMat | src/nn.rs:314-318 | a row vector times a matrix has one entry per column |
| Linalg.MatVec | src/nn.rs:344 | a matrix times a column vector has one entry per row |
| Linalg.Outer | src/nn.rs:269 | entry (i, j) of the outer product is `u[i] * v[j]` |
| Linalg.ZipAdd | src/nn.rs:322 | zipping addition truncates to the shorter vector and adds entrywise |
| Linalg.ZipMul | src/nn.rs:341-346 | zipping multiplication truncates to the shorter vector and multiplies entrywise |
| Linalg.VecSub | src/nn.rs:207 | vector difference, entrywise |
| Linalg.MatAdd | src/nn.rs:110 | in-place matrix addition, entrywise |
| Linalg.NormSquaredNonNegative | src/nn.rs:208 | a squared norm is never negative |
| Linalg.SumNonNegative | src/nn.rs:227 | a sum of non-negative errors is non-negative |
| Linalg.SumOfZeros | src/nn.rs:227 | a sum of zero errors is zero |
| Linalg.MeanNonNegative | src/nn.rs:222-228 | a mean of non-negative errors is non-negative |
| Linalg.MeanOfZeros | src/nn.rs:222-228 | a mean of zero errors is zero |
| Linalg.SumSquaresNonNegative | src/nn.rs:165 | the sum of squared weights of a matrix is never negative |
| Linalg.VecAddCommutes | src/nn.rs:117 | vector accumulation does not depend on operand order |
| Linalg.VecAddAssociates | src/nn.rs:117 | vector accumulation does not depend on grouping |
| Linalg.VecAddZero | src/nn.rs:213 | a zero vector is neutral for accumulation |
| Linalg.MatAddCommutes | src/nn.rs:110 | matrix accumulation does not depend on operand order |
| Linalg.MatAddAssociates | src/nn.rs:110 | matrix accumulation does not depend on grouping |
| Linalg.MatAddZero | src/nn.rs:213 | a zero matrix is neutral for accumulation |
| Linalg.DotZeroRight | src/nn.rs:344 | a dot product with a zero vector is zero |
| Linalg.MatVecZero | src/nn.rs:344 | a matrix times a zero vector is a zero vector |
| Linalg.NormSquaredOfZero | src/nn.rs:208 | a zero difference has squared norm zero |
| NetworkData.SelfPaired | src/nn.rs:171-172 | every vector becomes an example whose input and target are both that vector, in order |
| NetworkData.ParseActivation | src/nn.rs:70-75 | exactly "sigmoid", "tanh" and "id" name the three activation functions; any other name is refused |
| NetworkData.ZeroLayers | src/nn.rs:98-100 | one zero vector per layer, of that layer's size |
| NetworkData.AdjacentZeros | src/nn.rs:68 | one zero matrix per adjacent pair of layers, `ls[i]` × `ls[i+1]` |
| NetworkData.ZeroWeights | src/nn.rs:102-106 | a 0×0 placeholder, then a zero `ls[i-1]` × `ls[i]` matrix at every index i ≥ 1 |
| NetworkData.FromDefinition | src/nn.rs:64-80 | fails exactly for an unrecognized activation name; otherwise the layers are copied, 0.0 is prepended to the coefficients, and weights and biases are zero with the layer-aligned shapes |
| NetworkData.FromDefinitionWellFormed | src/nn.rs:64-80 | positive layer sizes, at least one coefficient per non-input layer and a known name give a well-formed network whose coefficients are 0.0 followed by the definition's |
| NetworkData.PerLayerDefinitionWellFormed | src/nn.rs:64-80 | a definition with one coefficient per layer, the input layer included, builds a well-formed network; its last coefficient is never read |
| Gradients.WeightSum | src/nn.rs:108-113 | result has `delta1`'s length; entry i is `delta1[i] + delta2[i]` below both lengths; later entries of `delta1` are unchanged |
| Gradients.BiasSum | src/nn.rs:115-120 | the same, for bias vectors |
| Gradients.CombineSums | src/nn.rs:213-214 | the reduce step adds weight and bias accumulators with `weight_sum` and `bias_sum` |
| Gradients.ZeroContribution | src/nn.rs:213 | the reduce identity fits the layer sizes |
| Gradients.CombineShaped | src/nn.rs:213-214 | combining two layer-aligned contributions keeps the shapes |
| Gradients.CombineCommutes | src/nn.rs:213-214 | combining contributions is commutative |
| Gradients.CombineAssociates | src/nn.rs:213-214 | combining contributions is associative |
| Gradients.CombineZero | src/nn.rs:213-214 | the zero accumulators are neutral on both sides |
| Gradients.Reduce | src/nn.rs:213-214 | the fold of a batch's contributions fits the layer sizes |
| Gradients.ReduceSplit | src/nn.rs:213-214 | reducing a concatenation combines the reductions of the parts, so any split across workers gives the same sum |
| Gradients.ReduceRotate | src/nn.rs:213-214 | reducing `xs + ys` equals reducing `ys + xs` |
| Gradients.ReducePermutation | src/nn.rs:213-214 | any two batches with the same multiset of contributions reduce to the same result, so the order in which workers finish does not matter |
| Gradients.ReduceAtRest | src/nn.rs:213-214 | contributions that are all zero reduce to zero |
| Gradients.ReduceSnoc | src/nn.rs:213-214 | reducing one more contribution combines it onto the previous sum |
| Gradients.PartialWeightUpdateStart | src/nn.rs:265-266 | before the loop both results are the zero accumulators |
| Gradients.PartialWeightUpdateStep | src/nn.rs:268-272 | iteration `it` sets index `it` to the outer product and the delta and leaves every other index alone |
| Gradients.ComputeWeightUpdate | src/nn.rs:262-275 | the loop computes `WeightUpdate` |
| Gradients.WeightUpdateEntries | src/nn.rs:265-274 | index 0 stays zero; for it ≥ 1 the weight update is `layers[it-1] ⊗ delta[it]` and the bias update is `delta[it]`; indices beyond the layers stay zero |
| Gradients.WeightUpdateShaped | src/nn.rs:262-275 | layer-aligned layers and deltas give layer-aligned updates |
| Gradients.WeightUpdateOfZeroSignals | src/nn.rs:262-275 | zero error signals give zero updates |
| Gradients.StepVector | src/nn.rs:364-368 | the step keeps a vector's length |
| Gradients.StepMatrix | src/nn.rs:355-362 | the step keeps a matrix's shape |
| Gradients.MomentumVector | src/nn.rs:377-381 | the momentum step keeps a vector's length |
| Gradients.MomentumMatrix | src/nn.rs:371-375 | the momentum step keeps a matrix's shape |
| Gradients.SteppedWeights | src/nn.rs:355-362 | every weight matrix keeps its shape |
| Gradients.SteppedBiases | src/nn.rs:364-368 | every bias vector keeps its length |
| Gradients.MomentumWeights | src/nn.rs:371-375 | every weight matrix keeps its shape |
| Gradients.MomentumBiases | src/nn.rs:377-381 | every bias vector keeps its length |
| Gradients.Updated | src/nn.rs:352-383 | the update keeps the network well formed and changes nothing but weights and biases |
| Gradients.UpdatedWeightEntry | src/nn.rs:355-375 | each weight is shrunk by `1 - λη/N` only in `weights[1]`, reduced by `dw/N·η`, and reduced by `last/N·μ` only when a momentum rate is set |
| Gradients.UpdatedBiasEntry | src/nn.rs:364-381 | each bias is reduced by `db/N·η`, never shrunk, and reduced by `last/N·μ` only when a momentum rate is set |
| Gradients.UpdatedAtRest | src/nn.rs:352-383 | zero sums, λ = 0 and zero previous sums (when momentum is set) leave the network unchanged |
| Gradients.ApplyStepToVector | src/nn.rs:364-368 | the in-place loop over one bias vector computes `StepVector` |
| Gradients.ApplyStepToMatrix | src/nn.rs:355-362 | the in-place loop over one weight matrix computes `StepMatrix`, shrinking when asked |
| Gradients.ApplyMomentumToVector | src/nn.rs:377-381 | the in-place momentum loop over one bias vector computes `MomentumVector` |
| Gradients.ApplyMomentumToMatrix | src/nn.rs:371-375 | the in-place momentum loop over one weight matrix computes `MomentumMatrix` |
| Propagation.LayerInput | src/nn.rs:314-322 | entry k of a layer's input is the dot product of the previous layer with column k of `weights[j]`, plus `biases[j][k]` |
| Propagation.ActivateLayer | src/nn.rs:323 | activation is applied entrywise and keeps the length |
| Propagation.Forward | src/nn.rs:313-324 | layer 0 is never written; layers 1..k get their sizes; later layers are untouched |
| Propagation.ForwardConsistent | src/nn.rs:313-324 | every computed layer is the activation of its input sum, computed from the previous layer |
| Propagation.ForwardPrefixStable | src/nn.rs:313-324 | running further never changes an already computed layer |
| Propagation.ForwardIgnoresStaleBuffers | src/nn.rs:286-291 | the pass depends only on layer 0, not on what the buffers held before |
| Propagation.SigmoidActivationsBounded | src/nn.rs:323 | with sigmoid every computed activation lies strictly between 0 and 1 |
| Propagation.FeedForward | src/nn.rs:310-325 | the loop writes layers 1..stop_at-1 and their input sums as `Forward` describes |
| Propagation.Start | src/nn.rs:202-204 | zero buffers with the example in layer 0 are ready for the pass |
| Propagation.Evaluated | src/nn.rs:286-291 | a full pass keeps the example in layer 0 and gives every layer its size |
| Propagation.Output | src/nn.rs:207 | the last layer of a full pass has the output layer's size |
| Propagation.EvalImpl | src/nn.rs:286-291 | whatever `stop_at` is and whatever the buffers held, every layer ends as in a full pass of the example |
| Propagation.CompletePassEvaluates | src/nn.rs:286-291 | a complete pass over buffers holding an input in layer 0 computes that input's evaluation, whatever the other buffers held |
| Propagation.Eval | src/nn.rs:293-300 | the output is the last layer of a full pass; a single-layer network returns its input |
| Propagation.EvalToLayer | src/nn.rs:302-308 | the result is layer `layer-1` of a full pass |
| Propagation.CompletePassPrefix | src/nn.rs:302-308 | layer j of a full pass equals layer j of a pass stopped at j |
| Propagation.Slopes | src/nn.rs:330-334 | one derivative per input sum, layer by layer |
| Propagation.Delta | src/nn.rs:336-347 | the error signal of layer j has that layer's size |
| Propagation.Deltas | src/nn.rs:336-347 | the error signals are layer-aligned |
| Propagation.ComputeSlopes | src/nn.rs:330-334 | the in-place loop computes `Slopes` |
| Propagation.Backpropagate | src/nn.rs:327-350 | the backward loop computes `Deltas` of the slopes and the output difference |
| Propagation.ZeroErrorZeroDelta | src/nn.rs:338-347 | a zero output difference gives a zero error signal in layer j |
| Propagation.ZeroErrorZeroDeltas | src/nn.rs:338-347 | a zero output difference gives zero error signals in every layer |
| Propagation.InputDeltaVanishes | src/nn.rs:330-346 | with the inserted 0.0 coefficient the input layer's error signal is zero |
| Batches.OutputDiff | src/nn.rs:207 | the output difference has the output layer's size |
| Batches.ExampleDeltas | src/nn.rs:209 | an example's error signals are layer-aligned |
| Batches.ExampleContribution | src/nn.rs:201-211 | an example's contribution is layer-aligned |
| Batches.ExampleErrorNonNegative | src/nn.rs:208 | an example's training error is never negative |
| Batches.ExampleGradient | src/nn.rs:201-211 | the per-example map computes `ExampleContribution` |
| Batches.ExactFitContributesNothing | src/nn.rs:201-211 | an example the network reproduces exactly contributes zero error and zero updates |
| Batches.Contributions | src/nn.rs:199-211 | one contribution per batch example, in order |
| Batches.BatchContribution | src/nn.rs:199-214 | the batch's reduced contribution is layer-aligned |
| Batches.BatchGradient | src/nn.rs:199-214 | the map and reduce compute `BatchContribution` |
| Batches.BatchContributionSplit | src/nn.rs:199-214 | the contribution of a concatenated batch combines those of its parts |
| Batches.ContributionsAppend | src/nn.rs:199-211 | mapping a concatenation concatenates the maps |
| Batches.BatchContributionRotate | src/nn.rs:199-214 | the order of a batch's parts does not change its contribution |
| Batches.FittedBatchContributesNothing | src/nn.rs:199-214 | a batch reproduced exactly contributes zero error and zero updates |
| Batches.ExampleValidationErrorBounds | src/nn.rs:277-284 | an example's validation error is non-negative, and zero when the network reproduces its target |
| Batches.ValidationErrorOf | src/nn.rs:277-284 | the method computes `ExampleValidationError`, whatever the buffers held |
| Batches.ValidationErrors | src/nn.rs:222-226 | one validation error per example, in order |
| Batches.ValidationErrorNonNegative | src/nn.rs:222-228 | the mean validation error is never negative |
| Batches.FittedValidationErrorsZero | src/nn.rs:222-226 | a validation set reproduced exactly has zero error on every example |
| Batches.FittedValidationErrorZero | src/nn.rs:222-228 | a validation set reproduced exactly has mean error zero |
| Batches.MeanValidationError | src/nn.rs:222-228 | the summing loop computes `ValidationError` |
| Splitting.ValidationAmount | src/nn.rs:123 | the amount is the product of ratio and length truncated toward zero, and 0 when the product is below 1 |
| Splitting.ValidationAmountBounded | src/nn.rs:123-126 | a ratio in [0, 1] never asks for more than the data set's length |
| Splitting.Positions | src/nn.rs:129-135 | the listed positions lie inside the data set |
| Splitting.Pick | src/nn.rs:129-135 | picking keeps the order of the positions |
| Splitting.SplitDataSequences | src/nn.rs:122-138 | the training part holds the unsampled positions and the validation part the sampled ones, both in order; the validation part has the requested size; the lengths add up |
| Splitting.PositionsMembership | src/nn.rs:130 | a position is in the validation part iff it was sampled, and in the training part iff it was not |
| Splitting.PositionsIncreasing | src/nn.rs:129 | both parts keep the data set's order |
| Splitting.PositionsLengths | src/nn.rs:129-135 | the two parts' lengths add up to the data set's |
| Splitting.PositionsCountBelow | src/nn.rs:130 | the validation positions below n are the sampled indices below n |
| Splitting.PositionsCount | src/nn.rs:124-130 | a sample inside the data set gives one validation example per sampled index |
| Splitting.SplitLast | src/nn.rs:129-135 | the last example joins exactly one of the two parts, at its end |
| Splitting.SplitIsPartition | src/nn.rs:129-135 | the two parts together hold exactly the data set's examples, as a multiset |
| Splitting.AutoencoderSplitPairs | src/nn.rs:140-156 | splitting vectors and then pairing each with itself equals pairing first and then splitting |
| Training.WeightPenaltyNonNegative | src/nn.rs:165 | the weight penalty is never negative |
| Training.Cost | src/nn.rs:158-166 | zero for zero examples; just the output error when λ is 0 |
| Training.CostAtLeastError | src/nn.rs:158-166 | with λ ≥ 0 the cost is at least the output error |
| Training.Initial | src/nn.rs:182-188 | the loop starts with the network as current and best, no cost yet (+∞) and zero previous sums |
| Training.TrainStep | src/nn.rs:199-218 | the learning step keeps the network well formed and hands back the batch's summed deltas |
| Training.LearnerFits | src/nn.rs:199-230 | the trainer's own learning step and validation are defined on every fitting network and batch |
| Training.Epoch | src/nn.rs:196-252 | the epoch counter goes up; a strictly lower cost records the network and clears the streak, any other cost lengthens the streak; the sums are kept only with momentum |
| Training.NextOutcome | src/nn.rs:197-218 | training on the next supplied batch gives a fitting outcome |
| Training.Next | src/nn.rs:196-252 | one more epoch keeps the state fitting and advances the epoch counter by one |
| Training.Run | src/nn.rs:193-256 | the loop keeps the state fitting and never lowers the epoch counter |
| Training.Trace | src/nn.rs:197-218 | every epoch's outcome fits the layer sizes |
| Training.Trained | src/nn.rs:257-259 | the trained network is well formed with the same layer sizes |
| Training.RunRespectsEpochCap | src/nn.rs:193-196 | the epoch counter never exceeds the epoch cap |
| Training.RunEnds | src/nn.rs:193-256 | the loop ends with its condition false or the supplier exhausted, and the epoch counter equals the number of trained epochs unless the supplier ran out |
| Training.RunStreakBounded | src/nn.rs:232-238 | the failure streak never exceeds the patience |
| Training.RunEndsWithLastNet | src/nn.rs:218 | the current network at the end is the last trained one, or the starting one |
| Training.RunWithoutValidation | src/nn.rs:229-247 | without validation the streak, the best network and the best cost never change |
| Training.RunKeepsMomentumSums | src/nn.rs:249-252 | the previous sums change only with momentum, and then to the last batch's sums |
| Training.FittedBatchIsFixedPoint | src/nn.rs:199-218 | a batch the network reproduces exactly leaves it unchanged without regularization and momentum |
| Training.CostsOf | src/nn.rs:230 | one validation cost per trained epoch, in order |
| Training.LastImprovement | src/nn.rs:232-235 | the last strict improvement is an epoch that was trained |
| Training.LastImprovementIsFirstMinimum | src/nn.rs:232-235 | the last strict improvement over +∞ is the first epoch reaching the minimum cost |
| Training.TracksBestStep | src/nn.rs:232-238 | the best-network record after an epoch extends to the record before it |
| Training.RunTracksBest | src/nn.rs:232-238 | with validation the best network at the end is the one of the last strict improvement |
| Training.FirstMinimumTracked | src/nn.rs:232-235 | starting from +∞, the recorded best network is the first outcome of least cost, or unchanged when no epoch ran |
| Training.TrainedIsBestValidated | src/nn.rs:186-259 | with validation training ends with the first network of least validation cost (every earlier one costs strictly more), or the initial one if no epoch ran |
| Training.TrainedIsLastWithoutValidation | src/nn.rs:218-259 | without validation training ends with the last trained network, or the initial one |
| Training.LearnerSteps | src/nn.rs:199-230 | the trainer's learning step is the update with the batch's summed deltas, and its cost is the validation cost |
| Training.LearnerIsLearner | src/nn.rs:199-230 | the trainer's own pair agrees with `TrainStep` and `ValidationCost` on every fitting network and batch |
| Training.LearnerNext | src/nn.rs:197-238 | an epoch of the trainer's own step is `Epoch` after `TrainStep`, with the new network's validation cost |
| Networks.Network.constructor | src/nn.rs:9-15 | the object holds the given parameters |
| Networks.Network.Restore | src/nn.rs:257-259 | the object's parameters become the snapshot's |
| Networks.Network.UpdateWeights | src/nn.rs:352-383 | the four in-place loops leave exactly `Updated` of the old parameters, and the network stays well formed |
| Networks.Network.TakeStep | src/nn.rs:355-368 | the step loops leave every weight matrix and bias vector stepped, shrinking only `weights[1]`, and nothing else changed |
| Networks.Network.TakeMomentumStep | src/nn.rs:370-381 | the momentum loops leave every weight matrix and bias vector moved against the previous sums, and nothing else changed |
| Networks.Network.Learn | src/nn.rs:199-218 | the batch's sums are computed and the object is updated with them, as `TrainStep` describes |
| Networks.Network.Validate | src/nn.rs:222-230 | the method returns `ValidationCost` of the current parameters |
| Networks.Network.RunEpoch | src/nn.rs:197-252 | one epoch on a batch leaves the object and the loop variables as the state machine's `Next` step |
| Networks.Network.FinishEpoch | src/nn.rs:222-252 | scoring, best-network bookkeeping and carrying the sums leave the loop variables as `Epoch` with the new network's validation cost |
| Networks.Network.Iterate | src/nn.rs:196-255 | one pass of the loop body advances the epoch counter; it reports exhaustion exactly when the supplier has no batch left, and the loop still ends where it would have ended from the state before |
| Networks.Network.TrainWith | src/nn.rs:182-259 | for any trainer that agrees with the trainer's own step, the loop and the restore leave `Trained` of the old parameters |
| Networks.Network.Train | src/nn.rs:177-260 | the loop leaves the object holding `Trained` of its old parameters: the best validated network with validation, the last one without |
| Networks.Network.TrainAutoencoder | src/nn.rs:168-175 | autoencoder training is training on every vector paired with itself |
| Networks.AutoencoderInputs | src/nn.rs:171-172 | every batch and the validation set are paired with themselves, and the flag is passed on |

## Left out

- `assign_random_weights` (`src/nn.rs:82-96`) is not modelled: it draws its values from a random source.
- The random choice of validation indices (`src/nn.rs:124`, `142`) is not modelled. `SplitDataSequences` takes the sample as a set of distinct in-range indices of the requested size.
- The progress report and the training cost it prints (`src/nn.rs:216`, `220`, `240-246`) are not modelled: they are output only.
- Train: requires `epoch_log_period` not to be `Some(0)`, because the report computes `epoch % 0` and the source panics there.
- Train: requires every supplied batch to be non-empty. An empty batch divides by zero in `update_weights` and fills the network with NaN.
- Train: the batch supplier is a finite sequence. A supplier that never runs out, with a flag that is never cleared and no epoch cap, is not modelled.
- The cancellation flag is a function from the epoch number to a boolean. Atomic access and concurrent clearing are not modelled.
- rayon's parallel map and reduce are a sequential fold. Over reals, `ReduceSplit` shows that grouping does not matter and `ReducePermutation` that order does not matter. f32 addition is neither associative nor order-independent, so this does not carry over to floats.
- f32 arithmetic is modelled as exact reals: rounding, NaN and infinities are not modelled. The initial validation cost, +∞, is `None`.
- Eval: requires the input to have the input layer's width; the source panics on any other width (`src/nn.rs:296`, `305`).
- EvalToLayer: requires `1 <= layer <= |layer_sizes|`; the source panics indexing `layers[layer - 1]` otherwise (`src/nn.rs:307`).
- Train: requires every example's input and target to have the input and output layer widths (`InputsFit`). With other widths the source's matrix and vector arithmetic panics, or the arithmetic runs on mismatched lengths (`src/nn.rs:207`, `314-318`).
- The model follows a release build. The debug assertions in `feed_forward` (`src/nn.rs:319-320`) and `validation_error_of` (`src/nn.rs:278`) are neither checked nor added as preconditions; the widths they compare are equal for every well-formed network.
- WellFormed: requires at least as many coefficients as layers. With fewer, `feed_forward` indexes past the coefficients and panics (`src/nn.rs:323`).
- Activation: `exp`, `tanh` and `cosh` are arbitrary functions in `Libm`. The only facts assumed of them are that `exp` and `cosh` are positive.
- FromDefinition: the panic on an unknown activation name is an `Err` result.
- `src/bin/finge-rs.rs`, `src/main.rs` and the serde derives are not part of this model: they are command-line, I/O and persistence glue.
