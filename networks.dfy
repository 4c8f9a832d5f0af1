/**
 * The network object: its parameters are fields that the update and the
 * training loop change in place.
 */
module Networks {
  import opened Linalg
  import opened Activation
  import opened NetworkData
  import opened Gradients
  import opened Propagation
  import opened Batches
  import opened Training

  class Network {
    var layerSizes: seq<nat>
    var activationCoeffs: seq<real>
    var weights: seq<Matrix>
    var biases: seq<Vector>
    var activationFn: ActivationFunction

    /** The parameters the object holds, as a value. */
    function Snapshot(): Net
      reads this
    {
      Net(layerSizes, activationCoeffs, weights, biases, activationFn)
    }

    predicate Valid()
      reads this
    {
      WellFormed(Snapshot())
    }

    /** A network object holding the given parameters. */
    constructor(n: Net)
      ensures Snapshot() == n
    {
      layerSizes, activationCoeffs, weights, biases, activationFn :=
        n.layerSizes, n.activationCoeffs, n.weights, n.biases, n.activationFn;
    }

    /** Replaces every parameter by those of `n`. */
    method Restore(n: Net)
      modifies this
      ensures Snapshot() == n
    {
      layerSizes, activationCoeffs, weights, biases, activationFn :=
        n.layerSizes, n.activationCoeffs, n.weights, n.biases, n.activationFn;
    }

    /**
     * One gradient update: a step on every weight matrix (shrinking only
     * `weights[1]`), then on every bias vector, and, when a momentum rate is
     * configured, a momentum step with the previous sums on every weight
     * matrix and then every bias vector.
     */
    method UpdateWeights(weightUpdateSum: seq<Matrix>, biasUpdateSum: seq<Vector>,
                         lastWeightUpdateSum: seq<Matrix>, lastBiasUpdateSum: seq<Vector>,
                         examples: nat, conf: TrainConfig)
      requires Valid() && UpdateFits(Snapshot(), weightUpdateSum, biasUpdateSum, lastWeightUpdateSum, lastBiasUpdateSum)
      requires examples > 0
      modifies this
      ensures Valid()
      ensures Snapshot() == Updated(old(Snapshot()), weightUpdateSum, biasUpdateSum, lastWeightUpdateSum, lastBiasUpdateSum, examples, conf)
    {
      TakeStep(weightUpdateSum, biasUpdateSum, examples, conf);
      if conf.momentumRate.Some? {
        TakeMomentumStep(lastWeightUpdateSum, lastBiasUpdateSum, examples, conf.momentumRate.value);
      }
    }

    /** The gradient step: every weight matrix, then every bias vector, moves against its summed delta. */
    method TakeStep(weightUpdateSum: seq<Matrix>, biasUpdateSum: seq<Vector>, examples: nat, conf: TrainConfig)
      requires Valid() && WeightsShaped(weightUpdateSum, layerSizes) && BiasesShaped(biasUpdateSum, layerSizes)
      requires examples > 0
      modifies this
      ensures Valid()
      ensures Snapshot() == old(Snapshot().(weights := SteppedWeights(layerSizes, weights, weightUpdateSum, conf, examples),
                                            biases := SteppedBiases(layerSizes, biases, biasUpdateSum, conf, examples)))
    {
      ghost var n0 := Snapshot();
      ghost var ls := layerSizes;
      ghost var w1 := SteppedWeights(ls, n0.weights, weightUpdateSum, conf, examples);
      ghost var b1 := SteppedBiases(ls, n0.biases, biasUpdateSum, conf, examples);
      for it := 0 to |weights|
        invariant layerSizes == ls && biases == n0.biases && |weights| == |ls|
        invariant activationCoeffs == n0.activationCoeffs && activationFn == n0.activationFn
        invariant forall k :: 0 <= k < it ==> weights[k] == w1[k]
        invariant forall k :: it <= k < |ls| ==> weights[k] == n0.weights[k]
      {
        var w := ApplyStepToMatrix(weights[it], weightUpdateSum[it], it == 1, conf, examples);
        weights := weights[it := w];
      }
      for it := 0 to |biases|
        invariant layerSizes == ls && weights == w1 && |biases| == |ls|
        invariant activationCoeffs == n0.activationCoeffs && activationFn == n0.activationFn
        invariant forall k :: 0 <= k < it ==> biases[k] == b1[k]
        invariant forall k :: it <= k < |ls| ==> biases[k] == n0.biases[k]
      {
        var b := ApplyStepToVector(biases[it], biasUpdateSum[it], false, conf, examples);
        biases := biases[it := b];
      }
    }

    /** The momentum step: every weight matrix, then every bias vector, moves against the previous epoch's sum. */
    method TakeMomentumStep(lastWeightUpdateSum: seq<Matrix>, lastBiasUpdateSum: seq<Vector>, examples: nat, momentum: real)
      requires Valid() && WeightsShaped(lastWeightUpdateSum, layerSizes) && BiasesShaped(lastBiasUpdateSum, layerSizes)
      requires examples > 0
      modifies this
      ensures Valid()
      ensures Snapshot() == old(Snapshot().(weights := MomentumWeights(layerSizes, weights, lastWeightUpdateSum, momentum, examples),
                                            biases := MomentumBiases(layerSizes, biases, lastBiasUpdateSum, momentum, examples)))
    {
      ghost var n0 := Snapshot();
      ghost var ls := layerSizes;
      ghost var w2 := MomentumWeights(ls, n0.weights, lastWeightUpdateSum, momentum, examples);
      ghost var b2 := MomentumBiases(ls, n0.biases, lastBiasUpdateSum, momentum, examples);
      for it := 0 to |weights|
        invariant layerSizes == ls && biases == n0.biases && |weights| == |ls|
        invariant activationCoeffs == n0.activationCoeffs && activationFn == n0.activationFn
        invariant forall k :: 0 <= k < it ==> weights[k] == w2[k]
        invariant forall k :: it <= k < |ls| ==> weights[k] == n0.weights[k]
      {
        var w := ApplyMomentumToMatrix(weights[it], lastWeightUpdateSum[it], momentum, examples);
        weights := weights[it := w];
      }
      for it := 0 to |biases|
        invariant layerSizes == ls && weights == w2 && |biases| == |ls|
        invariant activationCoeffs == n0.activationCoeffs && activationFn == n0.activationFn
        invariant forall k :: 0 <= k < it ==> biases[k] == b2[k]
        invariant forall k :: it <= k < |ls| ==> biases[k] == n0.biases[k]
      {
        var b := ApplyMomentumToVector(biases[it], lastBiasUpdateSum[it], momentum, examples);
        biases := biases[it := b];
      }
    }

    /**
     * The learning half of an epoch: the batch's summed deltas, and the
     * update of the network with them and the previous sums.
     */
    method Learn(m: Libm, batch: seq<Example>, lastWeightUpdateSum: seq<Matrix>, lastBiasUpdateSum: seq<Vector>,
                 conf: TrainConfig)
      returns (weightUpdateSum: seq<Matrix>, biasUpdateSum: seq<Vector>)
      requires Valid() && StepInputFits(Snapshot(), batch, lastWeightUpdateSum, lastBiasUpdateSum, layerSizes)
      modifies this
      ensures Valid() && layerSizes == old(layerSizes)
      ensures Outcome(Snapshot(), weightUpdateSum, biasUpdateSum)
        == TrainStep(old(Snapshot()), m, batch, lastWeightUpdateSum, lastBiasUpdateSum, conf)
    {
      var sums := BatchGradient(Snapshot(), m, batch);
      UpdateWeights(sums.weights, sums.biases, lastWeightUpdateSum, lastBiasUpdateSum, |batch|, conf);
      weightUpdateSum, biasUpdateSum := sums.weights, sums.biases;
    }

    /** The cost of the network on the validation set. */
    method Validate(m: Libm, v: seq<Example>, conf: TrainConfig) returns (cost: real)
      requires Valid() && AllFit(layerSizes, v)
      ensures cost == ValidationCost(Snapshot(), m, v, conf)
    {
      var err := MeanValidationError(Snapshot(), m, v);
      cost := Cost(Snapshot(), err, |v|, conf);
    }

    /**
     * One epoch on the batch the supplier hands out next: the learning step,
     * then, with a validation set, the validation cost and the record of the
     * best network and of the number of validations since the last
     * improvement, and, with momentum, the summed deltas kept for the next
     * update. This is the state machine's `Next` step for the trainer's own
     * `t`, which `LearnerNext` spells out as `Epoch` after `TrainStep`.
     */
    method RunEpoch(m: Libm, inp: TrainInputs, conf: TrainConfig,
                    epoch: nat, epochsSinceValidationImprovement: nat, bestKnownNet: Net, validationCost: Option<real>,
                    lastWeightUpdateSum: seq<Matrix>, lastBiasUpdateSum: seq<Vector>, ghost t: Trainer)
      returns (streak: nat, best: Net, bestCost: Option<real>, lastWeightSum: seq<Matrix>, lastBiasSum: seq<Vector>)
      requires Valid() && InputsFit(inp, layerSizes) && epoch < |inp.batches|
      requires IsLearner(t, m, inp, conf, layerSizes)
      requires StateFits(TrainState(Snapshot(), epoch, epochsSinceValidationImprovement, bestKnownNet, validationCost,
                                    lastWeightUpdateSum, lastBiasUpdateSum), layerSizes)
      modifies this
      ensures Valid() && layerSizes == old(layerSizes)
      ensures var s := TrainState(old(Snapshot()), epoch, epochsSinceValidationImprovement, bestKnownNet, validationCost,
                                  lastWeightUpdateSum, lastBiasUpdateSum);
        TrainState(Snapshot(), epoch + 1, streak, best, bestCost, lastWeightSum, lastBiasSum) == Next(s, t, inp, conf)
    {
      var s := TrainState(Snapshot(), epoch, epochsSinceValidationImprovement, bestKnownNet, validationCost,
                          lastWeightUpdateSum, lastBiasUpdateSum);
      LearnerNext(t, m, inp, conf, s);
      var batch := inp.batches[epoch];
      var weightUpdateSum, biasUpdateSum := Learn(m, batch, lastWeightUpdateSum, lastBiasUpdateSum, conf);
      streak, best, bestCost, lastWeightSum, lastBiasSum :=
        FinishEpoch(m, inp, conf, s, weightUpdateSum, biasUpdateSum);
    }

    /**
     * The end of an epoch, once the step has been taken: with a validation
     * set the new network is scored and kept when it beats the best cost so
     * far, otherwise the failure streak grows; with momentum the step's
     * update sums are carried into the next epoch.
     */
    method FinishEpoch(m: Libm, inp: TrainInputs, conf: TrainConfig, s: TrainState,
                       weightUpdateSum: seq<Matrix>, biasUpdateSum: seq<Vector>)
      returns (streak: nat, best: Net, bestCost: Option<real>, lastWeightSum: seq<Matrix>, lastBiasSum: seq<Vector>)
      requires Valid() && InputsFit(inp, layerSizes) && StateFits(s, layerSizes)
      requires OutcomeFits(Outcome(Snapshot(), weightUpdateSum, biasUpdateSum), layerSizes)
      ensures var o := Outcome(Snapshot(), weightUpdateSum, biasUpdateSum);
        TrainState(Snapshot(), s.epoch + 1, streak, best, bestCost, lastWeightSum, lastBiasSum)
          == Epoch(s, o, inp.validation.Some?, ValidationCost(o.net, m, ValidationSet(inp), conf), conf)
    {
      ghost var o := Outcome(Snapshot(), weightUpdateSum, biasUpdateSum);
      ghost var r := Epoch(s, o, inp.validation.Some?, ValidationCost(o.net, m, ValidationSet(inp), conf), conf);
      streak, best, bestCost := s.streak, s.best, s.bestCost;
      if inp.validation.Some? {
        var newValidationCost := Validate(m, inp.validation.value, conf);
        if bestCost.None? || newValidationCost < bestCost.value {
          streak := 0;
          best := Snapshot();
          bestCost := Some(newValidationCost);
        } else {
          streak := streak + 1;
        }
      }
      lastWeightSum, lastBiasSum := s.lastWeightSum, s.lastBiasSum;
      if conf.momentumRate.Some? {
        lastWeightSum, lastBiasSum := weightUpdateSum, biasUpdateSum;
      }
      assert streak == r.streak && best == r.best && bestCost == r.bestCost;
      assert lastWeightSum == r.lastWeightSum && lastBiasSum == r.lastBiasSum;
    }

    /**
     * Trains the network on the supplied batches until the flag is cleared,
     * the validation cost has failed to improve the required number of times
     * in a row, the epoch cap is reached or the supplier runs dry; with a
     * validation set the best validated network is restored at the end.
     * The progress report divides the epoch by its period, so a period of 0
     * is refused.
     */
    method Train(m: Libm, inp: TrainInputs, conf: TrainConfig)
      requires Valid() && InputsFit(inp, layerSizes)
      requires conf.epochLogPeriod != Some(0)
      modifies this
      ensures Valid() && layerSizes == old(layerSizes)
      ensures TrainerFits(Learner(m, ValidationSet(inp), conf), old(layerSizes))
      ensures Snapshot() == Trained(old(Snapshot()), Learner(m, ValidationSet(inp), conf), inp, conf)
    {
      LearnerIsLearner(m, inp, conf, layerSizes);
      TrainWith(m, inp, conf, Learner(m, ValidationSet(inp), conf));
    }

    /**
     * One pass of the training loop once its condition holds: the epoch
     * counter goes up and the supplier is asked for a batch; with none left
     * the loop is to stop, otherwise one epoch runs on it. Either way the
     * loop ends where it would have ended from the state before.
     */
    method Iterate(m: Libm, inp: TrainInputs, conf: TrainConfig,
                   epoch: nat, epochsSinceValidationImprovement: nat, bestKnownNet: Net, validationCost: Option<real>,
                   lastWeightUpdateSum: seq<Matrix>, lastBiasUpdateSum: seq<Vector>, ghost t: Trainer)
      returns (epoch': nat, streak: nat, best: Net, bestCost: Option<real>, lastWeightSum: seq<Matrix>, lastBiasSum: seq<Vector>,
               exhausted: bool)
      requires Valid() && InputsFit(inp, layerSizes) && epoch <= |inp.batches|
      requires IsLearner(t, m, inp, conf, layerSizes)
      requires var s := TrainState(Snapshot(), epoch, epochsSinceValidationImprovement, bestKnownNet, validationCost,
                                   lastWeightUpdateSum, lastBiasUpdateSum);
        StateFits(s, layerSizes) && Continues(s, inp, conf)
      modifies this
      ensures Valid() && layerSizes == old(layerSizes)
      ensures exhausted <==> epoch == |inp.batches|
      ensures !exhausted ==> epoch' <= |inp.batches|
      ensures epoch' == epoch + 1
      ensures var s := TrainState(old(Snapshot()), epoch, epochsSinceValidationImprovement, bestKnownNet, validationCost,
                                  lastWeightUpdateSum, lastBiasUpdateSum);
        var s' := TrainState(Snapshot(), epoch', streak, best, bestCost, lastWeightSum, lastBiasSum);
        && StateFits(s', layerSizes)
        && (exhausted ==> s' == Run(s, t, inp, conf))
        && (!exhausted ==> Run(s', t, inp, conf) == Run(s, t, inp, conf))
    {
      ghost var s := TrainState(Snapshot(), epoch, epochsSinceValidationImprovement, bestKnownNet, validationCost,
                                lastWeightUpdateSum, lastBiasUpdateSum);
      epoch' := epoch + 1;
      if epoch == |inp.batches| {
        TakesNoStep(s, t, inp, conf);
        streak, best, bestCost, lastWeightSum, lastBiasSum, exhausted :=
          epochsSinceValidationImprovement, bestKnownNet, validationCost, lastWeightUpdateSum, lastBiasUpdateSum, true;
        return;
      }
      TakesStep(s, t, inp, conf);
      streak, best, bestCost, lastWeightSum, lastBiasSum :=
        RunEpoch(m, inp, conf, epoch, epochsSinceValidationImprovement, bestKnownNet, validationCost,
                 lastWeightUpdateSum, lastBiasUpdateSum, t);
      exhausted := false;
    }

    /**
     * The body of `Train`, proved for any trainer `t` that is the trainer's
     * own, so that the loop's proof sees the state machine and not the step.
     */
    method TrainWith(m: Libm, inp: TrainInputs, conf: TrainConfig, ghost t: Trainer)
      requires Valid() && InputsFit(inp, layerSizes)
      requires conf.epochLogPeriod != Some(0)
      requires IsLearner(t, m, inp, conf, layerSizes)
      modifies this
      ensures Valid() && layerSizes == old(layerSizes)
      ensures Snapshot() == Trained(old(Snapshot()), t, inp, conf)
    {
      ghost var ls := layerSizes;
      ghost var final := Run(Initial(Snapshot()), t, inp, conf);
      var epochsSinceValidationImprovement: nat := 0;
      var epoch: nat := 0;
      var lastWeightUpdateSum := ZeroWeights(layerSizes);
      var lastBiasUpdateSum := ZeroLayers(layerSizes);
      var bestKnownNet := Snapshot();
      var validationCost: Option<real> := None;
      var exhausted := false;
      while
        && (inp.learning.None? || inp.learning.value(epoch))
        && epochsSinceValidationImprovement < conf.sequentialValidationFailuresRequired
        && (conf.maxEpochs.None? || epoch < conf.maxEpochs.value)
        invariant Valid() && layerSizes == ls && epoch <= |inp.batches|
        invariant var s := TrainState(Snapshot(), epoch, epochsSinceValidationImprovement, bestKnownNet, validationCost,
                                      lastWeightUpdateSum, lastBiasUpdateSum);
          StateFits(s, ls) && Run(s, t, inp, conf) == final
        decreases |inp.batches| - epoch
      {
        epoch, epochsSinceValidationImprovement, bestKnownNet, validationCost, lastWeightUpdateSum, lastBiasUpdateSum, exhausted :=
          Iterate(m, inp, conf, epoch, epochsSinceValidationImprovement, bestKnownNet, validationCost,
                  lastWeightUpdateSum, lastBiasUpdateSum, t);
        if exhausted {
          break;
        }
      }
      ghost var s := TrainState(Snapshot(), epoch, epochsSinceValidationImprovement, bestKnownNet, validationCost,
                                lastWeightUpdateSum, lastBiasUpdateSum);
      assert s == final by {
        if !exhausted {
          TakesNoStep(s, t, inp, conf);
        }
      }
      if inp.validation.Some? {
        Restore(bestKnownNet);
      }
    }

    /**
     * Trains the network to reproduce its inputs: every supplied vector and
     * every validation vector becomes an example whose target is the vector
     * itself.
     */
    method TrainAutoencoder(m: Libm, batches: seq<seq<Vector>>, learning: Option<nat -> bool>,
                            validation: Option<seq<Vector>>, conf: TrainConfig)
      requires Valid() && InputsFit(AutoencoderInputs(batches, learning, validation), layerSizes)
      requires conf.epochLogPeriod != Some(0)
      modifies this
      ensures Valid() && layerSizes == old(layerSizes)
      ensures var inp := AutoencoderInputs(batches, learning, validation);
        && TrainerFits(Learner(m, ValidationSet(inp), conf), old(layerSizes))
        && Snapshot() == Trained(old(Snapshot()), Learner(m, ValidationSet(inp), conf), inp, conf)
    {
      Train(m, AutoencoderInputs(batches, learning, validation), conf);
    }
  }

  /** The trainer's inputs when every vector is its own target. */
  function AutoencoderInputs(batches: seq<seq<Vector>>, learning: Option<nat -> bool>, validation: Option<seq<Vector>>): (inp: TrainInputs)
    ensures |inp.batches| == |batches| && forall k :: 0 <= k < |batches| ==> inp.batches[k] == SelfPaired(batches[k])
    ensures inp.learning == learning
    ensures inp.validation.Some? <==> validation.Some?
    ensures validation.Some? ==> inp.validation.value == SelfPaired(validation.value)
  {
    TrainInputs(
      seq(|batches|, k requires 0 <= k < |batches| => SelfPaired(batches[k])),
      learning,
      if validation.Some? then Some(SelfPaired(validation.value)) else None)
  }
}
