/**
 * The trainer's cost function and its control loop, as a state machine over
 * epochs.
 *
 * What the loop receives from outside is a `TrainInputs` value: the batches
 * the supplier hands out, one per call, until it runs dry; the values the
 * cancellation flag shows at successive tests of the loop condition; and the
 * validation set, if there is one.
 */
module Training {
  import opened Linalg
  import opened Activation
  import opened NetworkData
  import opened Gradients
  import opened Propagation
  import opened Batches

  // ---------------------------------------------------------------------
  // Cost

  /** Every matrix's sum of squared weights divided by the number of examples, summed over the matrices. */
  function WeightPenalty(ws: seq<Matrix>, examples: nat): real
    requires examples > 0
  {
    Sum(seq(|ws|, i requires 0 <= i < |ws| => SumSquares(ws[i]) / (examples as real)))
  }

  lemma WeightPenaltyNonNegative(ws: seq<Matrix>, examples: nat)
    requires examples > 0
    ensures WeightPenalty(ws, examples) >= 0.0
  {
    var terms := seq(|ws|, i requires 0 <= i < |ws| => SumSquares(ws[i]) / (examples as real));
    forall i | 0 <= i < |ws| ensures terms[i] >= 0.0 {
      SumSquaresNonNegative(ws[i]);
    }
    SumNonNegative(terms);
  }

  /**
   * The cost of an output error over `examples` examples: 0 when there are
   * none, otherwise the error plus, when the regularization parameter is not
   * 0, that parameter times the weight penalty divided by the number of weight
   * matrices (the 0 x 0 placeholder included).
   */
  function Cost(n: Net, outputError: real, examples: nat, conf: TrainConfig): (c: real)
    requires |n.weights| > 0
    ensures examples == 0 ==> c == 0.0
    ensures examples > 0 && conf.regularizationParam == 0.0 ==> c == outputError
  {
    if examples == 0 then 0.0
    else
      var lambda := conf.regularizationParam;
      outputError + if lambda != 0.0 then lambda * WeightPenalty(n.weights, examples) / (|n.weights| as real) else 0.0
  }

  /** A non-negative regularization parameter only ever adds to the error. */
  lemma CostAtLeastError(n: Net, outputError: real, examples: nat, conf: TrainConfig)
    requires |n.weights| > 0 && examples > 0 && conf.regularizationParam >= 0.0
    ensures Cost(n, outputError, examples, conf) >= outputError
  {
    WeightPenaltyNonNegative(n.weights, examples);
    var lambda := conf.regularizationParam;
    var p := WeightPenalty(n.weights, examples);
    assert lambda * p >= 0.0 by {
      ProductNonNegative(lambda, p);
    }
  }

  lemma ProductNonNegative(a: real, b: real)
    requires a >= 0.0 && b >= 0.0
    ensures a * b >= 0.0
  {
  }

  // ---------------------------------------------------------------------
  // The control loop

  datatype TrainInputs = TrainInputs(
    batches: seq<seq<Example>>,
    learning: Option<nat -> bool>,
    validation: Option<seq<Example>>)

  /**
   * The variables of the training loop: the current network, the epoch
   * counter, the number of validations since the last improvement, the best
   * network seen and its validation cost (`None` standing for the initial
   * +infinity), and the previous epoch's summed deltas for momentum.
   */
  datatype TrainState = TrainState(
    net: Net,
    epoch: nat,
    streak: nat,
    best: Net,
    bestCost: Option<real>,
    lastWeightSum: seq<Matrix>,
    lastBiasSum: seq<Vector>)

  predicate StateFits(s: TrainState, ls: seq<nat>) {
    && WellFormed(s.net) && s.net.layerSizes == ls
    && WellFormed(s.best) && s.best.layerSizes == ls
    && WeightsShaped(s.lastWeightSum, ls) && BiasesShaped(s.lastBiasSum, ls)
  }

  /** Every supplied batch is non-empty and fits the layers, and so does the validation set. */
  predicate InputsFit(inp: TrainInputs, ls: seq<nat>)
    requires |ls| > 0
  {
    && (forall k :: 0 <= k < |inp.batches| ==> |inp.batches[k]| > 0 && AllFit(ls, inp.batches[k]))
    && (inp.validation.Some? ==> AllFit(ls, inp.validation.value))
  }

  /** The loop variables before the first epoch: nothing validated yet and zero previous sums. */
  function Initial(n: Net): (s: TrainState)
    requires WellFormed(n)
    ensures StateFits(s, n.layerSizes) && s.net == n && s.best == n && s.bestCost.None?
  {
    TrainState(n, 0, 0, n, None, ZeroWeights(n.layerSizes), ZeroLayers(n.layerSizes))
  }

  /**
   * The loop condition: the flag (when there is one) is set, fewer than the
   * required number of validations in a row have failed to improve, and the
   * epoch cap (when there is one) has not been reached.
   */
  predicate Continues(s: TrainState, inp: TrainInputs, conf: TrainConfig) {
    && (inp.learning.None? || inp.learning.value(s.epoch))
    && s.streak < conf.sequentialValidationFailuresRequired
    && (conf.maxEpochs.None? || s.epoch < conf.maxEpochs.value)
  }

  /** The cost of a network on the validation set. */
  function ValidationCost(n: Net, m: Libm, v: seq<Example>, conf: TrainConfig): real
    requires WellFormed(n) && AllFit(n.layerSizes, v)
  {
    Cost(n, ValidationError(n, m, v), |v|, conf)
  }

  /** A cost improves on the best so far when it is strictly lower; anything improves on +infinity. */
  predicate Improves(cost: real, best: Option<real>) {
    best.None? || cost < best.value
  }

  /** What the learning half of an epoch produces: the updated network and the batch's summed deltas. */
  datatype Outcome = Outcome(net: Net, weightSum: seq<Matrix>, biasSum: seq<Vector>)

  predicate OutcomeFits(o: Outcome, ls: seq<nat>) {
    WellFormed(o.net) && o.net.layerSizes == ls && WeightsShaped(o.weightSum, ls) && BiasesShaped(o.biasSum, ls)
  }

  /** A network, a non-empty batch and previous sums that all fit the layer sizes `ls`. */
  predicate StepInputFits(n: Net, batch: seq<Example>, lastWeightSum: seq<Matrix>, lastBiasSum: seq<Vector>, ls: seq<nat>) {
    && WellFormed(n) && n.layerSizes == ls && |batch| > 0 && AllFit(ls, batch)
    && WeightsShaped(lastWeightSum, ls) && BiasesShaped(lastBiasSum, ls)
  }

  /**
   * The two computations an epoch hands to the network: the learning step,
   * from the network, the batch and the previous epoch's summed deltas, and
   * the validation cost of a network. The control loop is stated for any
   * such pair; `Learner` is the trainer's.
   */
  datatype Trainer = Trainer(
    learn: (Net, seq<Example>, seq<Matrix>, seq<Vector>) --> Outcome,
    validate: Net --> real)

  /** A trainer defined on, and yielding, values that fit the layer sizes `ls`. */
  ghost predicate TrainerFits(t: Trainer, ls: seq<nat>) {
    && (forall n, batch, lw, lb :: StepInputFits(n, batch, lw, lb, ls) ==>
          t.learn.requires(n, batch, lw, lb) && OutcomeFits(t.learn(n, batch, lw, lb), ls))
    && (forall n: Net {:trigger t.validate.requires(n)} :: WellFormed(n) && n.layerSizes == ls ==> t.validate.requires(n))
  }

  /**
   * The trainer's learning step: the batch's summed deltas and one update of
   * the network with them and the previous sums.
   */
  function TrainStep(n: Net, m: Libm, batch: seq<Example>, lastWeightSum: seq<Matrix>, lastBiasSum: seq<Vector>,
                     conf: TrainConfig): (o: Outcome)
    requires StepInputFits(n, batch, lastWeightSum, lastBiasSum, n.layerSizes)
    ensures OutcomeFits(o, n.layerSizes)
    ensures o.weightSum == BatchContribution(n, m, batch).weights && o.biasSum == BatchContribution(n, m, batch).biases
  {
    var c := BatchContribution(n, m, batch);
    Outcome(Updated(n, c.weights, c.biases, lastWeightSum, lastBiasSum, |batch|, conf), c.weights, c.biases)
  }

  /** The trainer's learning step and its validation cost on `v` (the cost is not consulted without validation). */
  function Learner(m: Libm, v: seq<Example>, conf: TrainConfig): Trainer {
    Trainer(
      (n: Net, batch: seq<Example>, lw: seq<Matrix>, lb: seq<Vector>) requires StepInputFits(n, batch, lw, lb, n.layerSizes)
        => TrainStep(n, m, batch, lw, lb, conf),
      (n: Net) requires WellFormed(n) && AllFit(n.layerSizes, v) => ValidationCost(n, m, v, conf))
  }

  /** The validation set of the inputs, or no examples without one. */
  function ValidationSet(inp: TrainInputs): seq<Example> {
    if inp.validation.Some? then inp.validation.value else []
  }

  lemma LearnerFits(m: Libm, inp: TrainInputs, conf: TrainConfig, ls: seq<nat>)
    requires |ls| > 0 && InputsFit(inp, ls)
    ensures TrainerFits(Learner(m, ValidationSet(inp), conf), ls)
  {
  }

  /**
   * `t` is the trainer's own: wherever it is defined on networks of sizes
   * `ls` it takes the trainer's learning step and scores on the validation
   * set. The quantifiers fire only on a `TrainStep` or `ValidationCost`
   * already in view, which keeps the loop's proof from unfolding the step.
   */
  ghost predicate IsLearner(t: Trainer, m: Libm, inp: TrainInputs, conf: TrainConfig, ls: seq<nat>) {
    TrainerFits(t, ls) && LearnsBy(t, m, conf, ls) && ScoresBy(t, m, ValidationSet(inp), conf, ls)
  }

  /** The learning step of `t` is `TrainStep` on networks of sizes `ls`. */
  ghost predicate LearnsBy(t: Trainer, m: Libm, conf: TrainConfig, ls: seq<nat>) {
    forall n: Net, batch, lw, lb {:trigger TrainStep(n, m, batch, lw, lb, conf)} ::
      n.layerSizes == ls && StepInputFits(n, batch, lw, lb, n.layerSizes) ==>
        t.learn.requires(n, batch, lw, lb) && t.learn(n, batch, lw, lb) == TrainStep(n, m, batch, lw, lb, conf)
  }

  /** The validation of `t` is `ValidationCost` on `v` for networks of sizes `ls`. */
  ghost predicate ScoresBy(t: Trainer, m: Libm, v: seq<Example>, conf: TrainConfig, ls: seq<nat>) {
    forall n: Net {:trigger ValidationCost(n, m, v, conf)} ::
      n.layerSizes == ls && WellFormed(n) && AllFit(n.layerSizes, v) ==>
        t.validate.requires(n) && t.validate(n) == ValidationCost(n, m, v, conf)
  }

  lemma LearnerIsLearner(m: Libm, inp: TrainInputs, conf: TrainConfig, ls: seq<nat>)
    requires |ls| > 0 && InputsFit(inp, ls)
    ensures IsLearner(Learner(m, ValidationSet(inp), conf), m, inp, conf, ls)
  {
    LearnerFits(m, inp, conf, ls);
  }

  /**
   * An epoch of the trainer's own learning step on a supplied batch is the
   * bookkeeping after `TrainStep`, with the validation cost of its network.
   */
  lemma LearnerNext(t: Trainer, m: Libm, inp: TrainInputs, conf: TrainConfig, s: TrainState)
    requires StateFits(s, s.net.layerSizes) && InputsFit(inp, s.net.layerSizes) && s.epoch < |inp.batches|
    requires IsLearner(t, m, inp, conf, s.net.layerSizes)
    ensures var o := TrainStep(s.net, m, inp.batches[s.epoch], s.lastWeightSum, s.lastBiasSum, conf);
      Next(s, t, inp, conf) == Epoch(s, o, inp.validation.Some?, ValidationCost(o.net, m, ValidationSet(inp), conf), conf)
  {
    assert StepInputFits(s.net, inp.batches[s.epoch], s.lastWeightSum, s.lastBiasSum, s.net.layerSizes);
    var o := TrainStep(s.net, m, inp.batches[s.epoch], s.lastWeightSum, s.lastBiasSum, conf);
    assert NextOutcome(s, t, inp) == o;
    assert AllFit(s.net.layerSizes, ValidationSet(inp));
    assert t.validate(o.net) == ValidationCost(o.net, m, ValidationSet(inp), conf);
  }

  /**
   * The bookkeeping half of an epoch: the epoch counter goes up, the network
   * becomes the outcome's; when validating, a strictly lower cost records the
   * network as the best and clears the streak and any other cost lengthens the
   * streak; the summed deltas are kept for the next update when momentum is
   * configured.
   */
  function Epoch(s: TrainState, o: Outcome, validating: bool, cost: real, conf: TrainConfig): (r: TrainState)
    requires StateFits(s, s.net.layerSizes) && OutcomeFits(o, s.net.layerSizes)
    ensures StateFits(r, s.net.layerSizes) && r.epoch == s.epoch + 1 && r.net == o.net
    ensures conf.momentumRate.None? ==> r.lastWeightSum == s.lastWeightSum && r.lastBiasSum == s.lastBiasSum
    ensures conf.momentumRate.Some? ==> r.lastWeightSum == o.weightSum && r.lastBiasSum == o.biasSum
    ensures !validating ==> r.best == s.best && r.bestCost == s.bestCost && r.streak == s.streak
    ensures validating && Improves(cost, s.bestCost) ==> r.best == o.net && r.bestCost == Some(cost) && r.streak == 0
    ensures validating && !Improves(cost, s.bestCost) ==> r.best == s.best && r.bestCost == s.bestCost && r.streak == s.streak + 1
  {
    var validated :=
      if !validating then s.(net := o.net)
      else if Improves(cost, s.bestCost) then s.(net := o.net, streak := 0, best := o.net, bestCost := Some(cost))
      else s.(net := o.net, streak := s.streak + 1);
    var kept := if conf.momentumRate.Some? then validated.(lastWeightSum := o.weightSum, lastBiasSum := o.biasSum) else validated;
    kept.(epoch := s.epoch + 1)
  }

  /** The loop may run another epoch on a supplied batch. */
  predicate Trains(s: TrainState, inp: TrainInputs, conf: TrainConfig) {
    Continues(s, inp, conf) && s.epoch < |inp.batches|
  }

  /** The outcome of training on the batch the supplier hands out next. */
  function NextOutcome(s: TrainState, t: Trainer, inp: TrainInputs): (o: Outcome)
    requires StateFits(s, s.net.layerSizes) && InputsFit(inp, s.net.layerSizes) && TrainerFits(t, s.net.layerSizes)
    requires s.epoch < |inp.batches|
    ensures OutcomeFits(o, s.net.layerSizes)
  {
    assert StepInputFits(s.net, inp.batches[s.epoch], s.lastWeightSum, s.lastBiasSum, s.net.layerSizes);
    t.learn(s.net, inp.batches[s.epoch], s.lastWeightSum, s.lastBiasSum)
  }

  /** The state after one more epoch on the next supplied batch. */
  function Next(s: TrainState, t: Trainer, inp: TrainInputs, conf: TrainConfig): (r: TrainState)
    requires StateFits(s, s.net.layerSizes) && InputsFit(inp, s.net.layerSizes) && TrainerFits(t, s.net.layerSizes)
    requires s.epoch < |inp.batches|
    ensures StateFits(r, s.net.layerSizes) && r.epoch == s.epoch + 1
  {
    var o := NextOutcome(s, t, inp);
    Epoch(s, o, inp.validation.Some?, t.validate(o.net), conf)
  }

  /**
   * The loop from state `s` to its end. When the loop condition holds the
   * epoch counter goes up and the supplier is asked for a batch: its answer
   * number `s.epoch`, or nothing once its batches are used up, which ends the
   * loop.
   */
  function Run(s: TrainState, t: Trainer, inp: TrainInputs, conf: TrainConfig): (r: TrainState)
    requires StateFits(s, s.net.layerSizes) && InputsFit(inp, s.net.layerSizes) && TrainerFits(t, s.net.layerSizes)
    ensures StateFits(r, s.net.layerSizes) && r.epoch >= s.epoch
    decreases |inp.batches| - s.epoch
  {
    if !Continues(s, inp, conf) then s
    else if s.epoch >= |inp.batches| then s.(epoch := s.epoch + 1)
    else Run(Next(s, t, inp, conf), t, inp, conf)
  }

  /** The outcomes of the epochs the loop runs from state `s`, one per batch it trains on. */
  function Trace(s: TrainState, t: Trainer, inp: TrainInputs, conf: TrainConfig): (tr: seq<Outcome>)
    requires StateFits(s, s.net.layerSizes) && InputsFit(inp, s.net.layerSizes) && TrainerFits(t, s.net.layerSizes)
    ensures forall k :: 0 <= k < |tr| ==> OutcomeFits(tr[k], s.net.layerSizes)
    decreases |inp.batches| - s.epoch
  {
    if !Trains(s, inp, conf) then []
    else [NextOutcome(s, t, inp)] + Trace(Next(s, t, inp, conf), t, inp, conf)
  }

  /**
   * The network training ends with: the best validated network when there
   * is a validation set, the last network otherwise.
   */
  function Trained(n: Net, t: Trainer, inp: TrainInputs, conf: TrainConfig): (r: Net)
    requires WellFormed(n) && InputsFit(inp, n.layerSizes) && TrainerFits(t, n.layerSizes)
    ensures WellFormed(r) && r.layerSizes == n.layerSizes
  {
    var last := Run(Initial(n), t, inp, conf);
    if inp.validation.Some? then last.best else last.net
  }

  // ---------------------------------------------------------------------
  // Properties of the loop

  /** An epoch cap is never exceeded. */
  lemma {:induction false} RunRespectsEpochCap(s: TrainState, t: Trainer, inp: TrainInputs, conf: TrainConfig)
    requires StateFits(s, s.net.layerSizes) && InputsFit(inp, s.net.layerSizes) && TrainerFits(t, s.net.layerSizes)
    requires conf.maxEpochs.Some? && s.epoch <= conf.maxEpochs.value
    ensures Run(s, t, inp, conf).epoch <= conf.maxEpochs.value
    decreases |inp.batches| - s.epoch
  {
    if Trains(s, inp, conf) {
      TakesStep(s, t, inp, conf);
      RunRespectsEpochCap(Next(s, t, inp, conf), t, inp, conf);
    } else {
      TakesNoStep(s, t, inp, conf);
    }
  }

  /**
   * The loop ends only when its condition fails or the supplier runs dry;
   * in the second case the epoch counter is one past the number of batches,
   * and in the first it counts one epoch per trained batch.
   */
  lemma {:induction false} RunEnds(s: TrainState, t: Trainer, inp: TrainInputs, conf: TrainConfig)
    requires StateFits(s, s.net.layerSizes) && InputsFit(inp, s.net.layerSizes) && TrainerFits(t, s.net.layerSizes)
    requires s.epoch <= |inp.batches|
    ensures var r := Run(s, t, inp, conf);
      && (!Continues(r, inp, conf) || r.epoch == |inp.batches| + 1)
      && r.epoch <= |inp.batches| + 1
      && (r.epoch == s.epoch + |Trace(s, t, inp, conf)| || r.epoch == |inp.batches| + 1)
    decreases |inp.batches| - s.epoch
  {
    if Trains(s, inp, conf) {
      TakesStep(s, t, inp, conf);
      RunEnds(Next(s, t, inp, conf), t, inp, conf);
    } else {
      TakesNoStep(s, t, inp, conf);
    }
  }

  /** The streak never exceeds the number of failures that stops the loop. */
  lemma {:induction false} RunStreakBounded(s: TrainState, t: Trainer, inp: TrainInputs, conf: TrainConfig)
    requires StateFits(s, s.net.layerSizes) && InputsFit(inp, s.net.layerSizes) && TrainerFits(t, s.net.layerSizes)
    requires s.streak <= conf.sequentialValidationFailuresRequired
    ensures Run(s, t, inp, conf).streak <= conf.sequentialValidationFailuresRequired
    decreases |inp.batches| - s.epoch
  {
    if Trains(s, inp, conf) {
      TakesStep(s, t, inp, conf);
      RunStreakBounded(Next(s, t, inp, conf), t, inp, conf);
    } else {
      TakesNoStep(s, t, inp, conf);
    }
  }

  /** The network at the end of the loop is the last one trained, or the starting one when none was. */
  lemma {:induction false} RunEndsWithLastNet(s: TrainState, t: Trainer, inp: TrainInputs, conf: TrainConfig)
    requires StateFits(s, s.net.layerSizes) && InputsFit(inp, s.net.layerSizes) && TrainerFits(t, s.net.layerSizes)
    ensures var tr := Trace(s, t, inp, conf);
      Run(s, t, inp, conf).net == if |tr| == 0 then s.net else tr[|tr| - 1].net
    decreases |inp.batches| - s.epoch
  {
    if Trains(s, inp, conf) {
      TakesStep(s, t, inp, conf);
      RunEndsWithLastNet(Next(s, t, inp, conf), t, inp, conf);
    } else {
      TakesNoStep(s, t, inp, conf);
    }
  }

  /**
   * Without a validation set nothing is validated: the streak stays where it
   * was, so only the flag, the epoch cap or the supplier can end the loop,
   * and the best network is never replaced.
   */
  lemma {:induction false} RunWithoutValidation(s: TrainState, t: Trainer, inp: TrainInputs, conf: TrainConfig)
    requires StateFits(s, s.net.layerSizes) && InputsFit(inp, s.net.layerSizes) && TrainerFits(t, s.net.layerSizes)
    requires inp.validation.None?
    ensures var r := Run(s, t, inp, conf);
      r.streak == s.streak && r.best == s.best && r.bestCost == s.bestCost
    decreases |inp.batches| - s.epoch
  {
    if Trains(s, inp, conf) {
      TakesStep(s, t, inp, conf);
      RunWithoutValidation(Next(s, t, inp, conf), t, inp, conf);
    } else {
      TakesNoStep(s, t, inp, conf);
    }
  }

  /**
   * The previous-epoch sums are replaced only when momentum is configured,
   * and then by the sums of the last batch trained on.
   */
  lemma {:induction false} RunKeepsMomentumSums(s: TrainState, t: Trainer, inp: TrainInputs, conf: TrainConfig)
    requires StateFits(s, s.net.layerSizes) && InputsFit(inp, s.net.layerSizes) && TrainerFits(t, s.net.layerSizes)
    ensures var r := Run(s, t, inp, conf);
      var tr := Trace(s, t, inp, conf);
      && (conf.momentumRate.None? || |tr| == 0 ==> r.lastWeightSum == s.lastWeightSum && r.lastBiasSum == s.lastBiasSum)
      && (conf.momentumRate.Some? && |tr| > 0 ==>
            r.lastWeightSum == tr[|tr| - 1].weightSum && r.lastBiasSum == tr[|tr| - 1].biasSum)
    decreases |inp.batches| - s.epoch
  {
    if Trains(s, inp, conf) {
      var s1 := Next(s, t, inp, conf);
      RunKeepsMomentumSums(s1, t, inp, conf);
      TakesStep(s, t, inp, conf);
      var o := NextOutcome(s, t, inp);
      var tr1 := Trace(s1, t, inp, conf);
      if |tr1| > 0 {
        assert ([o] + tr1)[|tr1|] == tr1[|tr1| - 1];
      }
    } else {
      TakesNoStep(s, t, inp, conf);
    }
  }

  /** When the loop trains no further epoch its trace is empty and only the epoch counter may still move. */
  lemma TakesNoStep(s: TrainState, t: Trainer, inp: TrainInputs, conf: TrainConfig)
    requires StateFits(s, s.net.layerSizes) && InputsFit(inp, s.net.layerSizes) && TrainerFits(t, s.net.layerSizes)
    requires !Trains(s, inp, conf)
    ensures Run(s, t, inp, conf) == if Continues(s, inp, conf) then s.(epoch := s.epoch + 1) else s
    ensures Trace(s, t, inp, conf) == []
  {
  }

  /** An epoch the loop trains is the first outcome of its trace and leads to the same end. */
  lemma TakesStep(s: TrainState, t: Trainer, inp: TrainInputs, conf: TrainConfig)
    requires StateFits(s, s.net.layerSizes) && InputsFit(inp, s.net.layerSizes) && TrainerFits(t, s.net.layerSizes)
    requires Trains(s, inp, conf)
    ensures Run(s, t, inp, conf) == Run(Next(s, t, inp, conf), t, inp, conf)
    ensures Trace(s, t, inp, conf) == [NextOutcome(s, t, inp)] + Trace(Next(s, t, inp, conf), t, inp, conf)
  {
  }

  /**
   * A batch the network already reproduces exactly leaves it unchanged when
   * there is no regularization and no momentum.
   */
  lemma FittedBatchIsFixedPoint(n: Net, m: Libm, batch: seq<Example>, lastWeightSum: seq<Matrix>, lastBiasSum: seq<Vector>,
                                conf: TrainConfig)
    requires StepInputFits(n, batch, lastWeightSum, lastBiasSum, n.layerSizes)
    requires forall i :: 0 <= i < |batch| ==> Output(n, m, batch[i].input) == batch[i].target
    requires conf.regularizationParam == 0.0 && conf.momentumRate.None?
    ensures TrainStep(n, m, batch, lastWeightSum, lastBiasSum, conf).net == n
  {
    var c := BatchContribution(n, m, batch);
    FittedBatchContributesNothing(n, m, batch);
    UpdatedAtRest(n, c.weights, c.biases, lastWeightSum, lastBiasSum, |batch|, conf);
  }

  // ---------------------------------------------------------------------
  // Keeping the best network

  /** The validation costs of the networks of a sequence of outcomes. */
  function CostsOf(tr: seq<Outcome>, validate: Net --> real): (cs: seq<real>)
    requires forall k :: 0 <= k < |tr| ==> validate.requires(tr[k].net)
    ensures |cs| == |tr| && forall k :: 0 <= k < |tr| ==> cs[k] == validate(tr[k].net)
  {
    seq(|tr|, k requires 0 <= k < |tr| => validate(tr[k].net))
  }

  /**
   * The position of the last strict improvement in a sequence of costs,
   * starting from the best cost `bound` (`None` for +infinity); `None` when
   * nothing improves on it.
   */
  function LastImprovement(bound: Option<real>, costs: seq<real>): (r: Option<nat>)
    ensures r.Some? ==> r.value < |costs|
    decreases |costs|
  {
    if |costs| == 0 then None
    else
      var improves := Improves(costs[0], bound);
      var rest := LastImprovement(if improves then Some(costs[0]) else bound, costs[1..]);
      if rest.Some? then Some(rest.value + 1) else if improves then Some(0) else None
  }

  /**
   * The last strict improvement is the first position holding the least
   * cost, and it improves on the bound; with no improvement, no cost improves
   * on the bound.
   */
  lemma {:induction false} LastImprovementIsFirstMinimum(bound: Option<real>, costs: seq<real>)
    ensures var r := LastImprovement(bound, costs);
      && (r.None? ==> forall k :: 0 <= k < |costs| ==> !Improves(costs[k], bound))
      && (r.Some? ==>
            && Improves(costs[r.value], bound)
            && (forall k :: 0 <= k < |costs| ==> costs[r.value] <= costs[k])
            && (forall k :: 0 <= k < r.value ==> costs[k] > costs[r.value]))
    decreases |costs|
  {
    if |costs| > 0 {
      var improves := Improves(costs[0], bound);
      var next := if improves then Some(costs[0]) else bound;
      LastImprovementIsFirstMinimum(next, costs[1..]);
      assert forall k :: 1 <= k < |costs| ==> costs[k] == costs[1..][k - 1];
    }
  }

  /** What `RunTracksBest` states about the end state `r` of a run from `s` that trained the outcomes `tr` with costs `costs`. */
  predicate TracksBest(s: TrainState, r: TrainState, tr: seq<Outcome>, costs: seq<real>)
    requires |costs| == |tr|
  {
    var b := LastImprovement(s.bestCost, costs);
    && (b.None? ==> r.best == s.best && r.bestCost == s.bestCost && r.streak == s.streak + |tr|)
    && (b.Some? ==> r.best == tr[b.value].net && r.bestCost == Some(costs[b.value]) && r.streak == |tr| - 1 - b.value)
  }

  /** One validated epoch in front of a run that tracks its best network gives a run that does. */
  lemma TracksBestStep(s: TrainState, o: Outcome, c0: real, r: TrainState, tr1: seq<Outcome>, costs1: seq<real>, conf: TrainConfig)
    requires StateFits(s, s.net.layerSizes) && OutcomeFits(o, s.net.layerSizes) && |costs1| == |tr1|
    requires TracksBest(Epoch(s, o, true, c0, conf), r, tr1, costs1)
    ensures TracksBest(s, r, [o] + tr1, [c0] + costs1)
  {
    var costs := [c0] + costs1;
    assert costs[0] == c0 && costs[1..] == costs1;
    assert forall k :: 1 <= k < |costs| ==> ([o] + tr1)[k] == tr1[k - 1];
  }

  /**
   * While validating, the loop's best network is the one trained at the last
   * strict improvement of the validation cost, with that cost recorded, and
   * the streak counts the epochs trained since; with no improvement the best
   * network and its cost are those of the starting state.
   */
  lemma {:induction false} RunTracksBest(s: TrainState, t: Trainer, inp: TrainInputs, conf: TrainConfig)
    requires StateFits(s, s.net.layerSizes) && InputsFit(inp, s.net.layerSizes) && TrainerFits(t, s.net.layerSizes)
    requires inp.validation.Some?
    ensures var tr := Trace(s, t, inp, conf);
      TracksBest(s, Run(s, t, inp, conf), tr, CostsOf(tr, t.validate))
    decreases |inp.batches| - s.epoch
  {
    if Trains(s, inp, conf) {
      var o := NextOutcome(s, t, inp);
      var c0 := t.validate(o.net);
      var s1 := Next(s, t, inp, conf);
      RunTracksBest(s1, t, inp, conf);
      var tr1 := Trace(s1, t, inp, conf);
      TracksBestStep(s, o, c0, Run(s1, t, inp, conf), tr1, CostsOf(tr1, t.validate), conf);
      CostsOfCons(o, tr1, t.validate);
      TakesStep(s, t, inp, conf);
    } else {
      TakesNoStep(s, t, inp, conf);
    }
  }

  /** The costs of one more outcome in front are its cost in front of the others' costs. */
  lemma CostsOfCons(o: Outcome, tr: seq<Outcome>, validate: Net --> real)
    requires validate.requires(o.net) && forall k :: 0 <= k < |tr| ==> validate.requires(tr[k].net)
    ensures forall k :: 0 <= k < |[o] + tr| ==> validate.requires(([o] + tr)[k].net)
    ensures CostsOf([o] + tr, validate) == [validate(o.net)] + CostsOf(tr, validate)
  {
    assert forall k :: 1 <= k < |[o] + tr| ==> ([o] + tr)[k] == tr[k - 1];
  }

  /**
   * With a validation set, training ends with the starting network if no
   * epoch was trained, and otherwise with the first of the trained networks
   * whose validation cost is the least.
   */
  lemma TrainedIsBestValidated(n: Net, t: Trainer, inp: TrainInputs, conf: TrainConfig)
    requires WellFormed(n) && InputsFit(inp, n.layerSizes) && TrainerFits(t, n.layerSizes)
    requires inp.validation.Some?
    ensures var tr := Trace(Initial(n), t, inp, conf);
      && (|tr| == 0 ==> Trained(n, t, inp, conf) == n)
      && (|tr| > 0 ==> exists b :: 0 <= b < |tr| && FirstMinimum(tr, t.validate, b) && Trained(n, t, inp, conf) == tr[b].net)
  {
    var s := Initial(n);
    RunTracksBest(s, t, inp, conf);
    FirstMinimumTracked(s, Run(s, t, inp, conf), Trace(s, t, inp, conf), t.validate);
  }

  /** Outcome `b` has the least cost of all, and every outcome before it a greater one. */
  predicate FirstMinimum(tr: seq<Outcome>, validate: Net --> real, b: nat)
    requires forall k :: 0 <= k < |tr| ==> validate.requires(tr[k].net)
    requires b < |tr|
  {
    && (forall k :: 0 <= k < |tr| ==> validate(tr[b].net) <= validate(tr[k].net))
    && (forall k :: 0 <= k < b ==> validate(tr[k].net) > validate(tr[b].net))
  }

  /**
   * Starting from no recorded cost, a best network tracked over the outcomes
   * `tr` is the starting one when there are none, and otherwise the first
   * outcome whose cost is the least.
   */
  lemma FirstMinimumTracked(s: TrainState, r: TrainState, tr: seq<Outcome>, validate: Net --> real)
    requires forall k :: 0 <= k < |tr| ==> validate.requires(tr[k].net)
    requires s.bestCost.None? && TracksBest(s, r, tr, CostsOf(tr, validate))
    ensures |tr| == 0 ==> r.best == s.best
    ensures |tr| > 0 ==> exists b :: 0 <= b < |tr| && FirstMinimum(tr, validate, b) && r.best == tr[b].net
  {
    var costs := CostsOf(tr, validate);
    LastImprovementIsFirstMinimum(None, costs);
    if |tr| > 0 {
      var b := LastImprovement(None, costs).value;
      assert r.best == tr[b].net;
    }
  }

  /** Without a validation set training ends with the last trained network, or the starting one. */
  lemma TrainedIsLastWithoutValidation(n: Net, t: Trainer, inp: TrainInputs, conf: TrainConfig)
    requires WellFormed(n) && InputsFit(inp, n.layerSizes) && TrainerFits(t, n.layerSizes)
    requires inp.validation.None?
    ensures var tr := Trace(Initial(n), t, inp, conf);
      Trained(n, t, inp, conf) == if |tr| == 0 then n else tr[|tr| - 1].net
  {
    RunEndsWithLastNet(Initial(n), t, inp, conf);
  }

  /**
   * Every network the trainer's own learning step produces is the update of
   * the one before it with that network's summed deltas on the batch, and the
   * cost the loop compares is that network's validation cost.
   */
  lemma LearnerSteps(m: Libm, inp: TrainInputs, conf: TrainConfig, n: Net, batch: seq<Example>, lw: seq<Matrix>, lb: seq<Vector>)
    requires StepInputFits(n, batch, lw, lb, n.layerSizes) && InputsFit(inp, n.layerSizes)
    ensures var t := Learner(m, ValidationSet(inp), conf);
      var c := BatchContribution(n, m, batch);
      && t.learn.requires(n, batch, lw, lb)
      && t.learn(n, batch, lw, lb) == Outcome(Updated(n, c.weights, c.biases, lw, lb, |batch|, conf), c.weights, c.biases)
      && (inp.validation.Some? ==>
            t.validate(t.learn(n, batch, lw, lb).net) == ValidationCost(t.learn(n, batch, lw, lb).net, m, inp.validation.value, conf))
  {
    var o := TrainStep(n, m, batch, lw, lb, conf);
    assert Learner(m, ValidationSet(inp), conf).learn(n, batch, lw, lb) == o;
    if inp.validation.Some? {
      assert AllFit(o.net.layerSizes, inp.validation.value);
    }
  }
}
