/**
 * What one training example contributes to an epoch's update, the reduction
 * of those contributions over a batch, and the validation error.
 */
module Batches {
  import opened Linalg
  import opened Activation
  import opened NetworkData
  import opened Gradients
  import opened Propagation

  /** An example whose input fits the input layer and whose target fits the output layer. */
  predicate ExampleFits(ls: seq<nat>, ex: Example)
    requires |ls| > 0
  {
    |ex.input| == ls[0] && |ex.target| == ls[|ls| - 1]
  }

  predicate AllFit(ls: seq<nat>, batch: seq<Example>)
    requires |ls| > 0
  {
    forall i :: 0 <= i < |batch| ==> ExampleFits(ls, batch[i])
  }

  /** The network's output for an example minus the target. */
  function OutputDiff(n: Net, m: Libm, ex: Example): (d: Vector)
    requires WellFormed(n) && ExampleFits(n.layerSizes, ex)
    ensures |d| == n.layerSizes[|n.layerSizes| - 1]
  {
    VecSub(Output(n, m, ex.input), ex.target)
  }

  /** The error signals of every layer for one example. */
  function ExampleDeltas(n: Net, m: Libm, ex: Example): (delta: seq<Vector>)
    requires WellFormed(n) && ExampleFits(n.layerSizes, ex)
    ensures BiasesShaped(delta, n.layerSizes)
  {
    Deltas(n, Slopes(n, m, Evaluated(n, m, ex.input).inputs), OutputDiff(n, m, ex))
  }

  /** The mean squared output error of one example. */
  function ExampleError(n: Net, m: Libm, ex: Example): real
    requires WellFormed(n) && ExampleFits(n.layerSizes, ex)
  {
    var diff := OutputDiff(n, m, ex);
    NormSquared(diff) / (|diff| as real)
  }

  /**
   * One example's contribution: the parameter deltas computed from the
   * activations of its forward pass and the error signals back-propagated
   * from its output difference, and its mean squared output error.
   */
  function ExampleContribution(n: Net, m: Libm, ex: Example): (c: Contribution)
    requires WellFormed(n) && ExampleFits(n.layerSizes, ex)
    ensures ContributionShaped(c, n.layerSizes)
  {
    var layers := Evaluated(n, m, ex.input).layers;
    var delta := ExampleDeltas(n, m, ex);
    WeightUpdateShaped(n.layerSizes, layers, delta);
    var update := WeightUpdate(n.layerSizes, layers, delta);
    Contribution(update.0, update.1, ExampleError(n, m, ex))
  }

  /** An example's training error is never negative. */
  lemma ExampleErrorNonNegative(n: Net, m: Libm, ex: Example)
    requires WellFormed(n) && ExampleFits(n.layerSizes, ex)
    ensures ExampleContribution(n, m, ex).error >= 0.0
  {
    NormSquaredNonNegative(OutputDiff(n, m, ex));
  }

  /**
   * The map step of an epoch for one example: forward pass over fresh
   * buffers, output difference and error, back-propagation, deltas.
   */
  method ExampleGradient(n: Net, m: Libm, ex: Example) returns (c: Contribution)
    requires WellFormed(n) && ExampleFits(n.layerSizes, ex)
    ensures c == ExampleContribution(n, m, ex)
  {
    var ls := n.layerSizes;
    var layers := ZeroLayers(ls);
    layers := layers[0 := ex.input];
    var layerInputs := ZeroLayers(ls);
    layers, layerInputs := FeedForward(n, m, layers, layerInputs, |layers|);
    assert Pass(layers, layerInputs) == Evaluated(n, m, ex.input);
    var outLayerDiff := VecSub(layers[|layers| - 1], ex.target);
    var trainError := NormSquared(outLayerDiff) / (|outLayerDiff| as real);
    var residualErrors := Backpropagate(n, m, layerInputs, outLayerDiff);
    var weightUpdate, biasUpdate := ComputeWeightUpdate(ls, layers, residualErrors);
    c := Contribution(weightUpdate, biasUpdate, trainError);
  }

  /**
   * An example the network already reproduces exactly contributes nothing:
   * zero deltas and zero error.
   */
  lemma ExactFitContributesNothing(n: Net, m: Libm, ex: Example)
    requires WellFormed(n) && ExampleFits(n.layerSizes, ex)
    requires Output(n, m, ex.input) == ex.target
    ensures AtRest(ExampleContribution(n, m, ex))
  {
    var pass := Evaluated(n, m, ex.input);
    var diff := OutputDiff(n, m, ex);
    assert IsZero(diff);
    ZeroErrorZeroDeltas(n, Slopes(n, m, pass.inputs), diff);
    WeightUpdateOfZeroSignals(n.layerSizes, pass.layers, ExampleDeltas(n, m, ex));
    NormSquaredOfZero(diff);
  }

  /** `f` applied to every element of `s`. */
  function Map<A, B>(f: A --> B, s: seq<A>): (r: seq<B>)
    requires forall i :: 0 <= i < |s| ==> f.requires(s[i])
    ensures |r| == |s| && forall i :: 0 <= i < |s| ==> r[i] == f(s[i])
  {
    seq(|s|, i requires 0 <= i < |s| => f(s[i]))
  }

  lemma MapAppend<A, B>(f: A --> B, xs: seq<A>, ys: seq<A>)
    requires forall i :: 0 <= i < |xs| ==> f.requires(xs[i])
    requires forall i :: 0 <= i < |ys| ==> f.requires(ys[i])
    ensures forall i :: 0 <= i < |xs + ys| ==> f.requires((xs + ys)[i])
    ensures Map(f, xs + ys) == Map(f, xs) + Map(f, ys)
  {
    assert forall i :: 0 <= i < |xs + ys| ==> (xs + ys)[i] == if i < |xs| then xs[i] else ys[i - |xs|];
  }

  /** The contributions of the examples of a batch, in order. */
  function Contributions(n: Net, m: Libm, batch: seq<Example>): (cs: seq<Contribution>)
    requires WellFormed(n) && AllFit(n.layerSizes, batch)
    ensures |cs| == |batch| && AllShaped(cs, n.layerSizes)
    ensures forall i :: 0 <= i < |batch| ==> cs[i] == ExampleContribution(n, m, batch[i])
  {
    Map(ex requires WellFormed(n) && ExampleFits(n.layerSizes, ex) => ExampleContribution(n, m, ex), batch)
  }

  /** A batch's summed deltas and summed error. */
  function BatchContribution(n: Net, m: Libm, batch: seq<Example>): (c: Contribution)
    requires WellFormed(n) && AllFit(n.layerSizes, batch)
    ensures ContributionShaped(c, n.layerSizes)
  {
    Reduce(n.layerSizes, Contributions(n, m, batch))
  }

  /**
   * Maps every example of the batch to its contribution and sums them with
   * `WeightSum` and `BiasSum`, starting from the zero contribution.
   */
  method BatchGradient(n: Net, m: Libm, batch: seq<Example>) returns (c: Contribution)
    requires WellFormed(n) && AllFit(n.layerSizes, batch)
    ensures c == BatchContribution(n, m, batch)
  {
    var ls := n.layerSizes;
    ghost var cs := Contributions(n, m, batch);
    c := ZeroContribution(ls);
    assert cs[..0] == [];
    for i := 0 to |batch|
      invariant c == Reduce(ls, cs[..i])
    {
      var e := ExampleGradient(n, m, batch[i]);
      assert e == cs[i];
      ReduceSnoc(ls, cs, i);
      c := CombineSums(c, e);
    }
    assert cs[..|batch|] == cs;
  }

  /**
   * Splitting a batch anywhere and combining the two halves' contributions
   * gives the whole batch's contribution, so the batch may be reduced in
   * parallel in any grouping.
   */
  lemma BatchContributionSplit(n: Net, m: Libm, xs: seq<Example>, ys: seq<Example>)
    requires WellFormed(n) && AllFit(n.layerSizes, xs) && AllFit(n.layerSizes, ys)
    ensures AllFit(n.layerSizes, xs + ys)
    ensures PairwiseSameShape(BatchContribution(n, m, xs).weights, BatchContribution(n, m, ys).weights)
    ensures PairwiseSameLength(BatchContribution(n, m, xs).biases, BatchContribution(n, m, ys).biases)
    ensures BatchContribution(n, m, xs + ys) == Combine(BatchContribution(n, m, xs), BatchContribution(n, m, ys))
  {
    CombineShaped(BatchContribution(n, m, xs), BatchContribution(n, m, ys), n.layerSizes);
    ContributionsAppend(n, m, xs, ys);
    ReduceSplit(n.layerSizes, Contributions(n, m, xs), Contributions(n, m, ys));
  }

  lemma AllFitAppend(ls: seq<nat>, xs: seq<Example>, ys: seq<Example>)
    requires |ls| > 0 && AllFit(ls, xs) && AllFit(ls, ys)
    ensures AllFit(ls, xs + ys)
  {
    forall i | 0 <= i < |xs + ys| ensures ExampleFits(ls, (xs + ys)[i]) {
      if i >= |xs| {
        assert (xs + ys)[i] == ys[i - |xs|];
      }
    }
  }

  lemma ContributionsAppend(n: Net, m: Libm, xs: seq<Example>, ys: seq<Example>)
    requires WellFormed(n) && AllFit(n.layerSizes, xs) && AllFit(n.layerSizes, ys)
    ensures AllFit(n.layerSizes, xs + ys)
    ensures Contributions(n, m, xs + ys) == Contributions(n, m, xs) + Contributions(n, m, ys)
  {
    AllFitAppend(n.layerSizes, xs, ys);
    MapAppend(ex requires WellFormed(n) && ExampleFits(n.layerSizes, ex) => ExampleContribution(n, m, ex), xs, ys);
  }

  /** The order of the two halves of a batch does not change its contribution. */
  lemma BatchContributionRotate(n: Net, m: Libm, xs: seq<Example>, ys: seq<Example>)
    requires WellFormed(n) && AllFit(n.layerSizes, xs) && AllFit(n.layerSizes, ys)
    ensures AllFit(n.layerSizes, xs + ys) && AllFit(n.layerSizes, ys + xs)
    ensures BatchContribution(n, m, xs + ys) == BatchContribution(n, m, ys + xs)
  {
    BatchContributionSplit(n, m, xs, ys);
    BatchContributionSplit(n, m, ys, xs);
    CombineCommutes(BatchContribution(n, m, xs), BatchContribution(n, m, ys), n.layerSizes);
  }

  /** A batch the network already reproduces exactly contributes nothing. */
  lemma FittedBatchContributesNothing(n: Net, m: Libm, batch: seq<Example>)
    requires WellFormed(n) && AllFit(n.layerSizes, batch)
    requires forall i :: 0 <= i < |batch| ==> Output(n, m, batch[i].input) == batch[i].target
    ensures AtRest(BatchContribution(n, m, batch))
  {
    var cs := Contributions(n, m, batch);
    forall i | 0 <= i < |cs| ensures AtRest(cs[i]) {
      ExactFitContributesNothing(n, m, batch[i]);
    }
    ReduceAtRest(n.layerSizes, cs);
  }

  // ---------------------------------------------------------------------
  // Validation

  /** The mean squared difference between an example's target and the network's output. */
  function ExampleValidationError(n: Net, m: Libm, ex: Example): (e: real)
    requires WellFormed(n) && ExampleFits(n.layerSizes, ex)
  {
    var out := Output(n, m, ex.input);
    NormSquared(VecSub(ex.target, out)) / (|out| as real)
  }

  /**
   * The validation error is never negative, and it is zero when the network
   * reproduces the target.
   */
  lemma ExampleValidationErrorBounds(n: Net, m: Libm, ex: Example)
    requires WellFormed(n) && ExampleFits(n.layerSizes, ex)
    ensures ExampleValidationError(n, m, ex) >= 0.0
    ensures Output(n, m, ex.input) == ex.target ==> ExampleValidationError(n, m, ex) == 0.0
  {
    var out := Output(n, m, ex.input);
    var d := VecSub(ex.target, out);
    NormSquaredNonNegative(d);
    if out == ex.target {
      NormSquaredOfZero(d);
    }
  }

  /**
   * Evaluates an example over the given buffers and returns the mean
   * squared difference between its target and the output.
   */
  method ValidationErrorOf(n: Net, m: Libm, layers: seq<Vector>, ex: Example) returns (e: real)
    requires WellFormed(n) && |layers| == |n.layerSizes| && ExampleFits(n.layerSizes, ex)
    ensures e == ExampleValidationError(n, m, ex)
  {
    var evaluated := EvalImpl(n, m, layers, ex.input, |layers|);
    var out := evaluated[|evaluated| - 1];
    e := NormSquared(VecSub(ex.target, out)) / (|out| as real);
  }

  /** The validation error of every example of a validation set, in order. */
  function ValidationErrors(n: Net, m: Libm, v: seq<Example>): (errs: seq<real>)
    requires WellFormed(n) && AllFit(n.layerSizes, v)
    ensures |errs| == |v| && forall i :: 0 <= i < |v| ==> errs[i] == ExampleValidationError(n, m, v[i])
  {
    Map(ex requires WellFormed(n) && ExampleFits(n.layerSizes, ex) => ExampleValidationError(n, m, ex), v)
  }

  /**
   * The mean validation error over a validation set. For an empty set the
   * trainer divides zero by zero; that value only ever reaches `Cost`, which
   * returns 0 for zero examples, so it is represented by 0 here.
   */
  function ValidationError(n: Net, m: Libm, v: seq<Example>): (e: real)
    requires WellFormed(n) && AllFit(n.layerSizes, v)
  {
    Mean(ValidationErrors(n, m, v))
  }

  /** The mean validation error is never negative. */
  lemma ValidationErrorNonNegative(n: Net, m: Libm, v: seq<Example>)
    requires WellFormed(n) && AllFit(n.layerSizes, v)
    ensures ValidationError(n, m, v) >= 0.0
  {
    var errs := ValidationErrors(n, m, v);
    forall i | 0 <= i < |v| ensures errs[i] >= 0.0 {
      ExampleValidationErrorBounds(n, m, v[i]);
    }
    MeanNonNegative(errs);
  }

  /**
   * A network that reproduces every validation target has zero validation
   * error.
   */
  lemma FittedValidationErrorZero(n: Net, m: Libm, v: seq<Example>)
    requires WellFormed(n) && AllFit(n.layerSizes, v)
    requires forall i :: 0 <= i < |v| ==> Output(n, m, v[i].input) == v[i].target
    ensures ValidationError(n, m, v) == 0.0
  {
    var errs := ValidationErrors(n, m, v);
    FittedValidationErrorsZero(n, m, v);
    MeanOfZeros(errs);
  }

  /** A network that reproduces every validation target has zero error on each example. */
  lemma FittedValidationErrorsZero(n: Net, m: Libm, v: seq<Example>)
    requires WellFormed(n) && AllFit(n.layerSizes, v)
    requires forall i :: 0 <= i < |v| ==> Output(n, m, v[i].input) == v[i].target
    ensures forall i :: 0 <= i < |v| ==> ValidationErrors(n, m, v)[i] == 0.0
  {
    forall i | 0 <= i < |v| ensures ExampleValidationError(n, m, v[i]) == 0.0 {
      ExampleValidationErrorBounds(n, m, v[i]);
    }
  }

  /**
   * Sums the validation errors of the examples one by one, each over fresh
   * layer buffers, and divides by the number of examples.
   */
  method MeanValidationError(n: Net, m: Libm, v: seq<Example>) returns (e: real)
    requires WellFormed(n) && AllFit(n.layerSizes, v)
    ensures e == ValidationError(n, m, v)
  {
    ghost var errs := ValidationErrors(n, m, v);
    var total := 0.0;
    for i := 0 to |v|
      invariant total == Sum(errs[..i])
    {
      var layers := ZeroLayers(n.layerSizes);
      var err := ValidationErrorOf(n, m, layers, v[i]);
      assert err == errs[i];
      SumPrefixStep(errs, i);
      total := total + err;
    }
    assert errs[..|v|] == errs;
    if |v| == 0 {
      e := 0.0;
    } else {
      e := total / (|v| as real);
    }
  }
}
