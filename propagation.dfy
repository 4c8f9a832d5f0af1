/**
 * The forward pass (evaluation), back-propagation of the output error, the
 * per-example parameter deltas, their reduction over a batch, and the
 * validation error of an example.
 */
module Propagation {
  import opened Linalg
  import opened Activation
  import opened NetworkData
  import opened Gradients

  /**
   * The per-layer buffers of one pass: `layers[j]` the activations of layer
   * `j`, `inputs[j]` its pre-activation values (weighted sum plus bias).
   */
  datatype Pass = Pass(layers: seq<Vector>, inputs: seq<Vector>)

  /** Buffers a pass can start from: one per layer, and an input vector of the input layer's size. */
  predicate Ready(n: Net, p: Pass)
    requires WellFormed(n)
  {
    |p.layers| == |n.layerSizes| && |p.inputs| == |n.layerSizes| && |p.layers[0]| == n.layerSizes[0]
  }

  /** The pre-activation values of layer `j` given the activations `prev` of layer `j - 1`. */
  function LayerInput(n: Net, prev: Vector, j: nat): (r: Vector)
    requires WellFormed(n) && 1 <= j < |n.layerSizes| && |prev| == n.layerSizes[j - 1]
    ensures |r| == n.layerSizes[j]
    ensures forall k :: 0 <= k < |r| ==> r[k] == Dot(prev, Column(n.weights[j], k)) + n.biases[j][k]
  {
    ZipAdd(VecMat(prev, n.weights[j]), n.biases[j])
  }

  /** The activation function applied to every pre-activation value of a layer. */
  function ActivateLayer(af: ActivationFunction, m: Libm, x: Vector, coeff: real): (r: Vector)
    ensures |r| == |x|
    ensures forall k :: 0 <= k < |r| ==> r[k] == Activate(af, m, x[k], coeff)
  {
    seq(|x|, k requires 0 <= k < |x| => Activate(af, m, x[k], coeff))
  }

  /**
   * The buffers after the first `k` steps of the forward pass: step `j`
   * computes layer `j` from layer `j - 1`. Layer 0 is never written and
   * layers above `k` are left as they were.
   */
  function Forward(n: Net, m: Libm, p: Pass, k: nat): (r: Pass)
    requires WellFormed(n) && Ready(n, p) && k < |n.layerSizes|
    ensures Ready(n, r)
    ensures r.layers[0] == p.layers[0] && r.inputs[0] == p.inputs[0]
    ensures forall j {:trigger r.layers[j]} :: 1 <= j <= k ==> |r.layers[j]| == n.layerSizes[j]
    ensures forall j {:trigger r.inputs[j]} :: 1 <= j <= k ==> |r.inputs[j]| == n.layerSizes[j]
    ensures forall j {:trigger r.layers[j]} :: k < j < |n.layerSizes| ==> r.layers[j] == p.layers[j]
    ensures forall j {:trigger r.inputs[j]} :: k < j < |n.layerSizes| ==> r.inputs[j] == p.inputs[j]
    decreases k
  {
    if k == 0 then p
    else
      var q := Forward(n, m, p, k - 1);
      var x := LayerInput(n, q.layers[k - 1], k);
      Pass(q.layers[k := ActivateLayer(n.activationFn, m, x, n.activationCoeffs[k])], q.inputs[k := x])
  }

  /** Layer `j` of the buffers is computed from layer `j - 1`. */
  predicate LayerComputed(n: Net, m: Libm, r: Pass, j: nat)
    requires WellFormed(n) && Ready(n, r) && 1 <= j < |n.layerSizes|
  {
    && |r.layers[j - 1]| == n.layerSizes[j - 1]
    && r.inputs[j] == LayerInput(n, r.layers[j - 1], j)
    && r.layers[j] == ActivateLayer(n.activationFn, m, r.inputs[j], n.activationCoeffs[j])
  }

  /** The layer-by-layer recurrence holds within the first `k` steps. */
  predicate Consistent(n: Net, m: Libm, r: Pass, k: nat)
    requires WellFormed(n) && Ready(n, r) && k < |n.layerSizes|
  {
    forall j :: 1 <= j <= k ==> LayerComputed(n, m, r, j)
  }

  /**
   * After `k` steps every computed layer is the activation of its
   * pre-activation values, and those are computed from the layer below.
   */
  lemma {:induction false} ForwardConsistent(n: Net, m: Libm, p: Pass, k: nat)
    requires WellFormed(n) && Ready(n, p) && k < |n.layerSizes|
    ensures Consistent(n, m, Forward(n, m, p, k), k)
  {
    if k > 0 {
      ForwardConsistent(n, m, p, k - 1);
      var q := Forward(n, m, p, k - 1);
      var r := Forward(n, m, p, k);
      forall j | 1 <= j <= k ensures LayerComputed(n, m, r, j) {
        if j < k {
          assert LayerComputed(n, m, q, j);
          assert r.layers[j - 1] == q.layers[j - 1] && r.layers[j] == q.layers[j] && r.inputs[j] == q.inputs[j];
        }
      }
    }
  }

  /**
   * Later steps never rewrite a layer computed earlier: layer `j` after
   * `k'` steps is layer `j` after any `k` steps with `j <= k <= k'`.
   */
  lemma {:induction false} ForwardPrefixStable(n: Net, m: Libm, p: Pass, j: nat, k: nat, k': nat)
    requires WellFormed(n) && Ready(n, p) && j <= k <= k' < |n.layerSizes|
    ensures Forward(n, m, p, k').layers[j] == Forward(n, m, p, k).layers[j]
    ensures Forward(n, m, p, k').inputs[j] == Forward(n, m, p, k).inputs[j]
  {
    if k < k' {
      ForwardPrefixStable(n, m, p, j, k, k' - 1);
    }
  }

  /**
   * Only the input layer matters: two passes whose buffers agree on layer 0
   * compute the same layers, whatever the other buffers held before.
   */
  lemma {:induction false} ForwardIgnoresStaleBuffers(n: Net, m: Libm, p: Pass, p': Pass, k: nat)
    requires WellFormed(n) && Ready(n, p) && Ready(n, p') && k < |n.layerSizes|
    requires p.layers[0] == p'.layers[0]
    ensures forall j :: 0 <= j <= k ==> Forward(n, m, p, k).layers[j] == Forward(n, m, p', k).layers[j]
    ensures forall j :: 1 <= j <= k ==> Forward(n, m, p, k).inputs[j] == Forward(n, m, p', k).inputs[j]
  {
    if k > 0 {
      ForwardIgnoresStaleBuffers(n, m, p, p', k - 1);
    }
  }

  /** In a sigmoid network every computed activation lies strictly between 0 and 1. */
  lemma SigmoidActivationsBounded(n: Net, m: Libm, p: Pass, k: nat)
    requires WellFormed(n) && Ready(n, p) && k < |n.layerSizes| && n.activationFn == Sigmoid
    ensures forall j, i :: 1 <= j <= k && 0 <= i < |Forward(n, m, p, k).layers[j]| ==>
      0.0 < Forward(n, m, p, k).layers[j][i] < 1.0
  {
    var r := Forward(n, m, p, k);
    ForwardConsistent(n, m, p, k);
    forall j, i | 1 <= j <= k && 0 <= i < |r.layers[j]| ensures 0.0 < r.layers[j][i] < 1.0 {
      assert LayerComputed(n, m, r, j);
      SigmoidBounds(m, r.inputs[j][i], n.activationCoeffs[j]);
    }
  }

  /**
   * Runs the first `stopAt - 1` steps of the forward pass over the buffers,
   * computing each layer's pre-activation values and activations in turn.
   */
  method FeedForward(n: Net, m: Libm, layers: seq<Vector>, layerInputs: seq<Vector>, stopAt: nat)
    returns (layers': seq<Vector>, layerInputs': seq<Vector>)
    requires WellFormed(n) && Ready(n, Pass(layers, layerInputs)) && 1 <= stopAt <= |n.layerSizes|
    ensures Pass(layers', layerInputs') == Forward(n, m, Pass(layers, layerInputs), stopAt - 1)
  {
    layers', layerInputs' := layers, layerInputs;
    for it := 0 to stopAt - 1
      invariant Pass(layers', layerInputs') == Forward(n, m, Pass(layers, layerInputs), it)
    {
      var input := VecMat(layers'[it], n.weights[it + 1]);
      layerInputs' := layerInputs'[it + 1 := ZipAdd(input, n.biases[it + 1])];
      layers' := layers'[it + 1 := ActivateLayer(n.activationFn, m, layerInputs'[it + 1], n.activationCoeffs[it + 1])];
    }
  }

  /** The buffers evaluation starts from: the example as layer 0, zeros elsewhere. */
  function Start(n: Net, example: Vector): (p: Pass)
    requires WellFormed(n) && |example| == n.layerSizes[0]
    ensures Ready(n, p)
  {
    Pass(ZeroLayers(n.layerSizes)[0 := example], ZeroLayers(n.layerSizes))
  }

  /** The complete forward pass of an example. */
  function Evaluated(n: Net, m: Libm, example: Vector): (r: Pass)
    requires WellFormed(n) && |example| == n.layerSizes[0]
    ensures Ready(n, r) && r.layers[0] == example
    ensures forall j :: 0 <= j < |n.layerSizes| ==> |r.layers[j]| == n.layerSizes[j] && |r.inputs[j]| == n.layerSizes[j]
  {
    Forward(n, m, Start(n, example), |n.layerSizes| - 1)
  }

  /** The output layer of the complete forward pass of an example. */
  function Output(n: Net, m: Libm, example: Vector): (out: Vector)
    requires WellFormed(n) && |example| == n.layerSizes[0]
    ensures |out| == n.layerSizes[|n.layerSizes| - 1]
  {
    Evaluated(n, m, example).layers[|n.layerSizes| - 1]
  }

  /**
   * Puts the example into layer 0 of `layers` and runs the whole forward
   * pass over them; `stopAt` is accepted and ignored.
   */
  method EvalImpl(n: Net, m: Libm, layers: seq<Vector>, example: Vector, stopAt: nat) returns (layers': seq<Vector>)
    requires WellFormed(n) && |layers| == |n.layerSizes| && |example| == n.layerSizes[0]
    ensures layers' == Evaluated(n, m, example).layers
  {
    var li := ZeroLayers(n.layerSizes);
    var start := layers[0 := example];
    var inputs';
    layers', inputs' := FeedForward(n, m, start, li, |start|);
    assert |start| == |n.layerSizes| && start[0] == example;
    CompletePassEvaluates(n, m, Pass(start, li));
  }

  /**
   * A complete pass over buffers holding an input layer computes that
   * input's evaluation, whatever the other buffers held before.
   */
  lemma CompletePassEvaluates(n: Net, m: Libm, p: Pass)
    requires WellFormed(n) && Ready(n, p)
    ensures Forward(n, m, p, |n.layerSizes| - 1).layers == Evaluated(n, m, p.layers[0]).layers
  {
    ForwardIgnoresStaleBuffers(n, m, p, Start(n, p.layers[0]), |n.layerSizes| - 1);
  }

  /**
   * The network's output for an example: the activations of the last layer
   * after a complete forward pass. With a single layer that is the example.
   */
  method Eval(n: Net, m: Libm, example: Vector) returns (out: Vector)
    requires WellFormed(n) && |example| == n.layerSizes[0]
    ensures out == Evaluated(n, m, example).layers[|n.layerSizes| - 1]
    ensures |out| == n.layerSizes[|n.layerSizes| - 1]
    ensures |n.layerSizes| == 1 ==> out == example
  {
    var layers := ZeroLayers(n.layerSizes);
    layers := EvalImpl(n, m, layers, example, |layers|);
    out := layers[|layers| - 1];
  }

  /**
   * The activations of layer `layer - 1` (layers counted from 1) after a
   * complete forward pass; they are those a pass stopping at that layer
   * would give, so running the pass to the end changes nothing.
   */
  method EvalToLayer(n: Net, m: Libm, example: Vector, layer: nat) returns (out: Vector)
    requires WellFormed(n) && |example| == n.layerSizes[0] && 1 <= layer <= |n.layerSizes|
    ensures out == Evaluated(n, m, example).layers[layer - 1]
    ensures |out| == n.layerSizes[layer - 1]
  {
    var layers := ZeroLayers(n.layerSizes);
    layers := EvalImpl(n, m, layers, example, layer);
    out := layers[layer - 1];
  }

  /**
   * Layer `j` of a complete pass is what a pass stopping right after layer
   * `j` computes: evaluating to an intermediate layer loses nothing by
   * running the pass to the end.
   */
  lemma CompletePassPrefix(n: Net, m: Libm, p: Pass, j: nat)
    requires WellFormed(n) && Ready(n, p) && j < |n.layerSizes|
    ensures Forward(n, m, p, |n.layerSizes| - 1).layers[j] == Forward(n, m, p, j).layers[j]
  {
    ForwardPrefixStable(n, m, p, j, j, |n.layerSizes| - 1);
  }

  // ---------------------------------------------------------------------
  // Back-propagation

  /** The slope of the activation at every pre-activation value, with each layer's coefficient. */
  function Slopes(n: Net, m: Libm, inputs: seq<Vector>): (r: seq<Vector>)
    requires WellFormed(n) && |inputs| == |n.layerSizes|
    ensures |r| == |inputs| && forall j :: 0 <= j < |r| ==> |r[j]| == |inputs[j]|
  {
    seq(|inputs|, j requires 0 <= j < |inputs| =>
      seq(|inputs[j]|, k requires 0 <= k < |inputs[j]| => Derivative(n.activationFn, m, inputs[j][k], n.activationCoeffs[j])))
  }

  /**
   * The error signal of layer `j`: for the last layer the output error times
   * the slopes, for every other layer the next layer's signal carried back
   * through the weights (`weights[j + 1] * delta[j + 1]`) times the slopes.
   */
  function Delta(n: Net, slopes: seq<Vector>, diff: Vector, j: nat): (r: Vector)
    requires WellFormed(n) && BiasesShaped(slopes, n.layerSizes) && |diff| == n.layerSizes[|n.layerSizes| - 1]
    requires j < |n.layerSizes|
    ensures |r| == n.layerSizes[j]
    decreases |n.layerSizes| - j
  {
    if j == |n.layerSizes| - 1 then ZipMul(diff, slopes[j])
    else ZipMul(MatVec(n.weights[j + 1], Delta(n, slopes, diff, j + 1)), slopes[j])
  }

  function Deltas(n: Net, slopes: seq<Vector>, diff: Vector): (r: seq<Vector>)
    requires WellFormed(n) && BiasesShaped(slopes, n.layerSizes) && |diff| == n.layerSizes[|n.layerSizes| - 1]
    ensures BiasesShaped(r, n.layerSizes)
  {
    seq(|n.layerSizes|, j requires 0 <= j < |n.layerSizes| => Delta(n, slopes, diff, j))
  }

  /** Replaces every pre-activation value by the activation's slope there. */
  method ComputeSlopes(n: Net, m: Libm, layerInputs: seq<Vector>) returns (slopes: seq<Vector>)
    requires WellFormed(n) && |layerInputs| == |n.layerSizes|
    ensures slopes == Slopes(n, m, layerInputs)
  {
    slopes := layerInputs;
    for j := 0 to |slopes|
      invariant |slopes| == |layerInputs|
      invariant forall q :: 0 <= q < j ==> slopes[q] == Slopes(n, m, layerInputs)[q]
      invariant forall q :: j <= q < |slopes| ==> slopes[q] == layerInputs[q]
    {
      var layer := slopes[j];
      for k := 0 to |layer|
        invariant |layer| == |layerInputs[j]|
        invariant forall q :: 0 <= q < k ==> layer[q] == Derivative(n.activationFn, m, layerInputs[j][q], n.activationCoeffs[j])
        invariant forall q :: k <= q < |layer| ==> layer[q] == layerInputs[j][q]
      {
        layer := layer[k := Derivative(n.activationFn, m, layer[k], n.activationCoeffs[j])];
      }
      slopes := slopes[j := layer];
    }
  }

  /**
   * The error signals of all layers for one example, from the pre-activation
   * values of its forward pass and the difference between output and target,
   * filled in from the last layer down to the first.
   */
  method Backpropagate(n: Net, m: Libm, layerInputs: seq<Vector>, outLayerDiff: Vector) returns (delta: seq<Vector>)
    requires WellFormed(n) && BiasesShaped(layerInputs, n.layerSizes)
    requires |outLayerDiff| == n.layerSizes[|n.layerSizes| - 1]
    ensures delta == Deltas(n, Slopes(n, m, layerInputs), outLayerDiff)
  {
    var slopes := ComputeSlopes(n, m, layerInputs);
    assert BiasesShaped(slopes, n.layerSizes);
    var last := |n.layerSizes| - 1;
    delta := ZeroLayers(n.layerSizes);
    delta := delta[last := ZipMul(outLayerDiff, slopes[last])];
    var it := last;
    while it > 0
      invariant 0 <= it <= last && |delta| == |n.layerSizes|
      invariant forall j {:trigger delta[j]} :: it <= j <= last ==> delta[j] == Delta(n, slopes, outLayerDiff, j)
    {
      it := it - 1;
      var nextDelta := MatVec(n.weights[it + 1], delta[it + 1]);
      ghost var before := delta;
      delta := delta[it := ZipMul(nextDelta, slopes[it])];
      DeltaBelowLast(n, slopes, outLayerDiff, it);
      assert forall j {:trigger delta[j]} :: it < j <= last ==> delta[j] == before[j];
    }
    assert forall j :: 0 <= j < |delta| ==> delta[j] == Deltas(n, slopes, outLayerDiff)[j];
  }

  /** Below the output layer the error signal is the next layer's signal carried back through its weights, times the slopes. */
  lemma DeltaBelowLast(n: Net, slopes: seq<Vector>, diff: Vector, j: nat)
    requires WellFormed(n) && BiasesShaped(slopes, n.layerSizes) && |diff| == n.layerSizes[|n.layerSizes| - 1]
    requires j < |n.layerSizes| - 1
    ensures Delta(n, slopes, diff, j) == ZipMul(MatVec(n.weights[j + 1], Delta(n, slopes, diff, j + 1)), slopes[j])
  {
  }

  /** With no output error every error signal is zero. */
  lemma {:induction false} ZeroErrorZeroDelta(n: Net, slopes: seq<Vector>, diff: Vector, j: nat)
    requires WellFormed(n) && BiasesShaped(slopes, n.layerSizes) && |diff| == n.layerSizes[|n.layerSizes| - 1]
    requires j < |n.layerSizes| && IsZero(diff)
    ensures IsZero(Delta(n, slopes, diff, j))
    decreases |n.layerSizes| - j
  {
    if j < |n.layerSizes| - 1 {
      ZeroErrorZeroDelta(n, slopes, diff, j + 1);
      MatVecZero(n.weights[j + 1], Delta(n, slopes, diff, j + 1));
    }
  }

  lemma ZeroErrorZeroDeltas(n: Net, slopes: seq<Vector>, diff: Vector)
    requires WellFormed(n) && BiasesShaped(slopes, n.layerSizes) && |diff| == n.layerSizes[|n.layerSizes| - 1]
    requires IsZero(diff)
    ensures forall j :: 0 <= j < |n.layerSizes| ==> IsZero(Deltas(n, slopes, diff)[j])
  {
    forall j | 0 <= j < |n.layerSizes| ensures IsZero(Deltas(n, slopes, diff)[j]) {
      ZeroErrorZeroDelta(n, slopes, diff, j);
    }
  }

  /**
   * The input layer's coefficient is the 0.0 placeholder in every network
   * built from a definition; with it, the input layer's error signal is zero.
   */
  lemma InputDeltaVanishes(n: Net, m: Libm, inputs: seq<Vector>, diff: Vector)
    requires WellFormed(n) && BiasesShaped(inputs, n.layerSizes) && |diff| == n.layerSizes[|n.layerSizes| - 1]
    requires n.activationCoeffs[0] == 0.0
    ensures IsZero(Delta(n, Slopes(n, m, inputs), diff, 0))
  {
    var s := Slopes(n, m, inputs);
    forall k | 0 <= k < |s[0]| ensures s[0][k] == 0.0 {
      if n.activationFn != Identity {
        DerivativeSign(n.activationFn, m, inputs[0][k], 0.0);
      }
    }
  }
}
