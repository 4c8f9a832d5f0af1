/**
 * Gradient bookkeeping: summing per-example parameter deltas, the reduction
 * that combines them over a batch, the per-example delta computed from the
 * error signals, and the rule that applies a summed delta to the parameters
 * (gradient step, L2 shrinkage of the first weight layer, momentum).
 */
module Gradients {
  import opened Linalg
  import opened NetworkData

  /**
   * What one example, or a whole batch, contributes: a delta per weight
   * matrix, a delta per bias vector, and the (summed) training error.
   */
  datatype Contribution = Contribution(weights: seq<Matrix>, biases: seq<Vector>, error: real)

  /** Matrices that the zip in `WeightSum` pairs up have equal dimensions. */
  predicate PairwiseSameShape(d1: seq<Matrix>, d2: seq<Matrix>) {
    forall i :: 0 <= i < |d1| && i < |d2| ==> SameShape(d1[i], d2[i])
  }

  /** Vectors that the zip in `BiasSum` pairs up have equal lengths. */
  predicate PairwiseSameLength(b1: seq<Vector>, b2: seq<Vector>) {
    forall i :: 0 <= i < |b1| && i < |b2| ==> |b1[i]| == |b2[i]|
  }

  /** `d1` with each matrix that has a partner in `d2` increased by that partner. */
  function AddWeights(d1: seq<Matrix>, d2: seq<Matrix>): seq<Matrix>
    requires PairwiseSameShape(d1, d2)
  {
    seq(|d1|, i requires 0 <= i < |d1| => if i < |d2| then MatAdd(d1[i], d2[i]) else d1[i])
  }

  /** `b1` with each vector that has a partner in `b2` increased by that partner. */
  function AddBiases(b1: seq<Vector>, b2: seq<Vector>): seq<Vector>
    requires PairwiseSameLength(b1, b2)
  {
    seq(|b1|, i requires 0 <= i < |b1| => if i < |b2| then ZipAdd(b1[i], b2[i]) else b1[i])
  }

  /**
   * Adds `delta2` into `delta1` matrix by matrix. The pairing stops at the
   * shorter list; matrices of `delta1` without a partner are kept.
   */
  method WeightSum(delta1: seq<Matrix>, delta2: seq<Matrix>) returns (r: seq<Matrix>)
    requires PairwiseSameShape(delta1, delta2)
    ensures |r| == |delta1|
    ensures forall i :: 0 <= i < |delta1| && i < |delta2| ==>
      Shaped(r[i], delta1[i].nrows, delta1[i].ncols) &&
      forall j, k :: 0 <= j < delta1[i].nrows && 0 <= k < delta1[i].ncols ==>
        r[i].rows[j][k] == delta1[i].rows[j][k] + delta2[i].rows[j][k]
    ensures forall i :: |delta2| <= i < |delta1| ==> r[i] == delta1[i]
    ensures r == AddWeights(delta1, delta2)
  {
    r := delta1;
    var i := 0;
    while i < |delta1| && i < |delta2|
      invariant 0 <= i <= |delta1|
      invariant |r| == |delta1|
      invariant forall k :: 0 <= k < i ==> k < |delta2| && r[k] == MatAdd(delta1[k], delta2[k])
      invariant forall k :: i <= k < |delta1| ==> r[k] == delta1[k]
    {
      r := r[i := MatAdd(r[i], delta2[i])];
      i := i + 1;
    }
  }

  /**
   * Adds `bias2` into `bias1` vector by vector. The pairing stops at the
   * shorter list; vectors of `bias1` without a partner are kept.
   */
  method BiasSum(bias1: seq<Vector>, bias2: seq<Vector>) returns (r: seq<Vector>)
    requires PairwiseSameLength(bias1, bias2)
    ensures |r| == |bias1|
    ensures forall i :: 0 <= i < |bias1| && i < |bias2| ==>
      |r[i]| == |bias1[i]| && forall k :: 0 <= k < |bias1[i]| ==> r[i][k] == bias1[i][k] + bias2[i][k]
    ensures forall i :: |bias2| <= i < |bias1| ==> r[i] == bias1[i]
    ensures r == AddBiases(bias1, bias2)
  {
    r := bias1;
    var i := 0;
    while i < |bias1| && i < |bias2|
      invariant 0 <= i <= |bias1|
      invariant |r| == |bias1|
      invariant forall k :: 0 <= k < i ==> k < |bias2| && r[k] == ZipAdd(bias1[k], bias2[k])
      invariant forall k :: i <= k < |bias1| ==> r[k] == bias1[k]
    {
      r := r[i := ZipAdd(r[i], bias2[i])];
      i := i + 1;
    }
  }

  /** A contribution whose deltas have the shapes of a network with layer sizes `ls`. */
  predicate ContributionShaped(c: Contribution, ls: seq<nat>) {
    WeightsShaped(c.weights, ls) && BiasesShaped(c.biases, ls)
  }

  /** The identity of the reduction: all-zero deltas and no error. */
  function ZeroContribution(ls: seq<nat>): (z: Contribution)
    requires |ls| > 0
    ensures ContributionShaped(z, ls)
  {
    Contribution(ZeroWeights(ls), ZeroLayers(ls), 0.0)
  }

  /** The reduction step: deltas and errors summed. */
  function Combine(a: Contribution, b: Contribution): Contribution
    requires PairwiseSameShape(a.weights, b.weights) && PairwiseSameLength(a.biases, b.biases)
  {
    Contribution(AddWeights(a.weights, b.weights), AddBiases(a.biases, b.biases), a.error + b.error)
  }

  /** The reduction step of the batch map-reduce: deltas added pairwise, errors summed. */
  method CombineSums(a: Contribution, b: Contribution) returns (r: Contribution)
    requires PairwiseSameShape(a.weights, b.weights) && PairwiseSameLength(a.biases, b.biases)
    ensures r == Combine(a, b)
  {
    var w := WeightSum(a.weights, b.weights);
    var bs := BiasSum(a.biases, b.biases);
    r := Contribution(w, bs, a.error + b.error);
  }

  lemma CombineShaped(a: Contribution, b: Contribution, ls: seq<nat>)
    requires ContributionShaped(a, ls) && ContributionShaped(b, ls)
    ensures PairwiseSameShape(a.weights, b.weights) && PairwiseSameLength(a.biases, b.biases)
    ensures ContributionShaped(Combine(a, b), ls)
  {
  }

  /** Combining is commutative on contributions of one shape. */
  lemma CombineCommutes(a: Contribution, b: Contribution, ls: seq<nat>)
    requires ContributionShaped(a, ls) && ContributionShaped(b, ls)
    ensures Combine(a, b) == Combine(b, a)
  {
    forall i | 0 <= i < |ls| ensures AddWeights(a.weights, b.weights)[i] == AddWeights(b.weights, a.weights)[i] {
      MatAddCommutes(a.weights[i], b.weights[i]);
    }
    forall i | 0 <= i < |ls| ensures AddBiases(a.biases, b.biases)[i] == AddBiases(b.biases, a.biases)[i] {
      VecAddCommutes(a.biases[i], b.biases[i]);
    }
  }

  /** Combining is associative on contributions of one shape. */
  lemma CombineAssociates(a: Contribution, b: Contribution, c: Contribution, ls: seq<nat>)
    requires ContributionShaped(a, ls) && ContributionShaped(b, ls) && ContributionShaped(c, ls)
    ensures ContributionShaped(Combine(a, b), ls) && ContributionShaped(Combine(b, c), ls)
    ensures Combine(Combine(a, b), c) == Combine(a, Combine(b, c))
  {
    var ab, bc := Combine(a, b), Combine(b, c);
    forall i | 0 <= i < |ls|
      ensures AddWeights(ab.weights, c.weights)[i] == AddWeights(a.weights, bc.weights)[i]
    {
      MatAddAssociates(a.weights[i], b.weights[i], c.weights[i]);
    }
    forall i | 0 <= i < |ls|
      ensures AddBiases(ab.biases, c.biases)[i] == AddBiases(a.biases, bc.biases)[i]
    {
      VecAddAssociates(a.biases[i], b.biases[i], c.biases[i]);
    }
  }

  /** The zero contribution is a left and a right identity of `Combine`. */
  lemma CombineZero(a: Contribution, ls: seq<nat>)
    requires ContributionShaped(a, ls)
    ensures Combine(ZeroContribution(ls), a) == a
    ensures Combine(a, ZeroContribution(ls)) == a
  {
    var z := ZeroContribution(ls);
    forall i | 0 <= i < |ls| ensures AddWeights(z.weights, a.weights)[i] == a.weights[i] {
      MatAddZero(a.weights[i]);
    }
    forall i | 0 <= i < |ls| ensures AddBiases(z.biases, a.biases)[i] == a.biases[i] {
      VecAddZero(a.biases[i]);
    }
    CombineCommutes(a, z, ls);
  }

  predicate AllShaped(cs: seq<Contribution>, ls: seq<nat>) {
    forall i :: 0 <= i < |cs| ==> ContributionShaped(cs[i], ls)
  }

  /** The contributions of a batch reduced from the zero contribution, left to right. */
  function Reduce(ls: seq<nat>, cs: seq<Contribution>): (r: Contribution)
    requires |ls| > 0 && AllShaped(cs, ls)
    ensures ContributionShaped(r, ls)
  {
    if |cs| == 0 then ZeroContribution(ls)
    else
      var r := Reduce(ls, cs[..|cs| - 1]);
      CombineShaped(r, cs[|cs| - 1], ls);
      Combine(r, cs[|cs| - 1])
  }

  /**
   * Reducing a batch split in two and combining the halves gives the same
   * result as reducing it whole: the reduction may be evaluated as any tree
   * of `Combine`s, which is what lets the batch be reduced in parallel.
   */
  lemma {:induction false} ReduceSplit(ls: seq<nat>, xs: seq<Contribution>, ys: seq<Contribution>)
    requires |ls| > 0 && AllShaped(xs, ls) && AllShaped(ys, ls)
    ensures AllShaped(xs + ys, ls)
    ensures Reduce(ls, xs + ys) == Combine(Reduce(ls, xs), Reduce(ls, ys))
  {
    var rx := Reduce(ls, xs);
    if |ys| == 0 {
      assert xs + ys == xs;
      CombineZero(rx, ls);
    } else {
      var ys' := ys[..|ys| - 1];
      var y := ys[|ys| - 1];
      assert (xs + ys)[..|xs + ys| - 1] == xs + ys';
      ReduceSplit(ls, xs, ys');
      var ry' := Reduce(ls, ys');
      CombineAssociates(rx, ry', y, ls);
    }
  }

  /** Reducing the two halves of a batch in either order gives the same result. */
  lemma ReduceRotate(ls: seq<nat>, xs: seq<Contribution>, ys: seq<Contribution>)
    requires |ls| > 0 && AllShaped(xs, ls) && AllShaped(ys, ls)
    ensures AllShaped(xs + ys, ls) && AllShaped(ys + xs, ls)
    ensures Reduce(ls, xs + ys) == Reduce(ls, ys + xs)
  {
    ReduceSplit(ls, xs, ys);
    ReduceSplit(ls, ys, xs);
    CombineCommutes(Reduce(ls, xs), Reduce(ls, ys), ls);
  }

  /** A batch of one contribution reduces to that contribution. */
  lemma ReduceSingle(ls: seq<nat>, c: Contribution)
    requires |ls| > 0 && ContributionShaped(c, ls)
    ensures AllShaped([c], ls) && Reduce(ls, [c]) == c
  {
    assert [c][..0] == [];
    CombineZero(c, ls);
  }

  /**
   * Taking one contribution out of the middle of a batch and combining it
   * in last does not change the reduction.
   */
  lemma ReduceMoveLast(ls: seq<nat>, xs: seq<Contribution>, ys: seq<Contribution>, c: Contribution)
    requires |ls| > 0 && AllShaped(xs, ls) && AllShaped(ys, ls) && ContributionShaped(c, ls)
    ensures AllShaped(xs + [c] + ys, ls) && AllShaped(xs + ys, ls)
    ensures PairwiseSameShape(Reduce(ls, xs + ys).weights, c.weights) && PairwiseSameLength(Reduce(ls, xs + ys).biases, c.biases)
    ensures Reduce(ls, xs + [c] + ys) == Combine(Reduce(ls, xs + ys), c)
  {
    var rx, ry := Reduce(ls, xs), Reduce(ls, ys);
    ReduceSingle(ls, c);
    assert xs + [c] + ys == xs + ([c] + ys);
    ReduceSplit(ls, [c], ys);
    ReduceSplit(ls, xs, [c] + ys);
    ReduceSplit(ls, xs, ys);
    CombineSwapLast(rx, ry, c, ls);
    CombineShaped(Reduce(ls, xs + ys), c, ls);
  }

  /** Combining `c` before `b` or after it gives the same result. */
  lemma CombineSwapLast(a: Contribution, b: Contribution, c: Contribution, ls: seq<nat>)
    requires ContributionShaped(a, ls) && ContributionShaped(b, ls) && ContributionShaped(c, ls)
    ensures ContributionShaped(Combine(c, b), ls) && ContributionShaped(Combine(a, b), ls)
    ensures Combine(a, Combine(c, b)) == Combine(Combine(a, b), c)
  {
    CombineCommutes(c, b, ls);
    CombineShaped(c, b, ls);
    CombineAssociates(a, b, c, ls);
  }

  /**
   * The last element of `ys` occurs in any `xs` with the same multiset;
   * taking one occurrence out of each leaves two sequences that again have
   * the same multiset.
   */
  lemma TakeOut<T>(xs: seq<T>, ys: seq<T>) returns (i: nat)
    requires |ys| > 0 && multiset(xs) == multiset(ys)
    ensures i < |xs| && xs[i] == ys[|ys| - 1]
    ensures xs == xs[..i] + [xs[i]] + xs[i + 1..]
    ensures multiset(xs[..i] + xs[i + 1..]) == multiset(ys[..|ys| - 1])
  {
    var n := |ys| - 1;
    var c := ys[n];
    assert ys == ys[..n] + [c];
    assert c in multiset(ys);
    i :| 0 <= i < |xs| && xs[i] == c;
    var before, after := xs[..i], xs[i + 1..];
    assert xs == before + [c] + after;
    var rest, init := multiset(before + after), multiset(ys[..n]);
    assert rest + multiset{c} == init + multiset{c} by {
      assert multiset(xs) == rest + multiset{c};
      assert multiset(ys) == init + multiset{c};
    }
    MultisetCancel(rest, init, c);
  }

  /** Adding the same element to two multisets keeps them apart when they differ. */
  lemma MultisetCancel<T>(a: multiset<T>, b: multiset<T>, c: T)
    requires a + multiset{c} == b + multiset{c}
    ensures a == b
  {
    forall x ensures a[x] == b[x] {
      assert (a + multiset{c})[x] == a[x] + multiset{c}[x];
      assert (b + multiset{c})[x] == b[x] + multiset{c}[x];
    }
  }

  /**
   * The reduction does not depend on the order of the contributions: any
   * permutation of a batch's contributions reduces to the same result.
   */
  lemma {:induction false} ReducePermutation(ls: seq<nat>, xs: seq<Contribution>, ys: seq<Contribution>)
    requires |ls| > 0 && AllShaped(xs, ls) && AllShaped(ys, ls)
    requires multiset(xs) == multiset(ys)
    ensures Reduce(ls, xs) == Reduce(ls, ys)
    decreases |ys|
  {
    assert |xs| == |multiset(xs)| == |ys|;
    if |ys| > 0 {
      var n := |ys| - 1;
      var i := TakeOut(xs, ys);
      var before, after := xs[..i], xs[i + 1..];
      ReduceMoveLast(ls, before, after, ys[n]);
      ReducePermutation(ls, before + after, ys[..n]);
    }
  }

  /** A contribution that moves nothing: all-zero deltas and no error. */
  predicate AtRest(c: Contribution) {
    ZeroWeightSums(c.weights) && ZeroBiasSums(c.biases) && c.error == 0.0
  }

  /** Reducing contributions that are all at rest gives a contribution at rest. */
  lemma {:induction false} ReduceAtRest(ls: seq<nat>, cs: seq<Contribution>)
    requires |ls| > 0 && AllShaped(cs, ls)
    requires forall i :: 0 <= i < |cs| ==> AtRest(cs[i])
    ensures AtRest(Reduce(ls, cs))
  {
    if |cs| > 0 {
      var init := cs[..|cs| - 1];
      ReduceAtRest(ls, init);
      var a, b := Reduce(ls, init), cs[|cs| - 1];
      CombineShaped(a, b, ls);
      var r := Combine(a, b);
      forall it, i, j | 0 <= it < |r.weights| && 0 <= i < |r.weights[it].rows| && 0 <= j < |r.weights[it].rows[i]|
        ensures r.weights[it].rows[i][j] == 0.0
      {
        assert r.weights[it].rows[i][j] == a.weights[it].rows[i][j] + b.weights[it].rows[i][j];
      }
      forall it, i | 0 <= it < |r.biases| && 0 <= i < |r.biases[it]| ensures r.biases[it][i] == 0.0 {
        assert r.biases[it][i] == a.biases[it][i] + b.biases[it][i];
      }
    }
  }

  /** Reducing one more contribution combines it into the reduction so far. */
  lemma ReduceSnoc(ls: seq<nat>, cs: seq<Contribution>, i: nat)
    requires |ls| > 0 && AllShaped(cs, ls) && i < |cs|
    ensures AllShaped(cs[..i], ls) && AllShaped(cs[..i + 1], ls)
    ensures PairwiseSameShape(Reduce(ls, cs[..i]).weights, cs[i].weights)
    ensures PairwiseSameLength(Reduce(ls, cs[..i]).biases, cs[i].biases)
    ensures Reduce(ls, cs[..i + 1]) == Combine(Reduce(ls, cs[..i]), cs[i])
  {
    assert cs[..i + 1][..i] == cs[..i];
    CombineShaped(Reduce(ls, cs[..i]), cs[i], ls);
  }

  /**
   * The deltas once layers `1 .. upto-1` are filled in: weight delta `k` is
   * the outer product of the activations feeding layer `k` and its error
   * signal, bias delta `k` the error signal; every other entry is as in the
   * zero accumulators.
   */
  function PartialWeightUpdate(ls: seq<nat>, layers: seq<Vector>, delta: seq<Vector>, upto: nat): (seq<Matrix>, seq<Vector>)
    requires |ls| > 0 && upto <= |layers| <= |ls| && |layers| <= |delta|
  {
    (seq(|ls|, k requires 0 <= k < |ls| => if 1 <= k < upto then Outer(layers[k - 1], delta[k]) else ZeroMatrix(FanIn(ls, k), FanOut(ls, k))),
     seq(|ls|, k requires 0 <= k < |ls| => if 1 <= k < upto then delta[k] else ZeroVector(ls[k])))
  }

  /** The per-example deltas: every layer the activations cover filled in. */
  function WeightUpdate(ls: seq<nat>, layers: seq<Vector>, delta: seq<Vector>): (seq<Matrix>, seq<Vector>)
    requires |ls| > 0 && |layers| <= |ls| && |layers| <= |delta|
  {
    PartialWeightUpdate(ls, layers, delta, |layers|)
  }

  /** Before any layer is filled in the deltas are the zero accumulators. */
  lemma PartialWeightUpdateStart(ls: seq<nat>, layers: seq<Vector>, delta: seq<Vector>, upto: nat)
    requires |ls| > 0 && upto <= 1 && upto <= |layers| <= |ls| && |layers| <= |delta|
    ensures PartialWeightUpdate(ls, layers, delta, upto) == (ZeroWeights(ls), ZeroLayers(ls))
  {
    var (w, b) := PartialWeightUpdate(ls, layers, delta, upto);
    assert w == ZeroWeights(ls) by {
      forall k | 0 <= k < |ls| ensures w[k] == ZeroWeights(ls)[k] {
      }
    }
    assert b == ZeroLayers(ls) by {
      forall k | 0 <= k < |ls| ensures b[k] == ZeroLayers(ls)[k] {
      }
    }
  }

  /** Filling in layer `it` replaces entry `it` of both deltas and nothing else. */
  lemma PartialWeightUpdateStep(ls: seq<nat>, layers: seq<Vector>, delta: seq<Vector>, it: nat)
    requires |ls| > 0 && 1 <= it < |layers| <= |ls| && |layers| <= |delta|
    ensures var (w, b) := PartialWeightUpdate(ls, layers, delta, it);
      PartialWeightUpdate(ls, layers, delta, it + 1) == (w[it := Outer(layers[it - 1], delta[it])], b[it := delta[it]])
  {
    var (w, b) := PartialWeightUpdate(ls, layers, delta, it);
    var (w', b') := PartialWeightUpdate(ls, layers, delta, it + 1);
    assert w' == w[it := Outer(layers[it - 1], delta[it])] by {
      forall k | 0 <= k < |ls| ensures w'[k] == w[it := Outer(layers[it - 1], delta[it])][k] {
      }
    }
    assert b' == b[it := delta[it]] by {
      forall k | 0 <= k < |ls| ensures b'[k] == b[it := delta[it]][k] {
      }
    }
  }

  /**
   * Per-example deltas from the activations `layers` and the error signals
   * `delta`, filled in layer by layer into zero accumulators.
   */
  method ComputeWeightUpdate(ls: seq<nat>, layers: seq<Vector>, delta: seq<Vector>)
    returns (weightUpdate: seq<Matrix>, biasUpdate: seq<Vector>)
    requires |ls| > 0 && |layers| <= |ls| && |layers| <= |delta|
    ensures (weightUpdate, biasUpdate) == WeightUpdate(ls, layers, delta)
  {
    weightUpdate := ZeroWeights(ls);
    biasUpdate := ZeroLayers(ls);
    PartialWeightUpdateStart(ls, layers, delta, if |layers| == 0 then 0 else 1);
    if |layers| == 0 {
      return;
    }
    for it := 1 to |layers|
      invariant (weightUpdate, biasUpdate) == PartialWeightUpdate(ls, layers, delta, it)
    {
      PartialWeightUpdateStep(ls, layers, delta, it);
      var correction := Outer(layers[it - 1], delta[it]);
      weightUpdate := weightUpdate[it := correction];
      biasUpdate := biasUpdate[it := delta[it]];
    }
  }

  /**
   * The deltas of one example: index 0 of both stays zero, weight delta `it`
   * is the outer product `layers[it-1] delta[it]^T` (entry (i, j) is
   * `layers[it-1][i] * delta[it][j]`) and bias delta `it` is `delta[it]`;
   * layers the activations do not reach stay zero.
   */
  lemma WeightUpdateEntries(ls: seq<nat>, layers: seq<Vector>, delta: seq<Vector>)
    requires |ls| > 0 && |layers| <= |ls| && |layers| <= |delta|
    ensures var (wu, bu) := WeightUpdate(ls, layers, delta);
      && |wu| == |ls| && |bu| == |ls|
      && wu[0] == ZeroMatrix(0, 0) && bu[0] == ZeroVector(ls[0])
      && (forall it :: 1 <= it < |layers| ==> Shaped(wu[it], |layers[it - 1]|, |delta[it]|) && bu[it] == delta[it])
      && (forall it, i, j :: 1 <= it < |layers| && 0 <= i < |layers[it - 1]| && 0 <= j < |delta[it]| ==>
            wu[it].rows[i][j] == layers[it - 1][i] * delta[it][j])
      && (forall it :: |layers| <= it < |ls| && it > 0 ==> wu[it] == ZeroMatrix(ls[it - 1], ls[it]) && bu[it] == ZeroVector(ls[it]))
  {
    var (wu, bu) := WeightUpdate(ls, layers, delta);
    forall it | 1 <= it < |layers| ensures wu[it] == Outer(layers[it - 1], delta[it]) && bu[it] == delta[it] {
    }
  }

  /** With activations and error signals sized like the layers, the deltas have the network's shapes. */
  lemma WeightUpdateShaped(ls: seq<nat>, layers: seq<Vector>, delta: seq<Vector>)
    requires |ls| > 0 && BiasesShaped(layers, ls) && BiasesShaped(delta, ls)
    ensures WeightsShaped(WeightUpdate(ls, layers, delta).0, ls)
    ensures BiasesShaped(WeightUpdate(ls, layers, delta).1, ls)
  {
  }

  /** Zero error signals give zero deltas. */
  lemma WeightUpdateOfZeroSignals(ls: seq<nat>, layers: seq<Vector>, delta: seq<Vector>)
    requires |ls| > 0 && |layers| <= |ls| && |layers| <= |delta|
    requires forall j :: 0 <= j < |delta| ==> IsZero(delta[j])
    ensures ZeroWeightSums(WeightUpdate(ls, layers, delta).0)
    ensures ZeroBiasSums(WeightUpdate(ls, layers, delta).1)
  {
    var (wu, bu) := WeightUpdate(ls, layers, delta);
    WeightUpdateEntries(ls, layers, delta);
    forall it, i, j | 0 <= it < |wu| && 0 <= i < |wu[it].rows| && 0 <= j < |wu[it].rows[i]|
      ensures wu[it].rows[i][j] == 0.0
    {
      if 1 <= it < |layers| {
        assert wu[it].rows[i][j] == layers[it - 1][i] * delta[it][j];
      }
    }
  }

  // ---------------------------------------------------------------------
  // The update rule

  /**
   * A weight after the gradient step: first multiplied by
   * `1 - lambda * eta / N` when it belongs to the shrunk layer, then reduced
   * by `dw / N * eta`.
   */
  function StepEntry(w: real, dw: real, shrink: bool, conf: TrainConfig, examples: nat): real
    requires examples > 0
  {
    Descended(if shrink then Decayed(w, conf, examples) else w, dw, conf, examples)
  }

  /** The step rule written out as one formula. */
  lemma StepEntryFormula(w: real, dw: real, shrink: bool, conf: TrainConfig, examples: nat)
    requires examples > 0
    ensures var N := examples as real;
      StepEntry(w, dw, shrink, conf, examples)
        == (if shrink then w * (1.0 - conf.regularizationParam * conf.learningRate / N) else w) - dw / N * conf.learningRate
  {
  }

  /** The L2 weight decay: the weight times `1 - lambda * eta / N`. */
  function Decayed(w: real, conf: TrainConfig, examples: nat): real
    requires examples > 0
  {
    w * (1.0 - conf.regularizationParam * conf.learningRate / (examples as real))
  }

  /** The gradient step proper: the weight less `dw / N * eta`. */
  function Descended(w: real, dw: real, conf: TrainConfig, examples: nat): real
    requires examples > 0
  {
    w - dw / (examples as real) * conf.learningRate
  }

  /** A parameter after the momentum step: reduced by `last / N * mu`. */
  function MomentumEntry(w: real, last: real, momentum: real, examples: nat): real
    requires examples > 0
  {
    w - last / (examples as real) * momentum
  }

  function StepVector(v: Vector, dv: Vector, shrink: bool, conf: TrainConfig, examples: nat): (r: Vector)
    requires |v| == |dv| && examples > 0
    ensures |r| == |v|
  {
    seq(|v|, k requires 0 <= k < |v| => StepEntry(v[k], dv[k], shrink, conf, examples))
  }

  function StepMatrix(w: Matrix, dw: Matrix, shrink: bool, conf: TrainConfig, examples: nat): (r: Matrix)
    requires SameShape(w, dw) && examples > 0
    ensures Shaped(r, w.nrows, w.ncols)
  {
    Matrix(w.nrows, w.ncols, seq(w.nrows, i requires 0 <= i < w.nrows => StepVector(w.rows[i], dw.rows[i], shrink, conf, examples)))
  }

  function MomentumVector(v: Vector, last: Vector, momentum: real, examples: nat): (r: Vector)
    requires |v| == |last| && examples > 0
    ensures |r| == |v|
  {
    seq(|v|, k requires 0 <= k < |v| => MomentumEntry(v[k], last[k], momentum, examples))
  }

  function MomentumMatrix(w: Matrix, last: Matrix, momentum: real, examples: nat): (r: Matrix)
    requires SameShape(w, last) && examples > 0
    ensures Shaped(r, w.nrows, w.ncols)
  {
    Matrix(w.nrows, w.ncols, seq(w.nrows, i requires 0 <= i < w.nrows => MomentumVector(w.rows[i], last.rows[i], momentum, examples)))
  }

  /** The gradient step applied to every weight matrix; only `weights[1]` is shrunk. */
  function SteppedWeights(ls: seq<nat>, ws: seq<Matrix>, weightSum: seq<Matrix>, conf: TrainConfig, examples: nat): (r: seq<Matrix>)
    requires WeightsShaped(ws, ls) && WeightsShaped(weightSum, ls) && examples > 0
    ensures WeightsShaped(r, ls)
  {
    seq(|ls|, it requires 0 <= it < |ls| => StepMatrix(ws[it], weightSum[it], it == 1, conf, examples))
  }

  /** The gradient step applied to every bias vector. */
  function SteppedBiases(ls: seq<nat>, bs: seq<Vector>, biasSum: seq<Vector>, conf: TrainConfig, examples: nat): (r: seq<Vector>)
    requires BiasesShaped(bs, ls) && BiasesShaped(biasSum, ls) && examples > 0
    ensures BiasesShaped(r, ls)
  {
    seq(|ls|, it requires 0 <= it < |ls| => StepVector(bs[it], biasSum[it], false, conf, examples))
  }

  /** The momentum step applied to every weight matrix. */
  function MomentumWeights(ls: seq<nat>, ws: seq<Matrix>, lastWeightSum: seq<Matrix>, momentum: real, examples: nat): (r: seq<Matrix>)
    requires WeightsShaped(ws, ls) && WeightsShaped(lastWeightSum, ls) && examples > 0
    ensures WeightsShaped(r, ls)
  {
    seq(|ls|, it requires 0 <= it < |ls| => MomentumMatrix(ws[it], lastWeightSum[it], momentum, examples))
  }

  /** The momentum step applied to every bias vector. */
  function MomentumBiases(ls: seq<nat>, bs: seq<Vector>, lastBiasSum: seq<Vector>, momentum: real, examples: nat): (r: seq<Vector>)
    requires BiasesShaped(bs, ls) && BiasesShaped(lastBiasSum, ls) && examples > 0
    ensures BiasesShaped(r, ls)
  {
    seq(|ls|, it requires 0 <= it < |ls| => MomentumVector(bs[it], lastBiasSum[it], momentum, examples))
  }

  /** The summed deltas (this epoch's and the previous epoch's) fit the network. */
  predicate UpdateFits(n: Net, weightSum: seq<Matrix>, biasSum: seq<Vector>, lastWeightSum: seq<Matrix>, lastBiasSum: seq<Vector>) {
    && WeightsShaped(weightSum, n.layerSizes) && BiasesShaped(biasSum, n.layerSizes)
    && WeightsShaped(lastWeightSum, n.layerSizes) && BiasesShaped(lastBiasSum, n.layerSizes)
  }

  /**
   * The network after one update: every weight and then every bias takes a
   * gradient step, and when a momentum rate is configured every weight and
   * then every bias takes a momentum step with the previous epoch's sums.
   */
  function Updated(n: Net, weightSum: seq<Matrix>, biasSum: seq<Vector>, lastWeightSum: seq<Matrix>, lastBiasSum: seq<Vector>,
                   examples: nat, conf: TrainConfig): (r: Net)
    requires WellFormed(n) && UpdateFits(n, weightSum, biasSum, lastWeightSum, lastBiasSum) && examples > 0
    ensures WellFormed(r)
    ensures r.layerSizes == n.layerSizes && r.activationCoeffs == n.activationCoeffs && r.activationFn == n.activationFn
  {
    var ls := n.layerSizes;
    var w1 := SteppedWeights(ls, n.weights, weightSum, conf, examples);
    var b1 := SteppedBiases(ls, n.biases, biasSum, conf, examples);
    match conf.momentumRate
    case None => n.(weights := w1, biases := b1)
    case Some(mu) => n.(weights := MomentumWeights(ls, w1, lastWeightSum, mu, examples), biases := MomentumBiases(ls, b1, lastBiasSum, mu, examples))
  }

  /**
   * Entry (i, j) of weight matrix `it` after the update: shrunk by
   * `1 - lambda * eta / N` when `it == 1` and only then, reduced by its summed
   * delta over `N` times the learning rate, and reduced by its previous summed
   * delta over `N` times the momentum rate when one is configured.
   */
  lemma UpdatedWeightEntry(n: Net, weightSum: seq<Matrix>, biasSum: seq<Vector>, lastWeightSum: seq<Matrix>, lastBiasSum: seq<Vector>,
                           examples: nat, conf: TrainConfig, it: nat, i: nat, j: nat)
    requires WellFormed(n) && UpdateFits(n, weightSum, biasSum, lastWeightSum, lastBiasSum) && examples > 0
    requires it < |n.layerSizes| && i < FanIn(n.layerSizes, it) && j < FanOut(n.layerSizes, it)
    ensures var r := Updated(n, weightSum, biasSum, lastWeightSum, lastBiasSum, examples, conf);
      var N := examples as real;
      var eta := conf.learningRate;
      var w := n.weights[it].rows[i][j];
      var shrunk := if it == 1 then w * (1.0 - conf.regularizationParam * eta / N) else w;
      r.weights[it].rows[i][j] ==
        shrunk - weightSum[it].rows[i][j] / N * eta
        - (if conf.momentumRate.Some? then lastWeightSum[it].rows[i][j] / N * conf.momentumRate.value else 0.0)
  {
    var ls := n.layerSizes;
    var w1 := SteppedWeights(ls, n.weights, weightSum, conf, examples);
    var w := n.weights[it].rows[i][j];
    assert w1[it].rows[i][j] == StepEntry(w, weightSum[it].rows[i][j], it == 1, conf, examples);
    StepEntryFormula(w, weightSum[it].rows[i][j], it == 1, conf, examples);
  }

  /**
   * Entry `i` of bias vector `it` after the update: never shrunk, reduced by
   * its summed delta over `N` times the learning rate, and by its previous
   * summed delta over `N` times the momentum rate when one is configured.
   */
  lemma UpdatedBiasEntry(n: Net, weightSum: seq<Matrix>, biasSum: seq<Vector>, lastWeightSum: seq<Matrix>, lastBiasSum: seq<Vector>,
                         examples: nat, conf: TrainConfig, it: nat, i: nat)
    requires WellFormed(n) && UpdateFits(n, weightSum, biasSum, lastWeightSum, lastBiasSum) && examples > 0
    requires it < |n.layerSizes| && i < n.layerSizes[it]
    ensures var r := Updated(n, weightSum, biasSum, lastWeightSum, lastBiasSum, examples, conf);
      var N := examples as real;
      r.biases[it][i] ==
        n.biases[it][i] - biasSum[it][i] / N * conf.learningRate
        - (if conf.momentumRate.Some? then lastBiasSum[it][i] / N * conf.momentumRate.value else 0.0)
  {
    var ls := n.layerSizes;
    var b1 := SteppedBiases(ls, n.biases, biasSum, conf, examples);
    assert b1[it][i] == StepEntry(n.biases[it][i], biasSum[it][i], false, conf, examples);
  }

  predicate ZeroWeightSums(ws: seq<Matrix>) {
    forall it, i, j :: 0 <= it < |ws| && 0 <= i < |ws[it].rows| && 0 <= j < |ws[it].rows[i]| ==> ws[it].rows[i][j] == 0.0
  }

  predicate ZeroBiasSums(bs: seq<Vector>) {
    forall it, i :: 0 <= it < |bs| && 0 <= i < |bs[it]| ==> bs[it][i] == 0.0
  }

  /**
   * A fixed point of the update: with all-zero summed deltas, no L2 penalty,
   * and either no momentum or all-zero previous sums, the network is unchanged.
   */
  lemma UpdatedAtRest(n: Net, weightSum: seq<Matrix>, biasSum: seq<Vector>, lastWeightSum: seq<Matrix>, lastBiasSum: seq<Vector>,
                      examples: nat, conf: TrainConfig)
    requires WellFormed(n) && UpdateFits(n, weightSum, biasSum, lastWeightSum, lastBiasSum) && examples > 0
    requires ZeroWeightSums(weightSum) && ZeroBiasSums(biasSum) && conf.regularizationParam == 0.0
    requires conf.momentumRate.Some? ==> ZeroWeightSums(lastWeightSum) && ZeroBiasSums(lastBiasSum)
    ensures Updated(n, weightSum, biasSum, lastWeightSum, lastBiasSum, examples, conf) == n
  {
    var r := Updated(n, weightSum, biasSum, lastWeightSum, lastBiasSum, examples, conf);
    var ls := n.layerSizes;
    forall it | 0 <= it < |ls| ensures r.weights[it] == n.weights[it] {
      forall i | 0 <= i < FanIn(ls, it) ensures r.weights[it].rows[i] == n.weights[it].rows[i] {
        forall j | 0 <= j < FanOut(ls, it) ensures r.weights[it].rows[i][j] == n.weights[it].rows[i][j] {
          UpdatedWeightEntry(n, weightSum, biasSum, lastWeightSum, lastBiasSum, examples, conf, it, i, j);
        }
      }
    }
    forall it | 0 <= it < |ls| ensures r.biases[it] == n.biases[it] {
      forall i | 0 <= i < ls[it] ensures r.biases[it][i] == n.biases[it][i] {
        UpdatedBiasEntry(n, weightSum, biasSum, lastWeightSum, lastBiasSum, examples, conf, it, i);
      }
    }
  }

  // ---------------------------------------------------------------------
  // The loops that apply the rule to one matrix or vector

  method ApplyStepToVector(v: Vector, dv: Vector, shrink: bool, conf: TrainConfig, examples: nat) returns (r: Vector)
    requires |v| == |dv| && examples > 0
    ensures r == StepVector(v, dv, shrink, conf, examples)
  {
    r := v;
    var k := 0;
    while k < |r|
      invariant 0 <= k <= |r| == |v|
      invariant forall q :: 0 <= q < k ==> r[q] == StepEntry(v[q], dv[q], shrink, conf, examples)
      invariant forall q :: k <= q < |r| ==> r[q] == v[q]
    {
      var x := r[k];
      if shrink {
        x := Decayed(x, conf, examples);
      }
      x := Descended(x, dv[k], conf, examples);
      r := r[k := x];
      k := k + 1;
    }
  }

  method ApplyStepToMatrix(w: Matrix, dw: Matrix, shrink: bool, conf: TrainConfig, examples: nat) returns (r: Matrix)
    requires SameShape(w, dw) && examples > 0
    ensures r == StepMatrix(w, dw, shrink, conf, examples)
  {
    var rows := w.rows;
    var i := 0;
    while i < w.nrows
      invariant 0 <= i <= w.nrows == |rows|
      invariant forall q :: 0 <= q < i ==> rows[q] == StepVector(w.rows[q], dw.rows[q], shrink, conf, examples)
      invariant forall q :: i <= q < w.nrows ==> rows[q] == w.rows[q]
    {
      var row := ApplyStepToVector(rows[i], dw.rows[i], shrink, conf, examples);
      rows := rows[i := row];
      i := i + 1;
    }
    r := Matrix(w.nrows, w.ncols, rows);
  }

  method ApplyMomentumToVector(v: Vector, last: Vector, momentum: real, examples: nat) returns (r: Vector)
    requires |v| == |last| && examples > 0
    ensures r == MomentumVector(v, last, momentum, examples)
  {
    r := v;
    var k := 0;
    while k < |r|
      invariant 0 <= k <= |r| == |v|
      invariant forall q :: 0 <= q < k ==> r[q] == MomentumEntry(v[q], last[q], momentum, examples)
      invariant forall q :: k <= q < |r| ==> r[q] == v[q]
    {
      r := r[k := r[k] - last[k] / (examples as real) * momentum];
      k := k + 1;
    }
  }

  method ApplyMomentumToMatrix(w: Matrix, last: Matrix, momentum: real, examples: nat) returns (r: Matrix)
    requires SameShape(w, last) && examples > 0
    ensures r == MomentumMatrix(w, last, momentum, examples)
  {
    var rows := w.rows;
    var i := 0;
    while i < w.nrows
      invariant 0 <= i <= w.nrows == |rows|
      invariant forall q :: 0 <= q < i ==> rows[q] == MomentumVector(w.rows[q], last.rows[q], momentum, examples)
      invariant forall q :: i <= q < w.nrows ==> rows[q] == w.rows[q]
    {
      var row := ApplyMomentumToVector(rows[i], last.rows[i], momentum, examples);
      rows := rows[i := row];
      i := i + 1;
    }
    r := Matrix(w.nrows, w.ncols, rows);
  }
}
