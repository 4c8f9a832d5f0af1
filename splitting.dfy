/**
 * Splitting a data set into a training part and a validation part. The
 * validation positions are drawn at random by the trainer; here they are a
 * given set of indices, and the split itself is deterministic: every example
 * goes to exactly one part, chosen by whether its position was drawn, and both
 * parts keep the order of the data set.
 */
module Splitting {
  import opened Linalg
  import opened NetworkData

  /**
   * The number of validation examples: the product of the ratio and the data
   * set's length, truncated towards zero, with negative products saturating
   * at 0 as a float-to-unsigned cast does.
   */
  function ValidationAmount(ratio: real, len: nat): (amt: nat)
    ensures ratio * (len as real) >= 0.0 ==> amt as real <= ratio * (len as real) < amt as real + 1.0
    ensures ratio * (len as real) < 1.0 ==> amt == 0
  {
    var x := ratio * (len as real);
    if x < 0.0 then 0 else x.Floor
  }

  /** A ratio between 0 and 1 never asks for more validation examples than there are examples. */
  lemma ValidationAmountBounded(ratio: real, len: nat)
    requires 0.0 <= ratio <= 1.0
    ensures ValidationAmount(ratio, len) <= len
  {
    var x := ratio * (len as real);
    assert x <= len as real by {
      MulMonotone(ratio, 1.0, len as real);
    }
  }

  lemma MulMonotone(a: real, b: real, c: real)
    requires a <= b && c >= 0.0
    ensures a * c <= b * c
  {
  }

  /**
   * What the index sampler delivers: `amt` distinct positions of a data set
   * of length `len`.
   */
  predicate IsSample(sample: set<nat>, len: nat, amt: nat) {
    |sample| == amt && forall i :: i in sample ==> i < len
  }

  /**
   * The positions below `len`, in increasing order, that are in `sample`
   * (when `drawn`) or not in it (when not `drawn`).
   */
  function Positions(len: nat, sample: set<nat>, drawn: bool): (ps: seq<nat>)
    ensures forall k :: 0 <= k < |ps| ==> ps[k] < len
  {
    if len == 0 then []
    else Positions(len - 1, sample, drawn) + (if (len - 1 in sample) == drawn then [len - 1] else [])
  }

  /** The elements of `data` at positions `ps`, in that order. */
  function Pick<T>(data: seq<T>, ps: seq<nat>): (r: seq<T>)
    requires forall k :: 0 <= k < |ps| ==> ps[k] < |data|
    ensures |r| == |ps| && forall k :: 0 <= k < |ps| ==> r[k] == data[ps[k]]
  {
    seq(|ps|, k requires 0 <= k < |ps| => data[ps[k]])
  }

  /**
   * Walks the data set once and pushes every example onto the validation
   * part when its position was drawn and onto the training part otherwise.
   * The sample must be as large as the ratio asks and lie within the data set:
   * a larger amount than there are examples makes the trainer panic.
   */
  method SplitDataSequences<T>(allData: seq<T>, validationIdx: set<nat>, conf: TrainConfig)
    returns (trainData: seq<T>, valData: seq<T>)
    requires IsSample(validationIdx, |allData|, ValidationAmount(conf.validationRatio, |allData|))
    ensures trainData == Pick(allData, Positions(|allData|, validationIdx, false))
    ensures valData == Pick(allData, Positions(|allData|, validationIdx, true))
    ensures |valData| == ValidationAmount(conf.validationRatio, |allData|)
    ensures |trainData| + |valData| == |allData|
  {
    trainData, valData := [], [];
    for it := 0 to |allData|
      invariant trainData == Pick(allData, Positions(it, validationIdx, false))
      invariant valData == Pick(allData, Positions(it, validationIdx, true))
    {
      if it in validationIdx {
        valData := valData + [allData[it]];
      } else {
        trainData := trainData + [allData[it]];
      }
    }
    PositionsCount(|allData|, validationIdx);
    PositionsLengths(|allData|, validationIdx);
  }

  /**
   * A position below `len` is listed by exactly one of the two position
   * sequences: by the drawn one exactly when it is in the sample.
   */
  lemma {:induction false} PositionsMembership(len: nat, sample: set<nat>, drawn: bool, i: nat)
    ensures i in Positions(len, sample, drawn) <==> i < len && (i in sample) == drawn
  {
    if len > 0 {
      PositionsMembership(len - 1, sample, drawn, i);
    }
  }

  /** The positions are listed in strictly increasing order, so each part keeps the data set's order. */
  lemma {:induction false} PositionsIncreasing(len: nat, sample: set<nat>, drawn: bool)
    ensures forall j, k :: 0 <= j < k < |Positions(len, sample, drawn)| ==>
      Positions(len, sample, drawn)[j] < Positions(len, sample, drawn)[k]
  {
    if len > 0 {
      PositionsIncreasing(len - 1, sample, drawn);
    }
  }

  /** Together the two parts hold as many examples as the data set. */
  lemma {:induction false} PositionsLengths(len: nat, sample: set<nat>)
    ensures |Positions(len, sample, true)| + |Positions(len, sample, false)| == len
  {
    if len > 0 {
      PositionsLengths(len - 1, sample);
    }
  }

  /** The drawn positions below `len` are exactly the sample's elements below `len`. */
  lemma {:induction false} PositionsCountBelow(len: nat, sample: set<nat>)
    ensures |Positions(len, sample, true)| == |set i | i in sample && i < len|
  {
    if len > 0 {
      PositionsCountBelow(len - 1, sample);
      var below := set i | i in sample && i < len - 1;
      var upto := set i | i in sample && i < len;
      if len - 1 in sample {
        assert upto == below + {len - 1};
      } else {
        assert upto == below;
      }
    }
  }

  /** A sample within the data set yields one validation position per sampled index. */
  lemma PositionsCount(len: nat, sample: set<nat>)
    requires forall i :: i in sample ==> i < len
    ensures |Positions(len, sample, true)| == |sample|
  {
    PositionsCountBelow(len, sample);
    assert (set i | i in sample && i < len) == sample;
  }

  /** The two parts hold, between them, exactly the examples of the data set. */
  lemma {:induction false} SplitIsPartition<T>(data: seq<T>, sample: set<nat>)
    ensures multiset(Pick(data, Positions(|data|, sample, false))) + multiset(Pick(data, Positions(|data|, sample, true)))
      == multiset(data)
  {
    if |data| > 0 {
      var l := |data| - 1;
      var init := data[..l];
      SplitIsPartition(init, sample);
      PickPrefix(data, Positions(l, sample, false));
      PickPrefix(data, Positions(l, sample, true));
      assert multiset(data) == multiset(init) + multiset{data[l]} by {
        assert data == init + [data[l]];
      }
      SplitLast(data, sample);
    }
  }

  /** The last example of the data set joins exactly one of the two parts, at its end. */
  lemma SplitLast<T>(data: seq<T>, sample: set<nat>)
    requires |data| > 0
    ensures var l := |data| - 1;
      multiset(Pick(data, Positions(|data|, sample, false))) + multiset(Pick(data, Positions(|data|, sample, true)))
        == multiset(Pick(data, Positions(l, sample, false))) + multiset(Pick(data, Positions(l, sample, true))) + multiset{data[l]}
  {
    var l := |data| - 1;
    var drawn := l in sample;
    var ps := Positions(l, sample, drawn);
    assert Positions(|data|, sample, drawn) == ps + [l];
    assert Positions(|data|, sample, !drawn) == Positions(l, sample, !drawn);
    assert Pick(data, ps + [l]) == Pick(data, ps) + [data[l]];
  }

  /** Picking positions inside a prefix reads the same elements from the prefix as from the whole. */
  lemma PickPrefix<T>(data: seq<T>, ps: seq<nat>)
    requires |data| > 0 && forall k :: 0 <= k < |ps| ==> ps[k] < |data| - 1
    ensures Pick(data[..|data| - 1], ps) == Pick(data, ps)
  {
  }

  /**
   * The autoencoder variant splits a sequence of vectors the same way; since
   * each of its examples is a vector paired with itself, splitting the vectors
   * and then pairing gives the same parts as pairing first and then splitting.
   */
  lemma AutoencoderSplitPairs(vs: seq<Vector>, sample: set<nat>, drawn: bool)
    ensures Pick(SelfPaired(vs), Positions(|vs|, sample, drawn)) == SelfPaired(Pick(vs, Positions(|vs|, sample, drawn)))
  {
  }
}
