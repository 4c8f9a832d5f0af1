/**
 * The dense vectors and matrices the trainer uses, over real numbers.
 *
 * A `Matrix` keeps its dimensions explicitly, as the linear-algebra library
 * does, so that a 0 x c matrix and a 0 x 0 matrix stay distinct. Operations
 * that the library implements with an explicit `zip` (and so silently stop
 * at the shorter operand) are `ZipAdd` and `ZipMul`; operations for which
 * the library asserts matching dimensions carry that as a precondition.
 */
module Linalg {

  type Vector = seq<real>

  /** `rows[i][j]` is entry (i, j); `nrows` x `ncols` are the declared dimensions. */
  datatype Matrix = Matrix(nrows: nat, ncols: nat, rows: seq<Vector>)

  /** `m` is an `r` x `c` matrix whose storage agrees with its dimensions. */
  predicate Shaped(m: Matrix, r: nat, c: nat) {
    && m.nrows == r && m.ncols == c && |m.rows| == r
    && forall i :: 0 <= i < r ==> |m.rows[i]| == c
  }

  predicate WellShaped(m: Matrix) {
    Shaped(m, m.nrows, m.ncols)
  }

  predicate SameShape(a: Matrix, b: Matrix) {
    WellShaped(a) && Shaped(b, a.nrows, a.ncols)
  }

  function Min(a: nat, b: nat): nat {
    if a <= b then a else b
  }

  function ZeroVector(n: nat): (z: Vector)
    ensures |z| == n && forall k :: 0 <= k < n ==> z[k] == 0.0
  {
    seq(n, _ => 0.0)
  }

  function ZeroMatrix(r: nat, c: nat): (z: Matrix)
    ensures Shaped(z, r, c)
    ensures forall i, j :: 0 <= i < r && 0 <= j < c ==> z.rows[i][j] == 0.0
  {
    Matrix(r, c, seq(r, _ => ZeroVector(c)))
  }

  /** Sum of the entries, left to right. */
  function Sum(v: Vector): real {
    if |v| == 0 then 0.0 else Sum(v[..|v| - 1]) + v[|v| - 1]
  }

  /** Arithmetic mean of the entries; 0 for no entries. */
  function Mean(v: Vector): real {
    if |v| == 0 then 0.0 else Sum(v) / (|v| as real)
  }

  lemma MeanNonNegative(v: Vector)
    requires forall k :: 0 <= k < |v| ==> v[k] >= 0.0
    ensures Mean(v) >= 0.0
  {
    SumNonNegative(v);
    if |v| > 0 {
      var total, count := Sum(v), |v| as real;
      assert total >= 0.0 && count > 0.0;
      assert total / count >= 0.0;
    }
  }

  lemma MeanOfZeros(v: Vector)
    requires forall k :: 0 <= k < |v| ==> v[k] == 0.0
    ensures Mean(v) == 0.0
  {
    SumOfZeros(v);
  }

  /** Extending a prefix by one entry adds that entry to its sum. */
  lemma SumPrefixStep(v: Vector, i: nat)
    requires i < |v|
    ensures Sum(v[..i + 1]) == Sum(v[..i]) + v[i]
  {
    assert v[..i + 1][..i] == v[..i];
  }

  function Dot(u: Vector, v: Vector): real
    requires |u| == |v|
  {
    if |u| == 0 then 0.0 else Dot(u[..|u| - 1], v[..|v| - 1]) + u[|u| - 1] * v[|v| - 1]
  }

  function NormSquared(v: Vector): real {
    Dot(v, v)
  }

  lemma {:induction false} NormSquaredNonNegative(v: Vector)
    ensures NormSquared(v) >= 0.0
  {
    if |v| > 0 {
      var x := v[|v| - 1];
      NormSquaredNonNegative(v[..|v| - 1]);
      assert x * x >= 0.0;
    }
  }

  /** Sum of the squares of all entries of a matrix. */
  function SumSquares(m: Matrix): real {
    Sum(seq(|m.rows|, i requires 0 <= i < |m.rows| => NormSquared(m.rows[i])))
  }

  lemma {:induction false} SumNonNegative(v: Vector)
    requires forall k :: 0 <= k < |v| ==> v[k] >= 0.0
    ensures Sum(v) >= 0.0
  {
    if |v| > 0 {
      SumNonNegative(v[..|v| - 1]);
    }
  }

  lemma {:induction false} SumOfZeros(v: Vector)
    requires forall k :: 0 <= k < |v| ==> v[k] == 0.0
    ensures Sum(v) == 0.0
  {
    if |v| > 0 {
      SumOfZeros(v[..|v| - 1]);
    }
  }

  lemma SumSquaresNonNegative(m: Matrix)
    ensures SumSquares(m) >= 0.0
  {
    var s := seq(|m.rows|, i requires 0 <= i < |m.rows| => NormSquared(m.rows[i]));
    forall k | 0 <= k < |s| ensures s[k] >= 0.0 {
      NormSquaredNonNegative(m.rows[k]);
    }
    SumNonNegative(s);
  }

  function Column(m: Matrix, j: nat): (c: Vector)
    requires WellShaped(m) && j < m.ncols
    ensures |c| == m.nrows
  {
    seq(m.nrows, k requires 0 <= k < m.nrows => m.rows[k][j])
  }

  /** Row vector times matrix, `v * m`; the library asserts `|v| == m.nrows`. */
  function VecMat(v: Vector, m: Matrix): (r: Vector)
    requires WellShaped(m) && |v| == m.nrows
    ensures |r| == m.ncols
  {
    seq(m.ncols, j requires 0 <= j < m.ncols => Dot(v, Column(m, j)))
  }

  /** Matrix times column vector, `m * v`; the library asserts `|v| == m.ncols`. */
  function MatVec(m: Matrix, v: Vector): (r: Vector)
    requires WellShaped(m) && |v| == m.ncols
    ensures |r| == m.nrows
  {
    seq(m.nrows, i requires 0 <= i < m.nrows => Dot(m.rows[i], v))
  }

  /** Outer product `u v^T`, a |u| x |v| matrix. */
  function Outer(u: Vector, v: Vector): (r: Matrix)
    ensures Shaped(r, |u|, |v|)
    ensures forall i, j :: 0 <= i < |u| && 0 <= j < |v| ==> r.rows[i][j] == u[i] * v[j]
  {
    Matrix(|u|, |v|, seq(|u|, i requires 0 <= i < |u| => seq(|v|, j requires 0 <= j < |v| => u[i] * v[j])))
  }

  /** Elementwise sum over a `zip`: as long as the shorter operand. */
  function ZipAdd(a: Vector, b: Vector): (r: Vector)
    ensures |r| == Min(|a|, |b|)
    ensures forall k :: 0 <= k < |r| ==> r[k] == a[k] + b[k]
  {
    seq(Min(|a|, |b|), k requires 0 <= k < Min(|a|, |b|) => a[k] + b[k])
  }

  /** Elementwise (Hadamard) product over a `zip`: as long as the shorter operand. */
  function ZipMul(a: Vector, b: Vector): (r: Vector)
    ensures |r| == Min(|a|, |b|)
    ensures forall k :: 0 <= k < |r| ==> r[k] == a[k] * b[k]
  {
    seq(Min(|a|, |b|), k requires 0 <= k < Min(|a|, |b|) => a[k] * b[k])
  }

  function VecSub(a: Vector, b: Vector): (r: Vector)
    requires |a| == |b|
    ensures |r| == |a|
    ensures forall k :: 0 <= k < |r| ==> r[k] == a[k] - b[k]
  {
    seq(|a|, k requires 0 <= k < |a| => a[k] - b[k])
  }

  /** Matrix sum; the library asserts equal dimensions. */
  function MatAdd(a: Matrix, b: Matrix): (r: Matrix)
    requires SameShape(a, b)
    ensures Shaped(r, a.nrows, a.ncols)
    ensures forall i, j :: 0 <= i < a.nrows && 0 <= j < a.ncols ==> r.rows[i][j] == a.rows[i][j] + b.rows[i][j]
  {
    Matrix(a.nrows, a.ncols, seq(a.nrows, i requires 0 <= i < a.nrows => ZipAdd(a.rows[i], b.rows[i])))
  }

  lemma VecAddCommutes(a: Vector, b: Vector)
    requires |a| == |b|
    ensures ZipAdd(a, b) == ZipAdd(b, a)
  {
    assert forall k :: 0 <= k < |a| ==> ZipAdd(a, b)[k] == ZipAdd(b, a)[k];
  }

  lemma VecAddAssociates(a: Vector, b: Vector, c: Vector)
    requires |a| == |b| == |c|
    ensures ZipAdd(ZipAdd(a, b), c) == ZipAdd(a, ZipAdd(b, c))
  {
    assert forall k :: 0 <= k < |a| ==> ZipAdd(ZipAdd(a, b), c)[k] == ZipAdd(a, ZipAdd(b, c))[k];
  }

  lemma VecAddZero(a: Vector)
    ensures ZipAdd(ZeroVector(|a|), a) == a
  {
    assert forall k :: 0 <= k < |a| ==> ZipAdd(ZeroVector(|a|), a)[k] == a[k];
  }

  lemma MatAddCommutes(a: Matrix, b: Matrix)
    requires SameShape(a, b)
    ensures MatAdd(a, b) == MatAdd(b, a)
  {
    forall i | 0 <= i < a.nrows ensures MatAdd(a, b).rows[i] == MatAdd(b, a).rows[i] {
      VecAddCommutes(a.rows[i], b.rows[i]);
    }
  }

  lemma MatAddAssociates(a: Matrix, b: Matrix, c: Matrix)
    requires SameShape(a, b) && SameShape(a, c)
    ensures MatAdd(MatAdd(a, b), c) == MatAdd(a, MatAdd(b, c))
  {
    forall i | 0 <= i < a.nrows ensures MatAdd(MatAdd(a, b), c).rows[i] == MatAdd(a, MatAdd(b, c)).rows[i] {
      VecAddAssociates(a.rows[i], b.rows[i], c.rows[i]);
    }
  }

  lemma MatAddZero(a: Matrix)
    requires WellShaped(a)
    ensures MatAdd(ZeroMatrix(a.nrows, a.ncols), a) == a
  {
    forall i | 0 <= i < a.nrows ensures MatAdd(ZeroMatrix(a.nrows, a.ncols), a).rows[i] == a.rows[i] {
      VecAddZero(a.rows[i]);
    }
  }

  predicate IsZero(v: Vector) {
    forall k :: 0 <= k < |v| ==> v[k] == 0.0
  }

  /** A dot product with an all-zero vector vanishes. */
  lemma {:induction false} DotZeroRight(u: Vector, v: Vector)
    requires |u| == |v| && IsZero(v)
    ensures Dot(u, v) == 0.0
  {
    if |u| > 0 {
      DotZeroRight(u[..|u| - 1], v[..|v| - 1]);
    }
  }

  /** A matrix maps the zero vector to the zero vector. */
  lemma MatVecZero(m: Matrix, v: Vector)
    requires WellShaped(m) && |v| == m.ncols && IsZero(v)
    ensures IsZero(MatVec(m, v))
  {
    forall i | 0 <= i < m.nrows ensures MatVec(m, v)[i] == 0.0 {
      DotZeroRight(m.rows[i], v);
    }
  }

  /** The zero vector has squared norm zero. */
  lemma NormSquaredOfZero(v: Vector)
    requires IsZero(v)
    ensures NormSquared(v) == 0.0
  {
    DotZeroRight(v, v);
  }
}
