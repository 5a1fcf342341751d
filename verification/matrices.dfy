/** Small dense matrices as sequences of rows, with the products the pose
    and projection code needs. */
module Matrices {

  predicate IsMatrix(m: seq<seq<real>>, rows: nat, cols: nat)
  {
    |m| == rows && forall i :: 0 <= i < |m| ==> |m[i]| == cols
  }

  /** Inner product of two vectors of equal length. */
  function Dot(u: seq<real>, v: seq<real>): real
    requires |u| == |v|
    decreases |u|
  {
    if |u| == 0 then 0.0 else u[0] * v[0] + Dot(u[1..], v[1..])
  }

  /** Column j of a matrix with at least j + 1 columns. */
  function Column(m: seq<seq<real>>, j: nat): (col: seq<real>)
    requires forall i :: 0 <= i < |m| ==> j < |m[i]|
    ensures |col| == |m|
    ensures forall i :: 0 <= i < |m| ==> col[i] == m[i][j]
  {
    seq(|m|, i requires 0 <= i < |m| => m[i][j])
  }

  /** Matrix-vector product. */
  function MatVec(m: seq<seq<real>>, v: seq<real>): (r: seq<real>)
    requires IsMatrix(m, |m|, |v|)
    ensures |r| == |m|
  {
    seq(|m|, i requires 0 <= i < |m| => Dot(m[i], v))
  }

  /** Matrix product of an n x k and a k x p matrix (k >= 1, so that the
      column count of b can be read off its first row). */
  function MatMul(a: seq<seq<real>>, b: seq<seq<real>>): (c: seq<seq<real>>)
    requires |b| >= 1 && IsMatrix(a, |a|, |b|) && IsMatrix(b, |b|, |b[0]|)
    ensures IsMatrix(c, |a|, |b[0]|)
  {
    seq(|a|, i requires 0 <= i < |a| =>
      seq(|b[0]|, j requires 0 <= j < |b[0]| => Dot(a[i], Column(b, j))))
  }

  /** A length-3 inner product written out. */
  lemma {:induction false} Dot3(u: seq<real>, v: seq<real>)
    requires |u| == 3 && |v| == 3
    ensures Dot(u, v) == u[0] * v[0] + u[1] * v[1] + u[2] * v[2]
  {
    assert Dot(u[1..][1..][1..], v[1..][1..][1..]) == 0.0;
    assert Dot(u[1..][1..], v[1..][1..]) == u[2] * v[2];
    assert Dot(u[1..], v[1..]) == u[1] * v[1] + u[2] * v[2];
  }

  /** A length-4 inner product written out. */
  lemma {:induction false} Dot4(u: seq<real>, v: seq<real>)
    requires |u| == 4 && |v| == 4
    ensures Dot(u, v) == u[0] * v[0] + u[1] * v[1] + u[2] * v[2] + u[3] * v[3]
  {
    Dot3(u[1..], v[1..]);
  }

  /** The product of two 3 x 3 matrices, entry by entry. */
  lemma MatMul3(a: seq<seq<real>>, b: seq<seq<real>>)
    requires IsMatrix(a, 3, 3) && IsMatrix(b, 3, 3)
    ensures IsMatrix(MatMul(a, b), 3, 3)
    ensures forall i, j :: 0 <= i < 3 && 0 <= j < 3 ==>
              MatMul(a, b)[i][j] == a[i][0] * b[0][j] + a[i][1] * b[1][j] + a[i][2] * b[2][j]
  {
    forall i, j | 0 <= i < 3 && 0 <= j < 3
      ensures MatMul(a, b)[i][j] == a[i][0] * b[0][j] + a[i][1] * b[1][j] + a[i][2] * b[2][j]
    {
      Dot3(a[i], Column(b, j));
    }
  }
}
