/** Integer vectors and matrices: the exact arithmetic behind the 1x1x1
    convolution and the batched `matmul` scores. */
module Linear {

  type Vec = seq<int>

  /** A matrix of `rows` rows, each of `cols` entries. */
  type Matrix = seq<seq<int>>

  predicate IsMatrix(w: Matrix, rows: nat, cols: nat) {
    |w| == rows && forall o :: 0 <= o < |w| ==> |w[o]| == cols
  }

  /** Sum of u[i] * v[i], accumulated from the last entry backwards. */
  function Dot(u: Vec, v: Vec): int
    requires |u| == |v|
    decreases |u|
  {
    if |u| == 0 then 0
    else Dot(u[..|u| - 1], v[..|v| - 1]) + u[|u| - 1] * v[|v| - 1]
  }

  /** Matrix times column vector: entry o is row o dotted with v. */
  function MatVec(w: Matrix, v: Vec): (r: Vec)
    requires forall o :: 0 <= o < |w| ==> |w[o]| == |v|
    ensures |r| == |w|
  {
    seq(|w|, o requires 0 <= o < |w| => Dot(w[o], v))
  }

  /** Column n of a matrix whose rows all have more than n entries. */
  function Column(m: Matrix, n: nat): (r: Vec)
    requires forall c :: 0 <= c < |m| ==> n < |m[c]|
    ensures |r| == |m| && forall c :: 0 <= c < |m| ==> r[c] == m[c][n]
  {
    seq(|m|, c requires 0 <= c < |m| => m[c][n])
  }

  /** Row vector times matrix, as `torch.matmul` of a (1, C) by a (C, N)
      operand: entry n sums u[c] * m[c][n] over c. */
  function VecMat(u: Vec, m: Matrix, cols: nat): (r: Vec)
    requires IsMatrix(m, |u|, cols)
    ensures |r| == cols
  {
    seq(cols, n requires 0 <= n < cols => Dot(u, Column(m, n)))
  }
}
