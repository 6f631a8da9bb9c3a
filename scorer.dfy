/** The masked contrastive scorer: the (batch, 1 + N, x, y, z) score volume
    of one (axis, offset) term and its ignore-aware label volume. */
module Scorer {
  import opened Grids
  import opened RowMajor
  import opened Linear
  import opened Volumes
  import opened Sampler

  /** The class label that excludes a cell from the loss, as `__init__`
      sets it. */
  const IgnoreIndex: int := -100

  /** The score vector of one cell, `torch.cat` of the two `matmul`s: slot 0
      is the context vector dotted with the predicted future vector, slots
      1..N are the context vector times the C x N matrix of negatives. */
  function CellScores(ctx: Vec, future: Vec, negatives: Matrix, n: nat): (s: Vec)
    requires |ctx| == |future| && IsMatrix(negatives, |ctx|, n)
    ensures |s| == 1 + n
  {
    [Dot(ctx, future)] + VecMat(ctx, negatives, n)
  }

  /** `log_fk` after `.permute(3, 4, 0, 1, 2)`: entry [b][j][x][y][z] is
      slot j of the score vector of cell (x, y, z) of batch element b. */
  function Scores(ctx: Volume, future: Volume, gathered: seq<Vec>, batch: nat, channels: nat, e: Extent, n: nat): (s: Volume)
    requires IsVolume(ctx, batch, channels, e) && IsVolume(future, batch, channels, e)
    requires |gathered| == PoolSize(e, batch) * n
    requires forall r :: 0 <= r < |gathered| ==> |gathered[r]| == channels
    ensures IsVolume(s, batch, 1 + n, e)
  {
    seq(batch, b requires 0 <= b < batch =>
      seq(1 + n, j requires 0 <= j < 1 + n =>
        seq(e.x, x requires 0 <= x < e.x =>
          seq(e.y, y requires 0 <= y < e.y =>
            seq(e.z, z requires 0 <= z < e.z =>
              var p := Pos(x, y, z);
              Rank4Bound(Index4(x, y, z, b), e.x, e.y, e.z, batch);
              CellScores(Fiber(ctx, batch, channels, e, b, p), Fiber(future, batch, channels, e, b, p),
                         NegativeView(gathered, PoolSize(e, batch), PoolRank(p, b, e, batch), n, channels), n)[j])))))
  }

  /** Slot 0 of a cell is its true score; slot 1 + s is the context vector
      dotted with gathered row q * N + s, q being the cell's pool row. */
  lemma ScoresAt(ctx: Volume, future: Volume, gathered: seq<Vec>, batch: nat, channels: nat, e: Extent, n: nat, b: nat, p: Pos)
    requires IsVolume(ctx, batch, channels, e) && IsVolume(future, batch, channels, e)
    requires |gathered| == PoolSize(e, batch) * n
    requires forall r :: 0 <= r < |gathered| ==> |gathered[r]| == channels
    requires b < batch && p.In(e)
    ensures PoolRank(p, b, e, batch) < PoolSize(e, batch)
    ensures At(Scores(ctx, future, gathered, batch, channels, e, n)[b][0], e, p)
         == Dot(Fiber(ctx, batch, channels, e, b, p), Fiber(future, batch, channels, e, b, p))
    ensures forall s :: 0 <= s < n ==>
              Rank2(PoolRank(p, b, e, batch), s, n) < |gathered| &&
              At(Scores(ctx, future, gathered, batch, channels, e, n)[b][1 + s], e, p)
              == Dot(Fiber(ctx, batch, channels, e, b, p), gathered[Rank2(PoolRank(p, b, e, batch), s, n)])
  {
    Rank4Bound(Index4(p.x, p.y, p.z, b), e.x, e.y, e.z, batch);
    var q := PoolRank(p, b, e, batch);
    forall s | 0 <= s < n
      ensures Rank2(q, s, n) < |gathered|
      ensures At(Scores(ctx, future, gathered, batch, channels, e, n)[b][1 + s], e, p)
           == Dot(Fiber(ctx, batch, channels, e, b, p), gathered[Rank2(q, s, n)])
    {
      NegativeViewColumn(gathered, PoolSize(e, batch), q, n, channels, s);
    }
  }

  /** `mask[..., :-d] + mask[..., d:]` along dim: per cell, the sum of the
      mask values at the two endpoints of the prediction. */
  function IgnoreSum(mask: MaskVolume, batch: nat, e: Extent, dim: Axis, d: int): (r: MaskVolume)
    requires IsMask(mask, batch, e) && Aligned(e.Along(dim), d)
    ensures IsMask(r, batch, Trimmed(e, dim, d))
  {
    var n := e.Along(dim);
    seq(batch, b requires 0 <= b < batch =>
      Add(Narrow(mask[b], e, dim, 0, PyIndex(n, -d)), Narrow(mask[b], e, dim, PyIndex(n, d), n), Trimmed(e, dim, d)))
  }

  /** The label volume: `true_f` after `true_f[ignore > 0] = ignoreIndex`. */
  function Labels(ignore: MaskVolume, batch: nat, e: Extent, ignoreIndex: int): (r: MaskVolume)
    requires IsMask(ignore, batch, e)
    ensures IsMask(r, batch, e)
  {
    seq(batch, b requires 0 <= b < batch =>
      seq(e.x, i requires 0 <= i < e.x =>
        seq(e.y, j requires 0 <= j < e.y =>
          seq(e.z, k requires 0 <= k < e.z =>
            if ignore[b][i][j][k] > 0 then ignoreIndex else 0))))
  }

  /** The label of trimmed cell p pairs the mask at p with the mask at p
      moved PyIndex(n, d) cells along dim (d cells when 1 <= d < n): the same
      two cells whose context and future vectors the true score pairs. It is
      the ignore index exactly when their mask sum is positive, else 0. */
  lemma EndpointLabels(mask: MaskVolume, batch: nat, e: Extent, dim: Axis, d: int, ignoreIndex: int, b: nat, p: Pos)
    requires IsMask(mask, batch, e) && Aligned(e.Along(dim), d)
    requires b < batch && p.In(Trimmed(e, dim, d))
    ensures p.In(e) && p.Plus(dim, PyIndex(e.Along(dim), d)).In(e)
    ensures var sum := At(mask[b], e, p) + At(mask[b], e, p.Plus(dim, PyIndex(e.Along(dim), d)));
            && At(IgnoreSum(mask, batch, e, dim, d)[b], Trimmed(e, dim, d), p) == sum
            && At(Labels(IgnoreSum(mask, batch, e, dim, d), batch, Trimmed(e, dim, d), ignoreIndex)[b], Trimmed(e, dim, d), p)
               == (if sum > 0 then ignoreIndex else 0)
  {
    var n := e.Along(dim);
    NarrowAt(mask[b], e, dim, 0, PyIndex(n, -d), p);
    NarrowAt(mask[b], e, dim, PyIndex(n, d), n, p);
    assert p.Plus(dim, 0) == p;
  }

  /** Allocates `true_f` as zeros of shape (batch, x, y, z) and writes the
      ignore index into every cell whose ignore sum is positive. */
  method BuildLabels(ignore: MaskVolume, batch: nat, e: Extent, ignoreIndex: int) returns (trueF: array4<int>)
    requires IsMask(ignore, batch, e)
    ensures fresh(trueF)
    ensures trueF.Length0 == batch && trueF.Length1 == e.x && trueF.Length2 == e.y && trueF.Length3 == e.z
    ensures forall b, i, j, k :: 0 <= b < batch && 0 <= i < e.x && 0 <= j < e.y && 0 <= k < e.z ==>
              trueF[b, i, j, k] == (if ignore[b][i][j][k] > 0 then ignoreIndex else 0)
  {
    trueF := new int[batch, e.x, e.y, e.z]((b, i, j, k) => 0);
    forall b, i, j, k | 0 <= b < batch && 0 <= i < e.x && 0 <= j < e.y && 0 <= k < e.z && ignore[b][i][j][k] > 0 {
      trueF[b, i, j, k] := ignoreIndex;
    }
  }

  /** The label volume of a term, read out of the `true_f` array that
      BuildLabels fills in place. */
  method TermLabels(ignore: MaskVolume, batch: nat, e: Extent, ignoreIndex: int) returns (labels: MaskVolume)
    requires IsMask(ignore, batch, e)
    ensures labels == Labels(ignore, batch, e, ignoreIndex)
  {
    var trueF := BuildLabels(ignore, batch, e, ignoreIndex);
    labels := seq(batch, b requires 0 <= b < batch reads trueF =>
      seq(e.x, i requires 0 <= i < e.x reads trueF =>
        seq(e.y, j requires 0 <= j < e.y reads trueF =>
          seq(e.z, l requires 0 <= l < e.z reads trueF => trueF[b, i, j, l]))));
    LabelsFromArray(labels, ignore, batch, e, ignoreIndex);
  }

  lemma LabelsFromArray(labels: MaskVolume, ignore: MaskVolume, batch: nat, e: Extent, ignoreIndex: int)
    requires IsMask(ignore, batch, e) && IsMask(labels, batch, e)
    requires forall b, i, j, k :: 0 <= b < batch && 0 <= i < e.x && 0 <= j < e.y && 0 <= k < e.z ==>
               labels[b][i][j][k] == (if ignore[b][i][j][k] > 0 then ignoreIndex else 0)
    ensures labels == Labels(ignore, batch, e, ignoreIndex)
  {
    var spec := Labels(ignore, batch, e, ignoreIndex);
    forall b | 0 <= b < batch ensures labels[b] == spec[b] {
      forall i | 0 <= i < e.x ensures labels[b][i] == spec[b][i] {
        forall j | 0 <= j < e.y ensures labels[b][i][j] == spec[b][i][j] {
        }
      }
    }
  }
}
