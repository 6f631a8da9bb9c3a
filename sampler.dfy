/** The negative sampler: the predicted future volume is flattened into a
    pool of M = x * y * z * batch rows, M * N rows are gathered through an
    index vector, and the result is viewed as N negatives per position. */
module Sampler {
  import opened Grids
  import opened RowMajor
  import opened Linear
  import opened Volumes

  /** M, the number of pool rows: x * y * z * batch. */
  function PoolSize(e: Extent, batch: nat): nat {
    Size4(e.x, e.y, e.z, batch)
  }

  /** The pool row of position p of batch element b: (x, y, z, b) flattened
      in row-major order, b fastest. */
  function PoolRank(p: Pos, b: nat, e: Extent, batch: nat): nat {
    Rank4(Index4(p.x, p.y, p.z, b), e.y, e.z, batch)
  }

  /** `.permute(2, 3, 4, 0, 1)` followed by `.view(M, C)`: row r is the
      channel vector at the (x, y, z, b) that r unflattens to. */
  function Pool(v: Volume, batch: nat, channels: nat, e: Extent): (rows: seq<Vec>)
    requires IsVolume(v, batch, channels, e)
    ensures |rows| == PoolSize(e, batch)
    ensures forall r :: 0 <= r < |rows| ==> |rows[r]| == channels
  {
    seq(PoolSize(e, batch), r requires 0 <= r < PoolSize(e, batch) =>
      var ix := Unrank4(r, e.x, e.y, e.z, batch);
      Fiber(v, batch, channels, e, ix.l, Pos(ix.i, ix.j, ix.k)))
  }

  /** Flattening is a bijection between cells and pool rows: the row of
      (p, b) is in range and holds the vector at (p, b), and every row is the
      row of the cell it unflattens to. */
  lemma PoolIsFlattening(v: Volume, batch: nat, channels: nat, e: Extent, b: nat, p: Pos, r: nat)
    requires IsVolume(v, batch, channels, e)
    ensures b < batch && p.In(e) ==>
      PoolRank(p, b, e, batch) < PoolSize(e, batch) &&
      Pool(v, batch, channels, e)[PoolRank(p, b, e, batch)] == Fiber(v, batch, channels, e, b, p)
    ensures r < PoolSize(e, batch) ==>
      var ix := Unrank4(r, e.x, e.y, e.z, batch);
      && Pos(ix.i, ix.j, ix.k).In(e) && ix.l < batch
      && PoolRank(Pos(ix.i, ix.j, ix.k), ix.l, e, batch) == r
  {
    if b < batch && p.In(e) {
      UnrankRank4(Index4(p.x, p.y, p.z, b), e.x, e.y, e.z, batch);
    }
    if r < PoolSize(e, batch) {
      RankUnrank4(r, e.x, e.y, e.z, batch);
    }
  }

  /** The sampled indices: exactly M * N of them, each naming a pool row. */
  predicate ValidDraws(idx: seq<int>, poolSize: nat, n: nat) {
    |idx| == poolSize * n && forall r :: 0 <= r < |idx| ==> 0 <= idx[r] < poolSize
  }

  /** `rand_index.repeat(1, C)`: every index copied across C columns. */
  function RepeatColumns(idx: seq<int>, cols: nat): (m: seq<seq<int>>)
    ensures |m| == |idx| && forall r :: 0 <= r < |m| ==> |m[r]| == cols
  {
    seq(|idx|, r requires 0 <= r < |idx| => seq(cols, _ => idx[r]))
  }

  /** `torch.gather(pool, dim=0, index)`: entry (r, c) is entry c of pool
      row index[r][c]. */
  function Gather(pool: seq<Vec>, index: seq<seq<int>>): (out: seq<Vec>)
    requires forall r, c :: 0 <= r < |index| && 0 <= c < |index[r]| ==>
               0 <= index[r][c] < |pool| && c < |pool[index[r][c]]|
    ensures |out| == |index| && forall r :: 0 <= r < |out| ==> |out[r]| == |index[r]|
  {
    seq(|index|, r requires 0 <= r < |index| =>
      seq(|index[r]|, c requires 0 <= c < |index[r]| => pool[index[r][c]][c]))
  }

  /** Because each index is repeated across all columns, gathered row r is
      the whole pool row idx[r]. */
  lemma GatherRepeated(pool: seq<Vec>, idx: seq<int>, cols: nat)
    requires forall q :: 0 <= q < |pool| ==> |pool[q]| == cols
    requires forall r :: 0 <= r < |idx| ==> 0 <= idx[r] < |pool|
    ensures forall r, c :: 0 <= r < |idx| && 0 <= c < cols ==>
              0 <= RepeatColumns(idx, cols)[r][c] < |pool| &&
              c < |pool[RepeatColumns(idx, cols)[r][c]]|
    ensures forall r :: 0 <= r < |idx| ==> Gather(pool, RepeatColumns(idx, cols))[r] == pool[idx[r]]
  {
    var index := RepeatColumns(idx, cols);
    forall r | 0 <= r < |idx| ensures Gather(pool, index)[r] == pool[idx[r]] {
      assert |Gather(pool, index)[r]| == cols == |pool[idx[r]]|;
    }
  }

  /** The matrix of negatives of pool position q after
      `.view(x, y, z, batch, N, C).permute(0, 1, 2, 3, 5, 4)`: a C x N
      matrix whose entry (c, s) is entry c of gathered row q * N + s. */
  function NegativeView(gathered: seq<Vec>, poolSize: nat, q: nat, n: nat, cols: nat): (m: Matrix)
    requires q < poolSize && |gathered| == poolSize * n
    requires forall r :: 0 <= r < |gathered| ==> |gathered[r]| == cols
    ensures IsMatrix(m, cols, n)
  {
    seq(cols, c requires 0 <= c < cols =>
      seq(n, s requires 0 <= s < n =>
        Rank2Bound(q, s, poolSize, n);
        gathered[Rank2(q, s, n)][c]))
  }

  /** Negative s of position q is the whole gathered row q * N + s, which
      lies inside the M * N gathered rows. */
  lemma NegativeViewColumn(gathered: seq<Vec>, poolSize: nat, q: nat, n: nat, cols: nat, s: nat)
    requires q < poolSize && |gathered| == poolSize * n
    requires forall r :: 0 <= r < |gathered| ==> |gathered[r]| == cols
    requires s < n
    ensures Rank2(q, s, n) < poolSize * n
    ensures Column(NegativeView(gathered, poolSize, q, n, cols), s) == gathered[Rank2(q, s, n)]
  {
    Rank2Bound(q, s, poolSize, n);
  }
}
