/** Embedding volumes of shape (batch, channels, x, y, z) and ignore-mask
    volumes of shape (batch, x, y, z), in the layout the loss receives them. */
module Volumes {
  import opened Grids
  import opened Linear

  /** An embedding volume, indexed [b][c][x][y][z]. */
  type Volume = seq<seq<Grid<int>>>

  /** An ignore-mask (or label) volume, indexed [b][x][y][z]. */
  type MaskVolume = seq<Grid<int>>

  predicate IsVolume(v: Volume, batch: nat, channels: nat, e: Extent) {
    |v| == batch &&
    forall b :: 0 <= b < |v| ==>
      |v[b]| == channels && forall c :: 0 <= c < |v[b]| ==> IsGrid(v[b][c], e)
  }

  predicate IsMask(m: MaskVolume, batch: nat, e: Extent) {
    |m| == batch && forall b :: 0 <= b < |m| ==> IsGrid(m[b], e)
  }

  /** The channel vector of v at batch element b and position p. */
  function Fiber(v: Volume, batch: nat, channels: nat, e: Extent, b: nat, p: Pos): (r: Vec)
    requires IsVolume(v, batch, channels, e) && b < batch && p.In(e)
    ensures |r| == channels
    ensures forall c :: 0 <= c < channels ==> r[c] == At(v[b][c], e, p)
  {
    seq(channels, c requires 0 <= c < channels => At(v[b][c], e, p))
  }

  /** `Narrow` applied to every (batch, channel) grid: `v[:, :, ...]`. */
  function NarrowVolume(v: Volume, batch: nat, channels: nat, e: Extent, dim: Axis, lo: nat, hi: nat): (r: Volume)
    requires IsVolume(v, batch, channels, e) && lo <= hi <= e.Along(dim)
    ensures IsVolume(r, batch, channels, e.WithAlong(dim, hi - lo))
  {
    seq(batch, b requires 0 <= b < batch =>
      seq(channels, c requires 0 <= c < channels => Narrow(v[b][c], e, dim, lo, hi)))
  }

  /** Narrowing keeps each channel vector, moved lo cells along dim. */
  lemma NarrowVolumeFiber(v: Volume, batch: nat, channels: nat, e: Extent, dim: Axis, lo: nat, hi: nat, b: nat, p: Pos)
    requires IsVolume(v, batch, channels, e) && lo <= hi <= e.Along(dim)
    requires b < batch && p.In(e.WithAlong(dim, hi - lo))
    ensures p.Plus(dim, lo).In(e)
    ensures Fiber(NarrowVolume(v, batch, channels, e, dim, lo, hi), batch, channels, e.WithAlong(dim, hi - lo), b, p)
         == Fiber(v, batch, channels, e, b, p.Plus(dim, lo))
  {
    forall c | 0 <= c < channels {
      NarrowAt(v[b][c], e, dim, lo, hi, p);
    }
  }
}
