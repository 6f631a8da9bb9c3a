/** The prediction heads: each is a bias-free `Conv3d` with a 1x1x1 kernel,
    whose weight (out_channels, in_channels, 1, 1, 1) is kept here as an
    out_channels x in_channels matrix. */
module Heads {
  import opened Grids
  import opened Linear
  import opened Volumes

  /** The convolution sum at p: w[ch] * chans[ch][p] over the first n input
      channels ch. */
  function ChannelSum(w: Vec, chans: seq<Grid<int>>, e: Extent, p: Pos, n: nat): int
    requires n <= |w| && n <= |chans| && p.In(e)
    requires forall ch :: 0 <= ch < |chans| ==> IsGrid(chans[ch], e)
  {
    if n == 0 then 0
    else ChannelSum(w, chans, e, p, n - 1) + w[n - 1] * At(chans[n - 1], e, p)
  }

  /** Output channel o of the convolution at batch element b and cell p is
      the convolution sum of row o of w over all input channels. */
  function ApplyHead(w: Matrix, v: Volume, batch: nat, inChannels: nat, e: Extent): (r: Volume)
    requires IsMatrix(w, |w|, inChannels) && IsVolume(v, batch, inChannels, e)
    ensures IsVolume(r, batch, |w|, e)
  {
    seq(batch, b requires 0 <= b < batch =>
      seq(|w|, o requires 0 <= o < |w| =>
        seq(e.x, i requires 0 <= i < e.x =>
          seq(e.y, j requires 0 <= j < e.y =>
            seq(e.z, k requires 0 <= k < e.z =>
              ChannelSum(w[o], v[b], e, Pos(i, j, k), inChannels))))))
  }

  lemma {:induction false} ChannelSumIsDot(w: Vec, v: Volume, batch: nat, inChannels: nat, e: Extent, b: nat, p: Pos, n: nat)
    requires |w| == inChannels && IsVolume(v, batch, inChannels, e) && b < batch && p.In(e)
    requires n <= inChannels
    ensures ChannelSum(w, v[b], e, p, n) == Dot(w[..n], Fiber(v, batch, inChannels, e, b, p)[..n])
  {
    if n > 0 {
      ChannelSumIsDot(w, v, batch, inChannels, e, b, p, n - 1);
      var f := Fiber(v, batch, inChannels, e, b, p);
      assert w[..n][..n - 1] == w[..n - 1];
      assert f[..n][..n - 1] == f[..n - 1];
    }
  }

  /** The head works cell by cell: the output vector at (b, p) is the weight
      matrix times the input vector at the same (b, p), and nothing else. */
  lemma HeadIsPointwise(w: Matrix, v: Volume, batch: nat, inChannels: nat, e: Extent, b: nat, p: Pos)
    requires IsMatrix(w, |w|, inChannels) && IsVolume(v, batch, inChannels, e)
    requires b < batch && p.In(e)
    ensures Fiber(ApplyHead(w, v, batch, inChannels, e), batch, |w|, e, b, p)
         == MatVec(w, Fiber(v, batch, inChannels, e, b, p))
  {
    var f := Fiber(v, batch, inChannels, e, b, p);
    forall o | 0 <= o < |w|
      ensures At(ApplyHead(w, v, batch, inChannels, e)[b][o], e, p) == Dot(w[o], f)
    {
      ChannelSumIsDot(w[o], v, batch, inChannels, e, b, p, inChannels);
      assert w[o][..inChannels] == w[o];
      assert f[..inChannels] == f;
    }
  }
}
