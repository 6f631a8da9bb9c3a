/** The 3-D InfoNCE loss: K = subcloud_cube_size - 2 prediction heads, and
    a forward pass that sums one contrastive term per (axis, offset) pair and
    divides by 3K. Softmax, log and the NLL reduction are the `termLoss`
    parameter; the random negative indices are the `draws` parameter. */
module InfoNCELoss {
  import opened Grids
  import opened RowMajor
  import opened Linear
  import opened Volumes
  import opened Heads
  import opened Sampler
  import opened Scorer

  datatype Error =
    | EmptyVolume     // the 1x1x1 head, or `randint` with high = 0, rejects an empty slice
    | ShapeMismatch   // the trimmed context and future slices differ in extent
    | ZeroDivision    // `total_loss /= k_predictions * 3` with no heads

  datatype Result<T> = Ok(value: T) | Err(error: Error)

  /** The consumer of one term's (scores, labels): softmax over the class
      axis, log(p + 1e-11) and the mean NLL over non-ignored cells. */
  type TermLoss = (Volume, MaskVolume) -> real

  /** The configured loss module. */
  datatype InfoNCE = InfoNCE(
    negativeSamples: nat,
    kPredictions: int,
    ignoreIndex: int,
    inChannels: nat,
    outChannels: nat,
    heads: seq<Matrix>)

  /** The number of heads `range(k_predictions)` builds. */
  function HeadCount(kPredictions: int): nat {
    if kPredictions > 0 then kPredictions else 0
  }

  predicate Valid(m: InfoNCE) {
    && m.ignoreIndex == IgnoreIndex
    && |m.heads| == HeadCount(m.kPredictions)
    && forall h :: 0 <= h < |m.heads| ==> IsMatrix(m.heads[h], m.outChannels, m.inChannels)
  }

  /** `__init__`: K = subcloud_cube_size - 2 and one out x in head per
      k in range(K); `initWeight(h, o, i)` is head h's initial weight. */
  function Create(negativeSamples: nat, subcloudCubeSize: int, inChannels: nat, outChannels: nat,
                  initWeight: (nat, nat, nat) -> int): (m: InfoNCE)
    ensures Valid(m)
    ensures m.kPredictions == subcloudCubeSize - 2 && m.negativeSamples == negativeSamples
    ensures m.inChannels == inChannels && m.outChannels == outChannels
    ensures |m.heads| == (if subcloudCubeSize > 2 then subcloudCubeSize - 2 else 0)
    ensures forall h, o, i :: 0 <= h < |m.heads| && 0 <= o < outChannels && 0 <= i < inChannels ==>
              m.heads[h][o][i] == initWeight(h, o, i)
  {
    var k := subcloudCubeSize - 2;
    InfoNCE(negativeSamples, k, IgnoreIndex, inChannels, outChannels,
      seq(HeadCount(k), h requires 0 <= h < HeadCount(k) =>
        seq(outChannels, o requires 0 <= o < outChannels =>
          seq(inChannels, i requires 0 <= i < inChannels => initWeight(h, o, i)))))
  }

  /** The shapes the caller supplies: z is (batch, in, x, y, z), c is
      (batch, out, x, y, z) and the mask is (batch, x, y, z). */
  predicate WellShaped(m: InfoNCE, z: Volume, c: Volume, mask: MaskVolume, batch: nat, e: Extent) {
    && Valid(m)
    && IsVolume(z, batch, m.inChannels, e)
    && IsVolume(c, batch, m.outChannels, e)
    && IsMask(mask, batch, e)
  }

  /** The number of pool rows of the term (dim, k). */
  function TermPoolSize(batch: nat, e: Extent, dim: Axis, k: nat, skipStep: int): nat {
    PoolSize(Trimmed(e, dim, k + skipStep), batch)
  }

  /** Every term's index vector has M * N entries in [0, M). */
  predicate DrawsValid(m: InfoNCE, batch: nat, e: Extent, skipStep: int, draws: (Axis, nat) -> seq<int>) {
    forall dim: Axis, k: nat :: 1 <= k <= m.kPredictions ==>
      ValidDraws(draws(dim, k), TermPoolSize(batch, e, dim, k, skipStep), m.negativeSamples)
  }

  /** The common requirements of the stages of term (dim, k). */
  predicate TermReady(m: InfoNCE, z: Volume, c: Volume, batch: nat, e: Extent, k: nat) {
    && Valid(m) && IsVolume(z, batch, m.inChannels, e) && IsVolume(c, batch, m.outChannels, e)
    && 1 <= k <= m.kPredictions
  }

  /** `ztwk`: z with its first k + skip cells along dim dropped, put
      through head k - 1. */
  function Prediction(m: InfoNCE, z: Volume, batch: nat, e: Extent, skipStep: int, dim: Axis, k: nat): (r: Volume)
    requires Valid(m) && IsVolume(z, batch, m.inChannels, e) && 1 <= k <= m.kPredictions
    ensures IsVolume(r, batch, m.outChannels, Trimmed(e, dim, k + skipStep))
  {
    var n := e.Along(dim);
    var zSlice := NarrowVolume(z, batch, m.inChannels, e, dim, PyIndex(n, k + skipStep), n);
    ApplyHead(m.heads[k - 1], zSlice, batch, m.inChannels, Trimmed(e, dim, k + skipStep))
  }

  /** The predicted vector at trimmed cell p is head k - 1 applied to the
      vector of z at p moved PyIndex(n, k + skip) cells along dim. */
  lemma PredictionAt(m: InfoNCE, z: Volume, batch: nat, e: Extent, skipStep: int, dim: Axis, k: nat, b: nat, p: Pos)
    requires Valid(m) && IsVolume(z, batch, m.inChannels, e) && 1 <= k <= m.kPredictions
    requires b < batch && p.In(Trimmed(e, dim, k + skipStep))
    ensures p.Plus(dim, PyIndex(e.Along(dim), k + skipStep)).In(e)
    ensures Fiber(Prediction(m, z, batch, e, skipStep, dim, k), batch, m.outChannels, Trimmed(e, dim, k + skipStep), b, p)
         == MatVec(m.heads[k - 1], Fiber(z, batch, m.inChannels, e, b, p.Plus(dim, PyIndex(e.Along(dim), k + skipStep))))
  {
    var n := e.Along(dim);
    var lo := PyIndex(n, k + skipStep);
    var ez := Trimmed(e, dim, k + skipStep);
    var w := m.heads[k - 1];
    assert IsMatrix(w, m.outChannels, m.inChannels);
    var zSlice := NarrowVolume(z, batch, m.inChannels, e, dim, lo, n);
    assert ez == e.WithAlong(dim, n - lo);
    NarrowVolumeFiber(z, batch, m.inChannels, e, dim, lo, n, b, p);
    HeadIsPointwise(w, zSlice, batch, m.inChannels, ez, b, p);
    assert Prediction(m, z, batch, e, skipStep, dim, k) == ApplyHead(w, zSlice, batch, m.inChannels, ez);
  }

  /** `c_slice`: c with its last k + skip cells along dim dropped. */
  function Context(m: InfoNCE, c: Volume, batch: nat, e: Extent, skipStep: int, dim: Axis, k: nat): (r: Volume)
    requires IsVolume(c, batch, m.outChannels, e) && Aligned(e.Along(dim), k + skipStep)
    ensures IsVolume(r, batch, m.outChannels, Trimmed(e, dim, k + skipStep))
  {
    NarrowVolume(c, batch, m.outChannels, e, dim, 0, PyIndex(e.Along(dim), -(k + skipStep)))
  }

  /** The context vector at trimmed cell p is the vector of c at p itself. */
  lemma ContextAt(m: InfoNCE, c: Volume, batch: nat, e: Extent, skipStep: int, dim: Axis, k: nat, b: nat, p: Pos)
    requires IsVolume(c, batch, m.outChannels, e) && Aligned(e.Along(dim), k + skipStep)
    requires b < batch && p.In(Trimmed(e, dim, k + skipStep))
    ensures p.In(e)
    ensures Fiber(Context(m, c, batch, e, skipStep, dim, k), batch, m.outChannels, Trimmed(e, dim, k + skipStep), b, p)
         == Fiber(c, batch, m.outChannels, e, b, p)
  {
    NarrowVolumeFiber(c, batch, m.outChannels, e, dim, 0, PyIndex(e.Along(dim), -(k + skipStep)), b, p);
    assert p.Plus(dim, 0) == p;
  }

  /** The M * N gathered rows: pool row idx[r] for every r. */
  function Negatives(m: InfoNCE, z: Volume, batch: nat, e: Extent, skipStep: int, dim: Axis, k: nat, idx: seq<int>): (g: seq<Vec>)
    requires Valid(m) && IsVolume(z, batch, m.inChannels, e) && 1 <= k <= m.kPredictions
    requires ValidDraws(idx, TermPoolSize(batch, e, dim, k, skipStep), m.negativeSamples)
    ensures |g| == TermPoolSize(batch, e, dim, k, skipStep) * m.negativeSamples
    ensures forall r :: 0 <= r < |g| ==> |g[r]| == m.outChannels
    ensures forall r :: 0 <= r < |g| ==>
              g[r] == Pool(Prediction(m, z, batch, e, skipStep, dim, k), batch, m.outChannels, Trimmed(e, dim, k + skipStep))[idx[r]]
  {
    var pool := Pool(Prediction(m, z, batch, e, skipStep, dim, k), batch, m.outChannels, Trimmed(e, dim, k + skipStep));
    GatherRepeated(pool, idx, m.outChannels);
    Gather(pool, RepeatColumns(idx, m.outChannels))
  }

  /** The score volume of the term (dim, k), of shape (batch, 1 + N, x', y', z'). */
  function TermScores(m: InfoNCE, z: Volume, c: Volume, batch: nat, e: Extent, skipStep: int,
                      dim: Axis, k: nat, idx: seq<int>): (s: Volume)
    requires TermReady(m, z, c, batch, e, k) && Aligned(e.Along(dim), k + skipStep)
    requires ValidDraws(idx, TermPoolSize(batch, e, dim, k, skipStep), m.negativeSamples)
    ensures IsVolume(s, batch, 1 + m.negativeSamples, Trimmed(e, dim, k + skipStep))
  {
    Scores(Context(m, c, batch, e, skipStep, dim, k), Prediction(m, z, batch, e, skipStep, dim, k),
           Negatives(m, z, batch, e, skipStep, dim, k, idx),
           batch, m.outChannels, Trimmed(e, dim, k + skipStep), m.negativeSamples)
  }

  /** One term of the loss, or the error the program raises on the way:
      the head's convolution (or `randint`) on an empty future slice, then
      the `matmul` of context and future slices of different extents. */
  function Term(m: InfoNCE, z: Volume, c: Volume, mask: MaskVolume, batch: nat, e: Extent, skipStep: int,
                dim: Axis, k: nat, idx: seq<int>, termLoss: TermLoss): Result<real>
    requires WellShaped(m, z, c, mask, batch, e) && 1 <= k <= m.kPredictions
    requires ValidDraws(idx, TermPoolSize(batch, e, dim, k, skipStep), m.negativeSamples)
  {
    var d := k + skipStep;
    if TermPoolSize(batch, e, dim, k, skipStep) == 0 then Err(EmptyVolume)
    else if !Aligned(e.Along(dim), d) then Err(ShapeMismatch)
    else
      var ez := Trimmed(e, dim, d);
      Ok(termLoss(TermScores(m, z, c, batch, e, skipStep, dim, k, idx),
                  Labels(IgnoreSum(mask, batch, e, dim, d), batch, ez, m.ignoreIndex)))
  }

  /** Which terms raise, in terms of the inputs, for every offset
      d = k + skip: the term is empty exactly when the batch or an extent
      is 0, or d >= 1 reaches past the axis; it is mis-aligned exactly when
      d == 0 on a non-empty volume; otherwise (d < 0 included, where the
      future slice is the last |d| cells) it is the contrastive loss of its
      scores and labels. */
  lemma TermOutcome(m: InfoNCE, z: Volume, c: Volume, mask: MaskVolume, batch: nat, e: Extent, skipStep: int,
                    dim: Axis, k: nat, idx: seq<int>, termLoss: TermLoss)
    requires WellShaped(m, z, c, mask, batch, e) && 1 <= k <= m.kPredictions
    requires ValidDraws(idx, TermPoolSize(batch, e, dim, k, skipStep), m.negativeSamples)
    ensures var r := Term(m, z, c, mask, batch, e, skipStep, dim, k, idx, termLoss);
            && (r == Err(EmptyVolume) <==>
                  batch == 0 || e.x == 0 || e.y == 0 || e.z == 0 || (k + skipStep >= 1 && k + skipStep >= e.Along(dim)))
            && (r == Err(ShapeMismatch) <==> k + skipStep == 0 && batch > 0 && e.x > 0 && e.y > 0 && e.z > 0)
            && (r.Ok? <==> batch > 0 && e.x > 0 && e.y > 0 && e.z > 0 && k + skipStep != 0 && k + skipStep < e.Along(dim))
            && (r.Ok? ==>
                  && Aligned(e.Along(dim), k + skipStep)
                  && r.value == termLoss(TermScores(m, z, c, batch, e, skipStep, dim, k, idx),
                                         Labels(IgnoreSum(mask, batch, e, dim, k + skipStep), batch,
                                                Trimmed(e, dim, k + skipStep), m.ignoreIndex)))
  {
    var d := k + skipStep;
    var n := e.Along(dim);
    TrimmedExtents(n, d);
    var ez := Trimmed(e, dim, d);
    Size4Zero(ez.x, ez.y, ez.z, batch);
    assert ez.Along(dim) == n - PyIndex(n, d);
    assert forall a: Axis :: a != dim ==> ez.Along(a) == e.Along(a);
    assert ez.x == ez.Along(0) && ez.y == ez.Along(1) && ez.z == ez.Along(2);
    assert e.x == e.Along(0) && e.y == e.Along(1) && e.z == e.Along(2);
  }

  /** The true score of trimmed cell p pairs the context vector c[b][p] with
      head k - 1 applied to z[b] at p moved PyIndex(n, k + skip) cells along
      dim, which is k + skip cells when 1 <= k + skip < n. */
  lemma TrueScorePairing(m: InfoNCE, z: Volume, c: Volume, batch: nat, e: Extent, skipStep: int,
                         dim: Axis, k: nat, idx: seq<int>, b: nat, p: Pos)
    requires TermReady(m, z, c, batch, e, k) && Aligned(e.Along(dim), k + skipStep)
    requires ValidDraws(idx, TermPoolSize(batch, e, dim, k, skipStep), m.negativeSamples)
    requires b < batch && p.In(Trimmed(e, dim, k + skipStep))
    ensures p.In(e) && p.Plus(dim, PyIndex(e.Along(dim), k + skipStep)).In(e)
    ensures At(TermScores(m, z, c, batch, e, skipStep, dim, k, idx)[b][0], Trimmed(e, dim, k + skipStep), p)
         == Dot(Fiber(c, batch, m.outChannels, e, b, p),
                MatVec(m.heads[k - 1], Fiber(z, batch, m.inChannels, e, b, p.Plus(dim, PyIndex(e.Along(dim), k + skipStep)))))
  {
    ScoresAt(Context(m, c, batch, e, skipStep, dim, k), Prediction(m, z, batch, e, skipStep, dim, k),
             Negatives(m, z, batch, e, skipStep, dim, k, idx),
             batch, m.outChannels, Trimmed(e, dim, k + skipStep), m.negativeSamples, b, p);
    ContextAt(m, c, batch, e, skipStep, dim, k, b, p);
    PredictionAt(m, z, batch, e, skipStep, dim, k, b, p);
  }

  /** Negative s of trimmed cell p is the context vector c[b][p] dotted with
      pool row idx[q * N + s], q being p's pool row; that pool row is head
      k - 1 applied to z at the cell the row unflattens to, moved along dim
      by the same trim. */
  lemma NegativeScorePairing(m: InfoNCE, z: Volume, c: Volume, batch: nat, e: Extent, skipStep: int,
                             dim: Axis, k: nat, idx: seq<int>, b: nat, p: Pos, s: nat)
    requires TermReady(m, z, c, batch, e, k) && Aligned(e.Along(dim), k + skipStep)
    requires ValidDraws(idx, TermPoolSize(batch, e, dim, k, skipStep), m.negativeSamples)
    requires b < batch && p.In(Trimmed(e, dim, k + skipStep)) && s < m.negativeSamples
    ensures p.In(e)
    ensures var ez := Trimmed(e, dim, k + skipStep);
            var r := Rank2(PoolRank(p, b, ez, batch), s, m.negativeSamples);
            && r < |idx| && 0 <= idx[r] < PoolSize(ez, batch)
            && var ix := Unrank4(idx[r], ez.x, ez.y, ez.z, batch);
               var src := Pos(ix.i, ix.j, ix.k);
               && src.In(ez) && ix.l < batch && src.Plus(dim, PyIndex(e.Along(dim), k + skipStep)).In(e)
               && At(TermScores(m, z, c, batch, e, skipStep, dim, k, idx)[b][1 + s], ez, p)
                  == Dot(Fiber(c, batch, m.outChannels, e, b, p),
                         MatVec(m.heads[k - 1], Fiber(z, batch, m.inChannels, e, ix.l, src.Plus(dim, PyIndex(e.Along(dim), k + skipStep)))))
  {
    var ez := Trimmed(e, dim, k + skipStep);
    var ztwk := Prediction(m, z, batch, e, skipStep, dim, k);
    ScoresAt(Context(m, c, batch, e, skipStep, dim, k), ztwk,
             Negatives(m, z, batch, e, skipStep, dim, k, idx),
             batch, m.outChannels, ez, m.negativeSamples, b, p);
    ContextAt(m, c, batch, e, skipStep, dim, k, b, p);
    var r := Rank2(PoolRank(p, b, ez, batch), s, m.negativeSamples);
    var ix := Unrank4(idx[r], ez.x, ez.y, ez.z, batch);
    var src := Pos(ix.i, ix.j, ix.k);
    PoolIsFlattening(ztwk, batch, m.outChannels, ez, 0, Pos(0, 0, 0), idx[r]);
    PoolIsFlattening(ztwk, batch, m.outChannels, ez, ix.l, src, 0);
    PredictionAt(m, z, batch, e, skipStep, dim, k, ix.l, src);
  }

  /** The position of the term (dim, k) in the visiting order. */
  function TermIndex(dim: Axis, k: nat, kCount: nat): int {
    if dim == 0 then k - 1 else if dim == 1 then kCount + k - 1 else 2 * kCount + k - 1
  }

  /** The (dim, k) pairs of one axis, k = 1..kCount. */
  function AxisTerms(dim: Axis, kCount: nat): seq<(Axis, nat)> {
    seq(kCount, i requires 0 <= i < kCount => (dim, i + 1))
  }

  /** The (dim, k) pairs in the order `for dim in range(3): for k in
      range(1, K + 1)` visits them. */
  function Terms(kCount: nat): (ts: seq<(Axis, nat)>)
    ensures |ts| == 3 * kCount
    ensures forall t :: 0 <= t < |ts| ==> 1 <= ts[t].1 <= kCount
  {
    AxisTerms(0, kCount) + AxisTerms(1, kCount) + AxisTerms(2, kCount)
  }

  /** Every (dim, k) with dim < 3 and 1 <= k <= K occurs in Terms(K), at
      TermIndex(dim, k, K), and no pair occurs twice. */
  lemma TermsEnumerate(kCount: nat)
    ensures forall dim: Axis, k: nat :: 1 <= k <= kCount ==>
              0 <= TermIndex(dim, k, kCount) < 3 * kCount && Terms(kCount)[TermIndex(dim, k, kCount)] == (dim, k)
    ensures forall s, t :: 0 <= s < t < 3 * kCount ==> Terms(kCount)[s] != Terms(kCount)[t]
  {
    var ts := Terms(kCount);
    forall dim: Axis, k: nat | 1 <= k <= kCount
      ensures 0 <= TermIndex(dim, k, kCount) < 3 * kCount && ts[TermIndex(dim, k, kCount)] == (dim, k)
    {
      if dim == 0 {
        assert ts[k - 1] == AxisTerms(0, kCount)[k - 1];
      } else if dim == 1 {
        assert ts[kCount + k - 1] == AxisTerms(1, kCount)[k - 1];
      } else {
        assert ts[2 * kCount + k - 1] == AxisTerms(2, kCount)[k - 1];
      }
    }
    forall t | 0 <= t < 3 * kCount ensures TermIndex(ts[t].0, ts[t].1, kCount) == t {
      if t < kCount {
        assert ts[t] == AxisTerms(0, kCount)[t];
      } else if t < 2 * kCount {
        assert ts[t] == AxisTerms(1, kCount)[t - kCount];
      } else {
        assert ts[t] == AxisTerms(2, kCount)[t - 2 * kCount];
      }
    }
  }

  /** The results of all terms, in visiting order. */
  function TermResults(m: InfoNCE, z: Volume, c: Volume, mask: MaskVolume, batch: nat, e: Extent, skipStep: int,
                       draws: (Axis, nat) -> seq<int>, termLoss: TermLoss): (rs: seq<Result<real>>)
    requires WellShaped(m, z, c, mask, batch, e) && DrawsValid(m, batch, e, skipStep, draws)
    ensures |rs| == 3 * HeadCount(m.kPredictions)
  {
    var ts := Terms(HeadCount(m.kPredictions));
    seq(|ts|, t requires 0 <= t < |ts| =>
      Term(m, z, c, mask, batch, e, skipStep, ts[t].0, ts[t].1, draws(ts[t].0, ts[t].1), termLoss))
  }

  /** `total_loss += term` over rs from left to right; the first error
      aborts the pass. */
  function Accumulate(rs: seq<Result<real>>): Result<real>
    decreases |rs|
  {
    if |rs| == 0 then Ok(0.0)
    else match Accumulate(rs[..|rs| - 1])
      case Err(err) => Err(err)
      case Ok(total) =>
        match rs[|rs| - 1]
        case Err(err) => Err(err)
        case Ok(v) => Ok(total + v)
  }

  /** The values of the terms, 0 for a failed term. */
  function Values(rs: seq<Result<real>>): (vs: seq<real>)
    ensures |vs| == |rs|
  {
    seq(|rs|, i requires 0 <= i < |rs| => if rs[i].Ok? then rs[i].value else 0.0)
  }

  /** Plain sum of a sequence of reals. */
  function Sum(vs: seq<real>): real
    decreases |vs|
  {
    if |vs| == 0 then 0.0 else vs[0] + Sum(vs[1..])
  }

  lemma {:induction false} SumSnoc(vs: seq<real>, v: real)
    ensures Sum(vs + [v]) == Sum(vs) + v
    decreases |vs|
  {
    if |vs| > 0 {
      assert (vs + [v])[1..] == vs[1..] + [v];
      SumSnoc(vs[1..], v);
    }
  }

  /** Accumulating succeeds exactly when every term succeeds, and then yields
      the sum of the term values. */
  lemma {:induction false} AccumulateIsSum(rs: seq<Result<real>>)
    ensures Accumulate(rs).Ok? <==> forall i :: 0 <= i < |rs| ==> rs[i].Ok?
    ensures Accumulate(rs).Ok? ==> Accumulate(rs).value == Sum(Values(rs))
    decreases |rs|
  {
    if |rs| > 0 {
      var init := rs[..|rs| - 1];
      AccumulateIsSum(init);
      assert Values(rs) == Values(init) + [Values(rs)[|rs| - 1]];
      SumSnoc(Values(init), Values(rs)[|rs| - 1]);
      if !Accumulate(init).Ok? {
        var i :| 0 <= i < |init| && !init[i].Ok?;
        assert rs[i] == init[i];
      }
    }
  }

  /** Once a prefix has failed, the whole pass fails with the same error. */
  lemma {:induction false} AccumulateStopsAtError(rs: seq<Result<real>>, t: nat)
    requires t <= |rs| && Accumulate(rs[..t]).Err?
    ensures Accumulate(rs) == Accumulate(rs[..t])
    decreases |rs| - t
  {
    if t < |rs| {
      assert rs[..t + 1][..t] == rs[..t];
      AccumulateStopsAtError(rs, t + 1);
    } else {
      assert rs[..t] == rs;
    }
  }

  /** One more step of the accumulation after a successful prefix. */
  lemma AccumulateNext(rs: seq<Result<real>>, t: nat, total: real)
    requires t < |rs| && Accumulate(rs[..t]) == Ok(total)
    ensures rs[t].Err? ==> Accumulate(rs[..t + 1]) == Err(rs[t].error)
    ensures rs[t].Ok? ==> Accumulate(rs[..t + 1]) == Ok(total + rs[t].value)
  {
    assert rs[..t + 1][..t] == rs[..t];
  }

  /** The forward pass: the sum of the 3K term losses divided by 3K. */
  function Loss(m: InfoNCE, z: Volume, c: Volume, mask: MaskVolume, batch: nat, e: Extent, skipStep: int,
                draws: (Axis, nat) -> seq<int>, termLoss: TermLoss): Result<real>
    requires WellShaped(m, z, c, mask, batch, e) && DrawsValid(m, batch, e, skipStep, draws)
  {
    match Accumulate(TermResults(m, z, c, mask, batch, e, skipStep, draws, termLoss))
    case Err(err) => Err(err)
    case Ok(total) =>
      if m.kPredictions == 0 then Err(ZeroDivision)
      else Ok(total / ((3 * m.kPredictions) as real))
  }

  /** Result t of TermResults is the term (dim, k) with t == TermIndex(dim, k, K). */
  lemma TermResultAt(m: InfoNCE, z: Volume, c: Volume, mask: MaskVolume, batch: nat, e: Extent, skipStep: int,
                     draws: (Axis, nat) -> seq<int>, termLoss: TermLoss, dim: Axis, k: nat)
    requires WellShaped(m, z, c, mask, batch, e) && DrawsValid(m, batch, e, skipStep, draws)
    requires 1 <= k <= m.kPredictions
    ensures 0 <= TermIndex(dim, k, m.kPredictions) < |TermResults(m, z, c, mask, batch, e, skipStep, draws, termLoss)|
    ensures TermResults(m, z, c, mask, batch, e, skipStep, draws, termLoss)[TermIndex(dim, k, m.kPredictions)]
         == Term(m, z, c, mask, batch, e, skipStep, dim, k, draws(dim, k), termLoss)
  {
    TermsEnumerate(m.kPredictions);
  }

  /** With K >= 1 heads the loss is defined exactly when no term raises,
      and then it is the average of the 3K term values, term
      (dim, k) being the one at TermIndex(dim, k, K). With K == 0 the final
      division fails. */
  lemma LossIsAverage(m: InfoNCE, z: Volume, c: Volume, mask: MaskVolume, batch: nat, e: Extent, skipStep: int,
                      draws: (Axis, nat) -> seq<int>, termLoss: TermLoss)
    requires WellShaped(m, z, c, mask, batch, e) && DrawsValid(m, batch, e, skipStep, draws)
    ensures var rs := TermResults(m, z, c, mask, batch, e, skipStep, draws, termLoss);
            && (forall dim: Axis, k: nat :: 1 <= k <= m.kPredictions ==>
                  0 <= TermIndex(dim, k, m.kPredictions) < |rs| &&
                  rs[TermIndex(dim, k, m.kPredictions)]
                  == Term(m, z, c, mask, batch, e, skipStep, dim, k, draws(dim, k), termLoss))
            && (m.kPredictions == 0 ==> Loss(m, z, c, mask, batch, e, skipStep, draws, termLoss) == Err(ZeroDivision))
            && (m.kPredictions >= 1 ==>
                  ((forall i :: 0 <= i < |rs| ==> rs[i].Ok?) <==> Loss(m, z, c, mask, batch, e, skipStep, draws, termLoss).Ok?)
                  && ((forall i :: 0 <= i < |rs| ==> rs[i].Ok?) ==>
                        Loss(m, z, c, mask, batch, e, skipStep, draws, termLoss)
                        == Ok(Sum(Values(rs)) / ((3 * m.kPredictions) as real))))
  {
    forall dim: Axis, k: nat | 1 <= k <= m.kPredictions
      ensures 0 <= TermIndex(dim, k, m.kPredictions) < |TermResults(m, z, c, mask, batch, e, skipStep, draws, termLoss)|
      ensures TermResults(m, z, c, mask, batch, e, skipStep, draws, termLoss)[TermIndex(dim, k, m.kPredictions)]
           == Term(m, z, c, mask, batch, e, skipStep, dim, k, draws(dim, k), termLoss)
    {
      TermResultAt(m, z, c, mask, batch, e, skipStep, draws, termLoss, dim, k);
    }
    AccumulateIsSum(TermResults(m, z, c, mask, batch, e, skipStep, draws, termLoss));
  }

  /** One iteration of the inner loop: the term's scores and, through the
      in-place label array, its labels, handed to termLoss. */
  method ForwardTerm(m: InfoNCE, z: Volume, c: Volume, mask: MaskVolume, batch: nat, e: Extent, skipStep: int,
                     dim: Axis, k: nat, draws: (Axis, nat) -> seq<int>, termLoss: TermLoss) returns (r: Result<real>)
    requires WellShaped(m, z, c, mask, batch, e) && DrawsValid(m, batch, e, skipStep, draws)
    requires 1 <= k <= m.kPredictions
    ensures r == Term(m, z, c, mask, batch, e, skipStep, dim, k, draws(dim, k), termLoss)
  {
    var idx := draws(dim, k);
    var d := k + skipStep;
    if TermPoolSize(batch, e, dim, k, skipStep) == 0 {
      return Err(EmptyVolume);
    }
    if !Aligned(e.Along(dim), d) {
      return Err(ShapeMismatch);
    }
    var ez := Trimmed(e, dim, d);
    var scores := TermScores(m, z, c, batch, e, skipStep, dim, k, idx);
    var labels := TermLabels(IgnoreSum(mask, batch, e, dim, d), batch, ez, m.ignoreIndex);
    r := Ok(termLoss(scores, labels));
  }

  /** Term (dim, k) sits at position TermIndex(dim, k, K) of rs. */
  predicate TermsAt(m: InfoNCE, z: Volume, c: Volume, mask: MaskVolume, batch: nat, e: Extent, skipStep: int,
                    draws: (Axis, nat) -> seq<int>, termLoss: TermLoss, rs: seq<Result<real>>)
    requires WellShaped(m, z, c, mask, batch, e) && DrawsValid(m, batch, e, skipStep, draws)
  {
    && |rs| == 3 * HeadCount(m.kPredictions)
    && forall dim: Axis, k: nat {:trigger Term(m, z, c, mask, batch, e, skipStep, dim, k, draws(dim, k), termLoss)} ::
         1 <= k <= m.kPredictions ==>
         0 <= TermIndex(dim, k, m.kPredictions) < |rs| &&
         rs[TermIndex(dim, k, m.kPredictions)] == Term(m, z, c, mask, batch, e, skipStep, dim, k, draws(dim, k), termLoss)
  }

  /** The body of the inner loop of `forward`: term (dim, k), at position t
      of rs, is computed and added into total (`total_loss += ...`). */
  method AddTerm(m: InfoNCE, z: Volume, c: Volume, mask: MaskVolume, batch: nat, e: Extent, skipStep: int,
                 draws: (Axis, nat) -> seq<int>, termLoss: TermLoss, ghost rs: seq<Result<real>>,
                 dim: Axis, k: nat, ghost t: nat, total: real)
      returns (r: Result<real>)
    requires WellShaped(m, z, c, mask, batch, e) && DrawsValid(m, batch, e, skipStep, draws)
    requires TermsAt(m, z, c, mask, batch, e, skipStep, draws, termLoss, rs)
    requires 1 <= k <= m.kPredictions && t == TermIndex(dim, k, m.kPredictions)
    requires t <= |rs| && Accumulate(rs[..t]) == Ok(total)
    ensures t < |rs| && Accumulate(rs[..t + 1]) == r
  {
    var term := ForwardTerm(m, z, c, mask, batch, e, skipStep, dim, k, draws, termLoss);
    assert rs[t] == term;
    AccumulateNext(rs, t, total);
    if term.Err? {
      return Err(term.error);
    }
    r := Ok(total + term.value);
  }

  /** The inner loop of `forward` for one axis, k over range(1, K + 1): it
      continues the accumulation of rs from position t0, the first term of
      the axis, to the end of the axis, or stops at the first error. */
  method AccumulateAxis(m: InfoNCE, z: Volume, c: Volume, mask: MaskVolume, batch: nat, e: Extent, skipStep: int,
                        draws: (Axis, nat) -> seq<int>, termLoss: TermLoss, ghost rs: seq<Result<real>>,
                        dim: Axis, t0: nat, total0: real)
      returns (r: Result<real>)
    requires WellShaped(m, z, c, mask, batch, e) && DrawsValid(m, batch, e, skipStep, draws)
    requires TermsAt(m, z, c, mask, batch, e, skipStep, draws, termLoss, rs)
    requires t0 == TermIndex(dim, 1, HeadCount(m.kPredictions)) && Accumulate(rs[..t0]) == Ok(total0)
    ensures t0 + HeadCount(m.kPredictions) <= |rs|
    ensures r.Ok? ==> Accumulate(rs[..t0 + HeadCount(m.kPredictions)]) == r
    ensures r.Err? ==> Accumulate(rs) == r
  {
    var kc := HeadCount(m.kPredictions);
    var total := total0;
    var t := t0;
    for k := 1 to kc + 1
      invariant t == TermIndex(dim, k, kc) && t <= |rs|
      invariant Accumulate(rs[..t]) == Ok(total)
    {
      var step := AddTerm(m, z, c, mask, batch, e, skipStep, draws, termLoss, rs, dim, k, t, total);
      if step.Err? {
        AccumulateStopsAtError(rs, t + 1);
        return step;
      }
      total := step.value;
      t := t + 1;
    }
    r := Ok(total);
  }

  /** The two nested loops of `forward`: dim over range(3), and for each
      axis the inner loop over k, each term added into total. */
  method AccumulateTerms(m: InfoNCE, z: Volume, c: Volume, mask: MaskVolume, batch: nat, e: Extent, skipStep: int,
                         draws: (Axis, nat) -> seq<int>, termLoss: TermLoss, ghost rs: seq<Result<real>>)
      returns (r: Result<real>)
    requires WellShaped(m, z, c, mask, batch, e) && DrawsValid(m, batch, e, skipStep, draws)
    requires TermsAt(m, z, c, mask, batch, e, skipStep, draws, termLoss, rs)
    ensures r == Accumulate(rs)
  {
    var kc := HeadCount(m.kPredictions);
    var total: real := 0.0;
    var t := 0;
    for dim := 0 to 3
      invariant t == (if dim == 0 then 0 else if dim == 1 then kc else if dim == 2 then 2 * kc else 3 * kc)
      invariant Accumulate(rs[..t]) == Ok(total)
    {
      var axis := AccumulateAxis(m, z, c, mask, batch, e, skipStep, draws, termLoss, rs, dim, t, total);
      if axis.Err? {
        return axis;
      }
      total := axis.value;
      t := t + kc;
    }
    assert rs[..3 * kc] == rs;
    r := Ok(total);
  }

  /** `forward(z, c, targets_to_ignore, skip_step=1)`: the accumulated
      total divided in place by 3K. The default skip_step is not modelled;
      callers pass skipStep explicitly. */
  method Forward(m: InfoNCE, z: Volume, c: Volume, mask: MaskVolume, batch: nat, e: Extent, skipStep: int,
                 draws: (Axis, nat) -> seq<int>, termLoss: TermLoss) returns (r: Result<real>)
    requires WellShaped(m, z, c, mask, batch, e) && DrawsValid(m, batch, e, skipStep, draws)
    ensures r == Loss(m, z, c, mask, batch, e, skipStep, draws, termLoss)
  {
    ghost var rs := TermResults(m, z, c, mask, batch, e, skipStep, draws, termLoss);
    LossIsAverage(m, z, c, mask, batch, e, skipStep, draws, termLoss);
    var total := AccumulateTerms(m, z, c, mask, batch, e, skipStep, draws, termLoss, rs);
    if total.Err? {
      return Err(total.error);
    }
    if m.kPredictions == 0 {
      return Err(ZeroDivision);
    }
    r := Ok(total.value / ((3 * m.kPredictions) as real));
  }
}
