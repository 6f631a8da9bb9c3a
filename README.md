# InfoNCE loss over 3-D patch grids

This project models the InfoNCE loss module of the point-cloud variant of
Greedy InfoMax (`InfoNCE_Loss` in
`GreedyInfoMax/pointnet/models/InfoNCE_Loss.py`) and proves properties of it.

The module is built with `K = subcloud_cube_size - 2` prediction heads. Each
head is a bias-free 1x1x1 `Conv3d`. `forward(z, c, targets_to_ignore,
skip_step)` gets an encoding volume `z` of shape (batch, in, x, y, z), a
context volume `c` of shape (batch, out, x, y, z) and an ignore mask of shape
(batch, x, y, z). For every axis `dim` in 0..2 and every offset `k` in 1..K,
in that order, it does the following:

- trims `z` at the front and `c` at the back by `k + skip_step` cells along `dim` (with Python's slice-bound rules, so a negative offset keeps the last cells of `z`);
- puts the trimmed `z` through head `k - 1`;
- flattens the prediction into a pool of M = x'·y'·z'·batch rows, in (x, y, z, b) row-major order;
- gathers M·N random pool rows as N negatives per cell;
- scores each cell as `1 + N` dot products: slot 0 is the true pair, slots 1..N are the negatives;
- labels every cell 0, or the ignore index -100 when the mask sum at the cell's two endpoints is positive;
- adds the contrastive loss of (scores, labels) to a running total.

The total is finally divided by `3K`.

Module layout, following the program's data flow:

- `RowMajor` (`row_major.dfy`): row-major ranks of 4-D indices, and the bijection between indices and ranks that `view` relies on.
- `Grids` (`grids.dfy`): extents, positions, 3-D grids, Python slice-bound normalisation, the three as-written slicing branches and the axis-generic `Narrow` they equal.
- `Linear` (`linear.dfy`): integer dot products, matrix-vector and vector-matrix products.
- `Volumes` (`volumes.dfy`): (batch, channel, x, y, z) volumes, (batch, x, y, z) masks, channel fibres and narrowing.
- `Heads` (`heads.dfy`): the 1x1x1 convolution, proved to act cell by cell.
- `Sampler` (`sampler.dfy`): the pool flattening, `repeat` and `gather`, and the `view`/`permute` into N negatives per cell.
- `Scorer` (`scorer.dfy`): the score volume, the endpoint ignore sums and the labels. The labels come as a function, and as the method that fills the `true_f` array in place.
- `InfoNCELoss` (`infonce_loss.dfy`): the module value built by `__init__`, one loss term, the order in which terms are visited, and the forward pass. The forward pass is the two nested loops, proved equal to a functional definition whose properties are proved as lemmas.

`forward` gives `skip_step` a default of 1 (line 42); the model has no default arguments, so `skipStep` is an explicit parameter of `Forward`, `Loss` and every term.

Inputs the model cannot compute are parameters:

- `initWeight` gives the initial head weights.
- `draws(dim, k)` gives the index vector `torch.randint` would produce for the term (dim, k).
- `termLoss` is the softmax, log and NLL applied to one term's (scores, labels).

Embedding values are integers, so every score is an exact integer.

Two notes on how the code behaves:

- An offset `k + skip_step` that reaches past the axis (`k + skip_step >= n`) makes the slice `z[:, :, k+skip:, :, :]` (or its `dim` 1 and 2 forms) an empty tensor. The 1x1x1 `Conv3d` at line 67 then raises on the zero-size input. The same holds when an extent of the grid is 0. With batch 0, `torch.randint` at lines 76-81 raises on its empty range `[0, 0)`. The model reports all of these as `Err(EmptyVolume)`: the term's pool of M = x'·y'·z'·batch rows is empty. That check comes before the shape check, as in the program, where the convolution runs before the `matmul`.
- The source comments from line 70 on label the permuted layout "z, y, x, b, c" (the one at line 68 says x, y, z, Bx, C). `permute(2, 3, 4, 0, 1)` of (b, c, x, y, z) gives (x, y, z, b, c). The model uses the order the code produces: b varies fastest in the pool, then z, y and x.

The model also covers the two other error paths:

- When `k + skip_step == 0` (for example `skip_step = -k`) on a non-empty axis, `:-0` is an empty slice while `0:` is the whole axis. The two `matmul` operands then disagree in extent, and the term is `Err(ShapeMismatch)`.
- When `subcloud_cube_size == 2`, K is 0, no term runs, and the final `total_loss /= 0` is `Err(ZeroDivision)`.

## Model

| member | source | states |
|---|---|---|
| RowMajor.UnrankRank4 | GreedyInfoMax/pointnet/models/InfoNCE_Loss.py:73-75 | a 4-D index in bounds has a rank below a·b·c·d, and unflattening that rank gives the index back |
| RowMajor.RankUnrank4 | GreedyInfoMax/pointnet/models/InfoNCE_Loss.py:90-99 | every rank below a·b·c·d unflattens to an in-bounds index that re-flattens to the same rank, so viewing the flat rows back as (x, y, z, b, ...) loses nothing |
| RowMajor.Rank4Injective | GreedyInfoMax/pointnet/models/InfoNCE_Loss.py:73-75 | two different in-bounds indices never share a row |
| Grids.SliceFromIsNarrow | GreedyInfoMax/pointnet/models/InfoNCE_Loss.py:58-63 | `SliceFrom`, the three as-written `[k+skip:]` branches, equals the generic narrowing of its axis from the Python-normalised start to the end |
| Grids.SliceUptoIsNarrow | GreedyInfoMax/pointnet/models/InfoNCE_Loss.py:102-107 | `SliceUpto`, the three as-written `[:-(k+skip)]` branches, equals the generic narrowing of its axis from 0 to the normalised stop |
| Grids.Narrow | GreedyInfoMax/pointnet/models/InfoNCE_Loss.py:58-107 | the cells lo..hi − 1 along dim of a grid, everything else kept, form a grid of the extent with that axis shortened to hi − lo; `NarrowAt` gives its cells |
| Grids.TrimmedExtents | GreedyInfoMax/pointnet/models/InfoNCE_Loss.py:58-107 | the `d:` and `:-d` slices of an axis of n cells have equal length exactly when d ≠ 0 or n = 0; both are n − d when 1 ≤ d < n, and both are empty when d ≥ n |
| Grids.NarrowAt | GreedyInfoMax/pointnet/models/InfoNCE_Loss.py:58-63 | cell p of a narrowed grid is cell p moved lo cells along dim in the original grid |
| Grids.Add | GreedyInfoMax/pointnet/models/InfoNCE_Loss.py:129-133 | the sum of two mask slices has the same extent and holds the pointwise sums |
| Volumes.NarrowVolumeFiber | GreedyInfoMax/pointnet/models/InfoNCE_Loss.py:59-63 | after slicing a (batch, channel, x, y, z) volume, the channel vector at p is the original vector at p moved lo cells along dim |
| Heads.ChannelSumIsDot | GreedyInfoMax/pointnet/models/InfoNCE_Loss.py:22 | the 1x1x1 convolution sum over the first n input channels is the dot product of the weight row with the cell's channel vector |
| Heads.ApplyHead | GreedyInfoMax/pointnet/models/InfoNCE_Loss.py:65-67 | the bias-free 1x1x1 `Conv3d` with an out × in weight maps a (batch, in, x, y, z) volume to a (batch, out, x, y, z) one; `HeadIsPointwise` gives its values |
| Heads.HeadIsPointwise | GreedyInfoMax/pointnet/models/InfoNCE_Loss.py:65-67 | a head output at (b, p) is the weight matrix times the input vector at the same (b, p), so it depends on no other cell |
| Sampler.Pool | GreedyInfoMax/pointnet/models/InfoNCE_Loss.py:68-75 | the `permute` and `view(x·y·z·batch, C)` of a (batch, C, x, y, z) volume is M = x·y·z·batch rows of C entries; `PoolIsFlattening` says which cell each row holds |
| Sampler.RepeatColumns | GreedyInfoMax/pointnet/models/InfoNCE_Loss.py:83 | `idx.repeat(1, C)` of the M·N indices is an M·N × C index matrix |
| Sampler.Gather | GreedyInfoMax/pointnet/models/InfoNCE_Loss.py:86-88 | `gather` along dim 0 gives one output row per index row, as wide as the index row; `GatherRepeated` gives its rows |
| Sampler.PoolIsFlattening | GreedyInfoMax/pointnet/models/InfoNCE_Loss.py:68-75 | the pool row of cell (p, b) is in range and holds the vector at (p, b); every pool row is the row of the cell it unflattens to |
| Sampler.GatherRepeated | GreedyInfoMax/pointnet/models/InfoNCE_Loss.py:76-88 | repeating each index across C columns makes `gather` legal, and gathered row r is exactly pool row idx[r] |
| Sampler.NegativeView | GreedyInfoMax/pointnet/models/InfoNCE_Loss.py:90-99 | the `view` and `permute` of the gathered rows gives each pool position a C × N matrix of negatives; `NegativeViewColumn` gives its columns |
| Sampler.NegativeViewColumn | GreedyInfoMax/pointnet/models/InfoNCE_Loss.py:90-99 | negative s of pool position q is gathered row q·N + s, which lies below M·N |
| Scorer.Scores | GreedyInfoMax/pointnet/models/InfoNCE_Loss.py:112-117 | the score volume has shape (batch, 1 + N, x', y', z') |
| Scorer.CellScores | GreedyInfoMax/pointnet/models/InfoNCE_Loss.py:112-116 | a cell's score vector has 1 + N entries, slot 0 for the true pair and slots 1..N for the negatives; `ScoresAt` gives the values within the score volume |
| Scorer.ScoresAt | GreedyInfoMax/pointnet/models/InfoNCE_Loss.py:112-117 | slot 0 at (b, p) is the context vector dotted with the predicted vector at (b, p); slot 1 + s is the context vector dotted with gathered row q·N + s, q being the pool row of (b, p) |
| Scorer.IgnoreSum | GreedyInfoMax/pointnet/models/InfoNCE_Loss.py:128-133 | the ignore sum of an aligned trim has the trimmed extent, the extent of the score volume |
| Scorer.Labels | GreedyInfoMax/pointnet/models/InfoNCE_Loss.py:121-134 | the labels have the (batch, x', y', z') shape of the ignore sum; `EndpointLabels` gives their values and `BuildLabels` fills the array |
| Scorer.EndpointLabels | GreedyInfoMax/pointnet/models/InfoNCE_Loss.py:127-134 | the ignore sum at trimmed cell p is mask[p] + mask[p moved by the trim]; the label there is the ignore index exactly when that sum is positive, and 0 otherwise |
| Scorer.BuildLabels | GreedyInfoMax/pointnet/models/InfoNCE_Loss.py:121-134 | the freshly allocated (batch, x', y', z') array holds the ignore index where the ignore sum is positive and 0 everywhere else |
| InfoNCELoss.Create | GreedyInfoMax/pointnet/models/InfoNCE_Loss.py:14-24 | K = subcloud_cube_size − 2, ignore index −100, max(K, 0) heads of shape out × in carrying the given initial weights, and N as configured |
| InfoNCELoss.Prediction | GreedyInfoMax/pointnet/models/InfoNCE_Loss.py:58-67 | the future slice put through head k − 1 has shape (batch, out) over the extent trimmed by k + skip along dim; `PredictionAt` gives its vectors |
| InfoNCELoss.Context | GreedyInfoMax/pointnet/models/InfoNCE_Loss.py:102-107 | the context slice, when the two trims align, has the same trimmed extent as the prediction; `ContextAt` gives its vectors |
| InfoNCELoss.PredictionAt | GreedyInfoMax/pointnet/models/InfoNCE_Loss.py:56-67 | the predicted vector at trimmed cell p is head k − 1 applied to z at p moved PyIndex(n, k + skip) cells along dim |
| InfoNCELoss.ContextAt | GreedyInfoMax/pointnet/models/InfoNCE_Loss.py:101-109 | the context vector at trimmed cell p is the vector of c at p itself |
| InfoNCELoss.Negatives | GreedyInfoMax/pointnet/models/InfoNCE_Loss.py:73-88 | the M·N gathered rows have C entries each, and row r is pool row idx[r] of the flattened prediction |
| InfoNCELoss.TrueScorePairing | GreedyInfoMax/pointnet/models/InfoNCE_Loss.py:56-112 | slot 0 at cell p of `TermScores`, the term's pre-softmax score volume, is c[b][p] dotted with W_{k−1} applied to z[b] at p moved PyIndex(n, k + skip) cells along dim (k + skip cells when 1 ≤ k + skip < n; p + n + k + skip when −n ≤ k + skip < 0; p itself below that) |
| InfoNCELoss.NegativeScorePairing | GreedyInfoMax/pointnet/models/InfoNCE_Loss.py:73-114 | slot 1 + s at cell p of `TermScores` is c[b][p] dotted with W_{k−1} applied to z at the cell that pool row idx[q·N + s] unflattens to, moved by the same trim |
| InfoNCELoss.TermOutcome | GreedyInfoMax/pointnet/models/InfoNCE_Loss.py:56-136 | for every offset d = k + skip, negative ones included: `Term`, one term of the loss, raises `EmptyVolume` exactly when the batch or an extent is 0, or d ≥ 1 and d ≥ n. It raises `ShapeMismatch` exactly when d = 0 on a non-empty volume. It succeeds exactly in the remaining cases (d ≠ 0, d < n, nothing empty), and its value is then `termLoss` of the term's score volume and of its labels, which carry the module's ignore index |
| RowMajor.Size4Zero | GreedyInfoMax/pointnet/models/InfoNCE_Loss.py:73-81 | a pool of a·b·c·d rows is empty exactly when one of its dimensions is 0 |
| InfoNCELoss.Terms | GreedyInfoMax/pointnet/models/InfoNCE_Loss.py:54-55 | the loops visit 3K terms, each with an offset in 1..K |
| InfoNCELoss.TermsEnumerate | GreedyInfoMax/pointnet/models/InfoNCE_Loss.py:54-55 | every (dim, k) with dim < 3 and 1 ≤ k ≤ K is visited, at position TermIndex(dim, k, K), and no pair is visited twice |
| InfoNCELoss.TermResultAt | GreedyInfoMax/pointnet/models/InfoNCE_Loss.py:54-66 | the result at position TermIndex(dim, k, K) is the term built with head k − 1 on axis dim |
| InfoNCELoss.AccumulateIsSum | GreedyInfoMax/pointnet/models/InfoNCE_Loss.py:136 | `Accumulate`, the running `total_loss +=` that the first raising term ends, succeeds on a list of term results exactly when every term succeeds, and then yields their `Sum` |
| InfoNCELoss.AccumulateStopsAtError | GreedyInfoMax/pointnet/models/InfoNCE_Loss.py:136 | once a term has raised, the whole pass ends with that error |
| InfoNCELoss.LossIsAverage | GreedyInfoMax/pointnet/models/InfoNCE_Loss.py:136-138 | `Loss`, the accumulation of `TermResults` (the 3K term results in the loops' visiting order) divided by 3K: term (dim, k) sits at TermIndex(dim, k, K) of `TermResults`; with K ≥ 1 the loss is defined exactly when no term raises, and is then the sum of the 3K term values divided by 3K; with K = 0 the division fails |
| InfoNCELoss.ForwardTerm | GreedyInfoMax/pointnet/models/InfoNCE_Loss.py:56-136 | one term either raises the empty-volume or the shape error, as `Term` does, or hands its scores and its labels, built in the `true_f` array, to the contrastive loss, whose value is the term's value |
| Scorer.TermLabels | GreedyInfoMax/pointnet/models/InfoNCE_Loss.py:121-134 | reading the filled `true_f` array back gives exactly the label volume |
| InfoNCELoss.AddTerm | GreedyInfoMax/pointnet/models/InfoNCE_Loss.py:136 | one inner-loop step extends the accumulation of the term results by term (dim, k), at position TermIndex(dim, k, K) |
| InfoNCELoss.AccumulateAxis | GreedyInfoMax/pointnet/models/InfoNCE_Loss.py:55-136 | the inner loop over k = 1..K continues the accumulation across the K terms of one axis, or ends the pass at the first error |
| InfoNCELoss.AccumulateTerms | GreedyInfoMax/pointnet/models/InfoNCE_Loss.py:54-136 | the outer loop over the three axes leaves the left-to-right accumulation of all 3K term results, or the first error |
| InfoNCELoss.Forward | GreedyInfoMax/pointnet/models/InfoNCE_Loss.py:42-140 | the forward pass returns the loss above: the average of the 3K terms, the first term error (empty volume or shape mismatch), or the division error for K = 0 |

## Left out

- The softmax over the class axis, `log(p + 1e-11)` and `ExpNLLLoss`'s NLL reduction (lines 119 and 142-152) are floating-point computations. They are the uninterpreted `termLoss` parameter, applied to the (scores, labels) of one term.
- A term whose cells are all ignored gives a NaN mean in the NLL. What such a term contributes is left to `termLoss`.
- `torch.randint` (lines 76-81) is random. Its output for the term (dim, k) is the `draws` parameter, constrained to M·N indices in [0, M). When M is 0 the term is `Err(EmptyVolume)` before any indices are used.
- `initialize` and `makeDeltaOrthogonal` (lines 28-40) belong to a utility module that is not part of this model. The initial weights are the `initWeight` parameter of `Create`.
- Device selection (lines 48-51), `contiguous`, tensor dtypes and autograd do not affect the values computed, and are left out.
- Embeddings and weights are integers rather than floating point, so rounding is not modelled.
- The 1x1x1 kernel dimensions of the `Conv3d` weight are dropped: a head is an out × in matrix.
- InfoNCELoss.Term: when `k + skip_step == 0` and the trimmed axis has exactly one cell, torch would broadcast the empty context slice against the one-cell prediction. The model reports `ShapeMismatch` for every non-empty axis instead.
- InfoNCELoss.Forward: the shape requirements on `z`, `c` and the mask are preconditions (`WellShaped`). The model requires matching shapes; what torch does with broadcastable mis-shapes (a `c` of batch 1 against a `z` of batch B, say), and the errors it raises for the others, is not modelled.
- InfoNCELoss.Loss: for K < 0, Python's `0 / (3K)` is the float −0.0; the model's value is the real 0.
