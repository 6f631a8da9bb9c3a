/** Three-dimensional spatial grids indexed [x][y][z], Python slicing on
    them, and one axis-parameterised slice (`Narrow`) that agrees with the
    three per-axis slicing branches of the loss. */
module Grids {

  /** A spatial axis: 0 is x, 1 is y, 2 is z. */
  type Axis = d: nat | d < 3

  /** Spatial extent of a grid. */
  datatype Extent = Extent(x: nat, y: nat, z: nat) {
    function Along(dim: Axis): nat {
      if dim == 0 then x else if dim == 1 then y else z
    }

    function WithAlong(dim: Axis, n: nat): (r: Extent)
      ensures r.Along(dim) == n
      ensures forall a: Axis :: a != dim ==> r.Along(a) == Along(a)
    {
      if dim == 0 then Extent(n, y, z)
      else if dim == 1 then Extent(x, n, z)
      else Extent(x, y, n)
    }
  }

  /** A grid position. */
  datatype Pos = Pos(x: nat, y: nat, z: nat) {
    function Along(dim: Axis): nat {
      if dim == 0 then x else if dim == 1 then y else z
    }

    /** The position moved d cells forward along dim. */
    function Plus(dim: Axis, d: nat): (p: Pos)
      ensures p.Along(dim) == Along(dim) + d
      ensures forall a: Axis :: a != dim ==> p.Along(a) == Along(a)
    {
      if dim == 0 then Pos(x + d, y, z)
      else if dim == 1 then Pos(x, y + d, z)
      else Pos(x, y, z + d)
    }

    predicate In(e: Extent) {
      x < e.x && y < e.y && z < e.z
    }
  }

  type Grid<T> = seq<seq<seq<T>>>

  predicate IsGrid<T>(g: Grid<T>, e: Extent) {
    |g| == e.x &&
    forall i :: 0 <= i < |g| ==>
      |g[i]| == e.y && forall j :: 0 <= j < |g[i]| ==> |g[i][j]| == e.z
  }

  function At<T>(g: Grid<T>, e: Extent, p: Pos): T
    requires IsGrid(g, e) && p.In(e)
  {
    g[p.x][p.y][p.z]
  }

  /** Python's normalisation of a slice bound i on a sequence of length n:
      a negative bound counts from the end, and the result is clamped to
      [0, n]. */
  function PyIndex(n: nat, i: int): (r: nat)
    ensures r <= n
  {
    if i < 0 then (if i + n < 0 then 0 else i + n)
    else if i > n then n
    else i
  }

  /** Python's s[start:]. */
  function From<T>(s: seq<T>, start: int): seq<T> {
    s[PyIndex(|s|, start)..]
  }

  /** Python's s[:stop]. */
  function Upto<T>(s: seq<T>, stop: int): seq<T> {
    s[..PyIndex(|s|, stop)]
  }

  /** The slice g[start:, :, :], g[:, start:, :] or g[:, :, start:], as
      `InfoNCE_Loss.forward` writes it for dim 0, 1 and 2. */
  function SliceFrom<T>(g: Grid<T>, dim: Axis, start: int): Grid<T> {
    if dim == 0 then From(g, start)
    else if dim == 1 then seq(|g|, i requires 0 <= i < |g| => From(g[i], start))
    else seq(|g|, i requires 0 <= i < |g| =>
           seq(|g[i]|, j requires 0 <= j < |g[i]| => From(g[i][j], start)))
  }

  /** The slice g[:stop, :, :], g[:, :stop, :] or g[:, :, :stop], as
      `InfoNCE_Loss.forward` writes it for dim 0, 1 and 2. */
  function SliceUpto<T>(g: Grid<T>, dim: Axis, stop: int): Grid<T> {
    if dim == 0 then Upto(g, stop)
    else if dim == 1 then seq(|g|, i requires 0 <= i < |g| => Upto(g[i], stop))
    else seq(|g|, i requires 0 <= i < |g| =>
           seq(|g[i]|, j requires 0 <= j < |g[i]| => Upto(g[i][j], stop)))
  }

  /** The cells lo..hi-1 along dim, everything else kept. */
  function Narrow<T>(g: Grid<T>, e: Extent, dim: Axis, lo: nat, hi: nat): (r: Grid<T>)
    requires IsGrid(g, e) && lo <= hi <= e.Along(dim)
    ensures IsGrid(r, e.WithAlong(dim, hi - lo))
  {
    var n := e.WithAlong(dim, hi - lo);
    var p := Pos(0, 0, 0).Plus(dim, lo);
    seq(n.x, i requires 0 <= i < n.x =>
      seq(n.y, j requires 0 <= j < n.y =>
        seq(n.z, k requires 0 <= k < n.z => g[i + p.x][j + p.y][k + p.z])))
  }

  /** Cell p of a narrowed grid is cell p moved lo forward along dim. */
  lemma NarrowAt<T>(g: Grid<T>, e: Extent, dim: Axis, lo: nat, hi: nat, p: Pos)
    requires IsGrid(g, e) && lo <= hi <= e.Along(dim)
    requires p.In(e.WithAlong(dim, hi - lo))
    ensures p.Plus(dim, lo).In(e)
    ensures At(Narrow(g, e, dim, lo, hi), e.WithAlong(dim, hi - lo), p) == At(g, e, p.Plus(dim, lo))
  {
  }

  /** The as-written `start:` branches are the axis-generic Narrow from the
      normalised start to the end of the axis. */
  lemma SliceFromIsNarrow<T>(g: Grid<T>, e: Extent, dim: Axis, start: int)
    requires IsGrid(g, e)
    ensures SliceFrom(g, dim, start)
         == Narrow(g, e, dim, PyIndex(e.Along(dim), start), e.Along(dim))
  {
    var n := e.Along(dim);
    var lo := PyIndex(n, start);
    var s, r := SliceFrom(g, dim, start), Narrow(g, e, dim, lo, n);
    var f := e.WithAlong(dim, n - lo);
    assert |s| == |r| == f.x;
    forall i | 0 <= i < f.x ensures s[i] == r[i] {
      assert |s[i]| == |r[i]| == f.y;
      forall j | 0 <= j < f.y ensures s[i][j] == r[i][j] {
        assert |s[i][j]| == |r[i][j]| == f.z;
      }
    }
  }

  /** The as-written `:stop` branches are the axis-generic Narrow from the
      start of the axis to the normalised stop. */
  lemma SliceUptoIsNarrow<T>(g: Grid<T>, e: Extent, dim: Axis, stop: int)
    requires IsGrid(g, e)
    ensures SliceUpto(g, dim, stop) == Narrow(g, e, dim, 0, PyIndex(e.Along(dim), stop))
  {
    var hi := PyIndex(e.Along(dim), stop);
    var s, r := SliceUpto(g, dim, stop), Narrow(g, e, dim, 0, hi);
    var f := e.WithAlong(dim, hi);
    assert |s| == |r| == f.x;
    forall i | 0 <= i < f.x ensures s[i] == r[i] {
      assert |s[i]| == |r[i]| == f.y;
      forall j | 0 <= j < f.y ensures s[i][j] == r[i][j] {
        assert |s[i][j]| == |r[i][j]| == f.z;
      }
    }
  }

  /** Trimming d cells: `start = d` drops the first d cells and `stop = -d`
      drops the last d. The two trimmed extents agree exactly when d is not
      zero (or the axis is empty); for 1 <= d < n both are n - d, and for
      d >= n both are empty. */
  lemma TrimmedExtents(n: nat, d: int)
    ensures (n - PyIndex(n, d) == PyIndex(n, -d)) <==> (d != 0 || n == 0)
    ensures 1 <= d < n ==> PyIndex(n, d) == d && n - PyIndex(n, d) == n - d && PyIndex(n, -d) == n - d
    ensures d >= n && d >= 1 ==> n - PyIndex(n, d) == 0 && PyIndex(n, -d) == 0
  {
  }

  /** The extent of the `start = d` slice along dim: the first
      PyIndex(n, d) cells of the axis are gone. */
  function Trimmed(e: Extent, dim: Axis, d: int): Extent {
    e.WithAlong(dim, e.Along(dim) - PyIndex(e.Along(dim), d))
  }

  /** The `start = d` slice and the `stop = -d` slice have the same extent. */
  predicate Aligned(n: nat, d: int) {
    n - PyIndex(n, d) == PyIndex(n, -d)
  }

  /** Elementwise sum of two grids of the same extent. */
  function Add(g: Grid<int>, h: Grid<int>, e: Extent): (r: Grid<int>)
    requires IsGrid(g, e) && IsGrid(h, e)
    ensures IsGrid(r, e)
    ensures forall p: Pos :: p.In(e) ==> At(r, e, p) == At(g, e, p) + At(h, e, p)
  {
    seq(e.x, i requires 0 <= i < e.x =>
      seq(e.y, j requires 0 <= j < e.y =>
        seq(e.z, k requires 0 <= k < e.z => g[i][j][k] + h[i][j][k])))
  }
}
