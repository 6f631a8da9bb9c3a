/** Row-major (C-contiguous) index arithmetic, as used by `.view` on a
    contiguous tensor: a multi-index is turned into a single offset in which
    the last index varies fastest. */
module RowMajor {

  /** Offset of (i, j) in an array of rows of length n. */
  function Rank2(i: nat, j: nat, n: nat): nat {
    i * n + j
  }

  /** Number of elements of a four-dimensional (a, b, c, d) tensor. */
  function Size4(a: nat, b: nat, c: nat, d: nat): nat {
    a * b * c * d
  }

  /** A block of a * b * c * d elements is empty exactly when one of its
      dimensions is. */
  lemma Size4Zero(a: nat, b: nat, c: nat, d: nat)
    ensures Size4(a, b, c, d) == 0 <==> a == 0 || b == 0 || c == 0 || d == 0
  {
    if a > 0 && b > 0 && c > 0 && d > 0 {
      assert a * b >= b;
      MulMonotone(1, a * b, c);
      MulMonotone(1, a * b * c, d);
    }
  }

  /** A four-dimensional index. */
  datatype Index4 = Index4(i: nat, j: nat, k: nat, l: nat)

  /** Offset of (i, j, k, l) in a contiguous (a, b, c, d) tensor. */
  function Rank4(ix: Index4, b: nat, c: nat, d: nat): nat {
    Rank2(Rank2(Rank2(ix.i, ix.j, b), ix.k, c), ix.l, d)
  }

  predicate InBounds4(ix: Index4, a: nat, b: nat, c: nat, d: nat) {
    ix.i < a && ix.j < b && ix.k < c && ix.l < d
  }

  lemma MulMonotone(a: nat, b: nat, n: nat)
    requires a <= b
    ensures a * n <= b * n
  {
  }

  /** The offset of an in-bounds pair lies inside the m * n elements. */
  lemma Rank2Bound(i: nat, j: nat, m: nat, n: nat)
    requires i < m && j < n
    ensures Rank2(i, j, n) < m * n
  {
    MulMonotone(i + 1, m, n);
  }

  /** Division and remainder by the row length recover the pair. */
  lemma Rank2Split(i: nat, j: nat, n: nat)
    requires j < n
    ensures Rank2(i, j, n) / n == i && Rank2(i, j, n) % n == j
  {
    var r := i * n + j;
    var q, s := r / n, r % n;
    assert r == q * n + s;
    if q > i {
      MulMonotone(i + 1, q, n);
    } else if q < i {
      MulMonotone(q + 1, i, n);
    }
  }

  lemma DivBound(r: nat, p: nat, n: nat)
    requires r < p * n
    ensures n > 0 && r / n < p
  {
    if r / n >= p {
      MulMonotone(p, r / n, n);
    }
  }

  /** The multi-index stored at offset r of a contiguous (a, b, c, d) tensor. */
  function Unrank4(r: nat, a: nat, b: nat, c: nat, d: nat): (ix: Index4)
    requires r < Size4(a, b, c, d)
    ensures InBounds4(ix, a, b, c, d)
  {
    DivBound(r, a * b * c, d);
    var q1 := r / d;
    DivBound(q1, a * b, c);
    var q2 := q1 / c;
    DivBound(q2, a, b);
    Index4(q2 / b, q2 % b, q1 % c, r % d)
  }

  /** Every in-bounds multi-index has an offset inside the tensor. */
  lemma Rank4Bound(ix: Index4, a: nat, b: nat, c: nat, d: nat)
    requires InBounds4(ix, a, b, c, d)
    ensures Rank4(ix, b, c, d) < Size4(a, b, c, d)
  {
    Rank2Bound(ix.i, ix.j, a, b);
    Rank2Bound(Rank2(ix.i, ix.j, b), ix.k, a * b, c);
    Rank2Bound(Rank2(Rank2(ix.i, ix.j, b), ix.k, c), ix.l, a * b * c, d);
  }

  /** Flattening then unflattening gives back the multi-index. */
  lemma UnrankRank4(ix: Index4, a: nat, b: nat, c: nat, d: nat)
    requires InBounds4(ix, a, b, c, d)
    ensures Rank4(ix, b, c, d) < Size4(a, b, c, d)
    ensures Unrank4(Rank4(ix, b, c, d), a, b, c, d) == ix
  {
    Rank4Bound(ix, a, b, c, d);
    var r1 := Rank2(ix.i, ix.j, b);
    var r2 := Rank2(r1, ix.k, c);
    Rank2Split(r2, ix.l, d);
    Rank2Split(r1, ix.k, c);
    Rank2Split(ix.i, ix.j, b);
  }

  /** Unflattening then flattening gives back the offset. */
  lemma RankUnrank4(r: nat, a: nat, b: nat, c: nat, d: nat)
    requires r < Size4(a, b, c, d)
    ensures Rank4(Unrank4(r, a, b, c, d), b, c, d) == r
  {
    DivBound(r, a * b * c, d);
    var q1 := r / d;
    DivBound(q1, a * b, c);
    var q2 := q1 / c;
    DivBound(q2, a, b);
    assert q2 == (q2 / b) * b + q2 % b;
    assert q1 == q2 * c + q1 % c;
    assert r == q1 * d + r % d;
  }

  /** Distinct in-bounds multi-indices have distinct offsets. */
  lemma Rank4Injective(ix: Index4, jx: Index4, a: nat, b: nat, c: nat, d: nat)
    requires InBounds4(ix, a, b, c, d) && InBounds4(jx, a, b, c, d)
    requires Rank4(ix, b, c, d) == Rank4(jx, b, c, d)
    ensures ix == jx
  {
    UnrankRank4(ix, a, b, c, d);
    UnrankRank4(jx, a, b, c, d);
  }
}
