/** Integer matrices as sequences of rows: row and column sums, the matrix
    product and its powers, with the facts the propagation needs (sums agree,
    non-negativity, monotonicity, size bounds). */
module Matrices {
  import opened Sums

  type Matrix = seq<seq<int>>

  /** Every row of `m` has exactly `cols` entries. */
  predicate IsGrid(m: Matrix, cols: nat)
  {
    forall i :: 0 <= i < |m| ==> |m[i]| == cols
  }

  predicate IsSquare(m: Matrix)
  {
    IsGrid(m, |m|)
  }

  /** Every entry of `m` lies in `lo..hi`. */
  predicate InRange(m: Matrix, lo: int, hi: int)
  {
    forall i, j :: 0 <= i < |m| && 0 <= j < |m[i]| ==> lo <= m[i][j] <= hi
  }

  predicate AllNonNeg(m: Matrix)
  {
    forall i, j :: 0 <= i < |m| && 0 <= j < |m[i]| ==> 0 <= m[i][j]
  }

  /** `a` and `b` have the same shape and `a` is below `b` entry by entry. */
  predicate Dominated(a: Matrix, b: Matrix)
  {
    && |a| == |b|
    && (forall i :: 0 <= i < |a| ==> |a[i]| == |b[i]|)
    && (forall i, j :: 0 <= i < |a| && 0 <= j < |a[i]| ==> a[i][j] <= b[i][j])
  }

  function Column(m: Matrix, j: nat): (c: seq<int>)
    requires forall i :: 0 <= i < |m| ==> j < |m[i]|
    ensures |c| == |m|
    ensures forall i :: 0 <= i < |m| ==> c[i] == m[i][j]
  {
    seq(|m|, i requires 0 <= i < |m| => m[i][j])
  }

  /** numpy's `m.sum(axis=1)`. */
  function RowSums(m: Matrix): (r: seq<int>)
    ensures |r| == |m|
  {
    seq(|m|, i requires 0 <= i < |m| => Sum(m[i]))
  }

  /** numpy's `m.sum(axis=0)` for a grid of `cols` columns. */
  function ColSums(m: Matrix, cols: nat): (r: seq<int>)
    requires IsGrid(m, cols)
    ensures |r| == cols
  {
    seq(cols, j requires 0 <= j < cols => Sum(Column(m, j)))
  }

  /** Sum of all entries, row by row. */
  function Total(m: Matrix): int
  {
    Sum(RowSums(m))
  }

  /** Adding the column sums gives the same total as adding the row sums. */
  lemma {:induction false} ColSumsTotal(m: Matrix, cols: nat)
    requires IsGrid(m, cols)
    ensures Sum(ColSums(m, cols)) == Total(m)
  {
    if |m| == 0 {
      assert ColSums(m, cols) == Zeros(cols);
      SumZeros(cols);
    } else {
      var rest := m[1..];
      assert ColSums(m, cols) == Add(m[0], ColSums(rest, cols)) by {
        forall j | 0 <= j < cols
          ensures ColSums(m, cols)[j] == m[0][j] + ColSums(rest, cols)[j]
        {
          assert Column(m, j)[1..] == Column(rest, j);
        }
      }
      SumAdd(m[0], ColSums(rest, cols));
      ColSumsTotal(rest, cols);
      assert RowSums(m)[1..] == RowSums(rest);
    }
  }

  /** Inner product of two vectors of the same length. */
  function Dot(u: seq<int>, v: seq<int>): int
    requires |u| == |v|
  {
    if |u| == 0 then 0 else u[0] * v[0] + Dot(u[1..], v[1..])
  }

  /** The matrix product `a @ b` of two square matrices of the same size. */
  function MatMul(a: Matrix, b: Matrix): (r: Matrix)
    requires IsSquare(a) && IsSquare(b) && |a| == |b|
    ensures |r| == |a| && IsSquare(r)
  {
    seq(|a|, i requires 0 <= i < |a| =>
      seq(|a|, j requires 0 <= j < |a| => Dot(a[i], Column(b, j))))
  }

  /** `m` raised to the power `k`, built as micmac.py builds it: each power
      is the previous one multiplied on the right by `m`. */
  function Power(m: Matrix, k: nat): (r: Matrix)
    requires IsSquare(m) && k >= 1
    ensures |r| == |m| && IsSquare(r)
    decreases k
  {
    if k == 1 then m else MatMul(Power(m, k - 1), m)
  }

  // ---------------------------------------------------------------------
  // Non-negativity

  lemma {:induction false} DotNonNeg(u: seq<int>, v: seq<int>)
    requires |u| == |v| && NonNeg(u) && NonNeg(v)
    ensures Dot(u, v) >= 0
  {
    if |u| > 0 {
      DotNonNeg(u[1..], v[1..]);
    }
  }

  lemma MatMulNonNeg(a: Matrix, b: Matrix)
    requires IsSquare(a) && IsSquare(b) && |a| == |b|
    requires AllNonNeg(a) && AllNonNeg(b)
    ensures AllNonNeg(MatMul(a, b))
  {
    forall i, j | 0 <= i < |a| && 0 <= j < |a|
      ensures MatMul(a, b)[i][j] >= 0
    {
      DotNonNeg(a[i], Column(b, j));
    }
  }

  /** Every power of a non-negative matrix is non-negative. */
  lemma {:induction false} PowerNonNeg(m: Matrix, k: nat)
    requires IsSquare(m) && k >= 1 && AllNonNeg(m)
    ensures AllNonNeg(Power(m, k))
    decreases k
  {
    if k > 1 {
      PowerNonNeg(m, k - 1);
      MatMulNonNeg(Power(m, k - 1), m);
    }
  }

  lemma RowSumsNonNeg(m: Matrix)
    requires AllNonNeg(m)
    ensures NonNeg(RowSums(m))
  {
    forall i | 0 <= i < |m| ensures RowSums(m)[i] >= 0 {
      SumNonNeg(m[i]);
    }
  }

  lemma ColSumsNonNeg(m: Matrix, cols: nat)
    requires IsGrid(m, cols) && AllNonNeg(m)
    ensures NonNeg(ColSums(m, cols))
  {
    forall j | 0 <= j < cols ensures ColSums(m, cols)[j] >= 0 {
      SumNonNeg(Column(m, j));
    }
  }

  // ---------------------------------------------------------------------
  // Monotonicity

  lemma MulMono(a: int, b: int, c: int, d: int)
    requires 0 <= a <= c && 0 <= b <= d
    ensures a * b <= c * d
  {
    assert a * b <= c * b;
    assert c * b <= c * d;
  }

  /** The inner product of non-negative vectors grows with its arguments. */
  lemma {:induction false} DotMono(u: seq<int>, u': seq<int>, v: seq<int>, v': seq<int>)
    requires |u| == |v| && NonNeg(u) && NonNeg(v)
    requires Below(u, u') && Below(v, v')
    ensures Dot(u, v) <= Dot(u', v')
  {
    if |u| > 0 {
      MulMono(u[0], v[0], u'[0], v'[0]);
      DotMono(u[1..], u'[1..], v[1..], v'[1..]);
    }
  }

  lemma MatMulMono(a: Matrix, a': Matrix, b: Matrix, b': Matrix)
    requires IsSquare(a) && IsSquare(b) && |a| == |b|
    requires AllNonNeg(a) && AllNonNeg(b)
    requires Dominated(a, a') && Dominated(b, b')
    ensures Dominated(MatMul(a, b), MatMul(a', b'))
  {
    forall i, j | 0 <= i < |a| && 0 <= j < |a|
      ensures MatMul(a, b)[i][j] <= MatMul(a', b')[i][j]
    {
      DotMono(a[i], a'[i], Column(b, j), Column(b', j));
    }
  }

  /** Raising a smaller non-negative matrix to a power gives a smaller result. */
  lemma {:induction false} PowerMono(m: Matrix, m': Matrix, k: nat)
    requires IsSquare(m) && AllNonNeg(m) && Dominated(m, m') && k >= 1
    ensures IsSquare(m')
    ensures Dominated(Power(m, k), Power(m', k))
    decreases k
  {
    if k > 1 {
      PowerMono(m, m', k - 1);
      PowerNonNeg(m, k - 1);
      MatMulMono(Power(m, k - 1), Power(m', k - 1), m, m');
    }
  }

  lemma RowSumsMono(a: Matrix, b: Matrix)
    requires Dominated(a, b)
    ensures Below(RowSums(a), RowSums(b))
  {
    forall i | 0 <= i < |a| ensures RowSums(a)[i] <= RowSums(b)[i] {
      SumMono(a[i], b[i]);
    }
  }

  lemma ColSumsMono(a: Matrix, b: Matrix, cols: nat)
    requires IsGrid(a, cols) && Dominated(a, b)
    ensures IsGrid(b, cols)
    ensures Below(ColSums(a, cols), ColSums(b, cols))
  {
    forall j | 0 <= j < cols ensures ColSums(a, cols)[j] <= ColSums(b, cols)[j] {
      SumMono(Column(a, j), Column(b, j));
    }
  }

  // ---------------------------------------------------------------------
  // Size bounds

  function Pow(b: int, e: nat): int
  {
    if e == 0 then 1 else b * Pow(b, e - 1)
  }

  lemma {:induction false} PowNonNeg(b: int, e: nat)
    requires b >= 0
    ensures Pow(b, e) >= 0
  {
    if e > 0 {
      PowNonNeg(b, e - 1);
    }
  }

  lemma {:induction false} PowBaseMono(a: int, b: int, e: nat)
    requires 0 <= a <= b
    ensures Pow(a, e) <= Pow(b, e)
  {
    if e > 0 {
      PowBaseMono(a, b, e - 1);
      PowNonNeg(a, e - 1);
      MulMono(a, Pow(a, e - 1), b, Pow(b, e - 1));
    }
  }

  /** Powers distribute over products. */
  lemma {:induction false} PowProduct(a: int, b: int, e: nat)
    ensures Pow(a, e) * Pow(b, e) == Pow(a * b, e)
  {
    if e > 0 {
      PowProduct(a, b, e - 1);
      Rearrange(a, Pow(a, e - 1), b, Pow(b, e - 1));
    }
  }

  lemma Rearrange(a: int, x: int, b: int, y: int)
    ensures (a * x) * (b * y) == (a * b) * (x * y)
  {
  }

  /** An inner product of `|u|` terms, each factor bounded, is bounded. */
  lemma {:induction false} DotAtMost(u: seq<int>, v: seq<int>, x: int, y: int)
    requires |u| == |v| && NonNeg(u) && NonNeg(v)
    requires forall i :: 0 <= i < |u| ==> u[i] <= x && v[i] <= y
    ensures Dot(u, v) <= |u| * (x * y)
  {
    if |u| > 0 {
      MulMono(u[0], v[0], x, y);
      DotAtMost(u[1..], v[1..], x, y);
      assert |u| * (x * y) == x * y + (|u| - 1) * (x * y);
    }
  }

  /** A product of `n`-by-`n` matrices with entries in `0..x` and `0..y`
      has entries in `0..n * (x * y)`. */
  lemma MatMulBound(a: Matrix, b: Matrix, x: int, y: int)
    requires IsSquare(a) && IsSquare(b) && |a| == |b|
    requires InRange(a, 0, x) && InRange(b, 0, y)
    ensures InRange(MatMul(a, b), 0, |a| * (x * y))
  {
    MatMulNonNeg(a, b);
    forall i, j | 0 <= i < |a| && 0 <= j < |a|
      ensures MatMul(a, b)[i][j] <= |a| * (x * y)
    {
      DotAtMost(a[i], Column(b, j), x, y);
    }
  }

  lemma PowStep(n: int, k: nat)
    requires k >= 2
    ensures n * (Pow(3, k - 1) * Pow(n, k - 2) * 3) == Pow(3, k) * Pow(n, k - 1)
  {
    assert Pow(3, k) == 3 * Pow(3, k - 1);
    assert Pow(n, k - 1) == n * Pow(n, k - 2);
  }

  /** Every entry of the `k`-th power of an `n`-by-`n` matrix with entries in
      0..3 is at most `3^k * n^(k-1)`. */
  lemma {:induction false} PowerEntryBound(m: Matrix, k: nat)
    requires IsSquare(m) && InRange(m, 0, 3) && k >= 1
    ensures InRange(Power(m, k), 0, Pow(3, k) * Pow(|m|, k - 1))
    decreases k
  {
    if k > 1 {
      PowerEntryBound(m, k - 1);
      MatMulBound(Power(m, k - 1), m, Pow(3, k - 1) * Pow(|m|, k - 2), 3);
      PowStep(|m|, k);
    }
  }

  /** In an `n`-by-`n` grid with entries in `0..b`, every row sum and every
      column sum is at most `n * b`. */
  lemma GridSumsBound(p: Matrix, b: int)
    requires IsSquare(p) && InRange(p, 0, b)
    ensures forall i :: 0 <= i < |p| ==> RowSums(p)[i] <= |p| * b
    ensures forall j :: 0 <= j < |p| ==> ColSums(p, |p|)[j] <= |p| * b
  {
    forall i | 0 <= i < |p| ensures RowSums(p)[i] <= |p| * b {
      SumAtMost(p[i], b);
    }
    forall j | 0 <= j < |p| ensures ColSums(p, |p|)[j] <= |p| * b {
      SumAtMost(Column(p, j), b);
    }
  }

  lemma PowSplit(n: int, k: nat)
    requires k >= 1
    ensures n * (Pow(3, k) * Pow(n, k - 1)) == Pow(3, k) * Pow(n, k)
  {
    assert Pow(n, k) == n * Pow(n, k - 1);
  }

  /** Every row sum and every column sum of the `k`-th power of an `n`-by-`n`
      matrix with entries in 0..3 is at most `3^k * n^k`. */
  lemma PowerSumsBound(m: Matrix, k: nat)
    requires IsSquare(m) && InRange(m, 0, 3) && k >= 1
    ensures forall i :: 0 <= i < |m| ==> RowSums(Power(m, k))[i] <= Pow(3, k) * Pow(|m|, k)
    ensures forall j :: 0 <= j < |m| ==> ColSums(Power(m, k), |m|)[j] <= Pow(3, k) * Pow(|m|, k)
  {
    PowerEntryBound(m, k);
    GridSumsBound(Power(m, k), Pow(3, k) * Pow(|m|, k - 1));
    PowSplit(|m|, k);
  }
}
