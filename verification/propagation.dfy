/** Cross-impact propagation: direct influence and dependence (row and column
    sums of the direct matrix), indirect influence and dependence (row and
    column sums of its powers 2 to 5), and the potential influence weighting. */
module Propagation {
  import opened Sums
  import opened Matrices

  /** The highest power of the direct matrix that is accumulated. */
  const Depth: nat := 5

  /** Direct influence of each variable: the sum of its row. */
  function DirectInfluence(m: Matrix): (r: seq<int>)
    ensures |r| == |m|
  {
    RowSums(m)
  }

  /** Direct dependence of each variable: the sum of its column. */
  function DirectDependence(m: Matrix): (r: seq<int>)
    requires IsSquare(m)
    ensures |r| == |m|
  {
    ColSums(m, |m|)
  }

  /** Both directions of direct impact add up to the whole matrix. */
  lemma DirectTotalsAgree(m: Matrix)
    requires IsSquare(m)
    ensures Sum(DirectInfluence(m)) == Total(m)
    ensures Sum(DirectDependence(m)) == Total(m)
  {
    ColSumsTotal(m, |m|);
  }

  /** Row sums of `m^2`, ..., `m^k`, accumulated per variable. */
  function InfluenceThrough(m: Matrix, k: nat): (r: seq<int>)
    requires IsSquare(m)
    ensures |r| == |m|
  {
    if k < 2 then Zeros(|m|)
    else Add(InfluenceThrough(m, k - 1), RowSums(Power(m, k)))
  }

  /** Column sums of `m^2`, ..., `m^k`, accumulated per variable. */
  function DependenceThrough(m: Matrix, k: nat): (r: seq<int>)
    requires IsSquare(m)
    ensures |r| == |m|
  {
    if k < 2 then Zeros(|m|)
    else Add(DependenceThrough(m, k - 1), ColSums(Power(m, k), |m|))
  }

  function IndirectInfluence(m: Matrix): (r: seq<int>)
    requires IsSquare(m)
    ensures |r| == |m|
  {
    InfluenceThrough(m, Depth)
  }

  function IndirectDependence(m: Matrix): (r: seq<int>)
    requires IsSquare(m)
    ensures |r| == |m|
  {
    DependenceThrough(m, Depth)
  }

  /** The indirect scores are the row and column sums of the four matrices
      `m2 = m @ m`, `m3 = m2 @ m`, `m4 = m3 @ m`, `m5 = m4 @ m`, added up. */
  lemma IndirectUnrolled(m: Matrix, i: nat)
    requires IsSquare(m) && i < |m|
    ensures
      var m2 := MatMul(m, m);
      var m3 := MatMul(m2, m);
      var m4 := MatMul(m3, m);
      var m5 := MatMul(m4, m);
      && IndirectInfluence(m)[i]
         == RowSums(m2)[i] + RowSums(m3)[i] + RowSums(m4)[i] + RowSums(m5)[i]
      && IndirectDependence(m)[i]
         == ColSums(m2, |m|)[i] + ColSums(m3, |m|)[i] + ColSums(m4, |m|)[i] + ColSums(m5, |m|)[i]
  {
    assert Power(m, 2) == MatMul(m, m);
    assert Power(m, 3) == MatMul(Power(m, 2), m);
    assert Power(m, 4) == MatMul(Power(m, 3), m);
    assert Power(m, 5) == MatMul(Power(m, 4), m);
    assert InfluenceThrough(m, 1)[i] == 0 && DependenceThrough(m, 1)[i] == 0;
    assert InfluenceThrough(m, 2)[i] == RowSums(Power(m, 2))[i];
    assert DependenceThrough(m, 2)[i] == ColSums(Power(m, 2), |m|)[i];
    assert InfluenceThrough(m, 3)[i] == InfluenceThrough(m, 2)[i] + RowSums(Power(m, 3))[i];
    assert DependenceThrough(m, 3)[i] == DependenceThrough(m, 2)[i] + ColSums(Power(m, 3), |m|)[i];
    assert InfluenceThrough(m, 4)[i] == InfluenceThrough(m, 3)[i] + RowSums(Power(m, 4))[i];
    assert DependenceThrough(m, 4)[i] == DependenceThrough(m, 3)[i] + ColSums(Power(m, 4), |m|)[i];
    assert InfluenceThrough(m, 5)[i] == InfluenceThrough(m, 4)[i] + RowSums(Power(m, 5))[i];
    assert DependenceThrough(m, 5)[i] == DependenceThrough(m, 4)[i] + ColSums(Power(m, 5), |m|)[i];
  }

  /** Accumulated indirect influence and dependence have the same total: each
      power contributes its total once as row sums and once as column sums. */
  lemma {:induction false} ThroughTotalsAgree(m: Matrix, k: nat)
    requires IsSquare(m)
    ensures Sum(InfluenceThrough(m, k)) == Sum(DependenceThrough(m, k))
  {
    if k < 2 {
      SumZeros(|m|);
    } else {
      ThroughTotalsAgree(m, k - 1);
      SumAdd(InfluenceThrough(m, k - 1), RowSums(Power(m, k)));
      SumAdd(DependenceThrough(m, k - 1), ColSums(Power(m, k), |m|));
      ColSumsTotal(Power(m, k), |m|);
    }
  }

  lemma IndirectTotalsAgree(m: Matrix)
    requires IsSquare(m)
    ensures Sum(IndirectInfluence(m)) == Sum(IndirectDependence(m))
  {
    ThroughTotalsAgree(m, Depth);
  }

  /** A non-negative direct matrix yields non-negative indirect scores. */
  lemma {:induction false} ThroughNonNeg(m: Matrix, k: nat)
    requires IsSquare(m) && AllNonNeg(m)
    ensures NonNeg(InfluenceThrough(m, k))
    ensures NonNeg(DependenceThrough(m, k))
  {
    if k >= 2 {
      ThroughNonNeg(m, k - 1);
      PowerNonNeg(m, k);
      RowSumsNonNeg(Power(m, k));
      ColSumsNonNeg(Power(m, k), |m|);
    }
  }

  lemma IndirectNonNeg(m: Matrix)
    requires IsSquare(m) && AllNonNeg(m)
    ensures NonNeg(IndirectInfluence(m))
    ensures NonNeg(IndirectDependence(m))
  {
    ThroughNonNeg(m, Depth);
  }

  /** Raising entries of a non-negative direct matrix never lowers any
      accumulated indirect score. */
  lemma {:induction false} ThroughMono(a: Matrix, b: Matrix, k: nat)
    requires IsSquare(a) && IsSquare(b) && AllNonNeg(a) && Dominated(a, b)
    ensures Below(InfluenceThrough(a, k), InfluenceThrough(b, k))
    ensures Below(DependenceThrough(a, k), DependenceThrough(b, k))
  {
    if k >= 2 {
      ThroughMono(a, b, k - 1);
      PowerMono(a, b, k);
      RowSumsMono(Power(a, k), Power(b, k));
      ColSumsMono(Power(a, k), Power(b, k), |a|);
    }
  }

  lemma IndirectMono(a: Matrix, b: Matrix)
    requires IsSquare(a) && IsSquare(b) && AllNonNeg(a) && Dominated(a, b)
    ensures Below(IndirectInfluence(a), IndirectInfluence(b))
    ensures Below(IndirectDependence(a), IndirectDependence(b))
  {
    ThroughMono(a, b, Depth);
  }

  /** The largest integer up to which every integer is exactly representable
      as an IEEE 754 double: 2^53. */
  const DoubleExactLimit: int := 0x20_0000_0000_0000

  /** Sum over `j = 2..k` of `300^j`, the bound on accumulated scores for at
      most 100 variables. */
  function SeriesBound(k: nat): int
  {
    if k < 2 then 0 else SeriesBound(k - 1) + Pow(300, k)
  }

  lemma {:induction false} ThroughBound(m: Matrix, k: nat)
    requires IsSquare(m) && InRange(m, 0, 3) && |m| <= 100
    ensures forall i :: 0 <= i < |m| ==> InfluenceThrough(m, k)[i] <= SeriesBound(k)
    ensures forall i :: 0 <= i < |m| ==> DependenceThrough(m, k)[i] <= SeriesBound(k)
  {
    if k >= 2 {
      ThroughBound(m, k - 1);
      PowerSumsBound(m, k);
      PowBaseMono(|m|, 100, k);
      PowNonNeg(3, k);
      PowNonNeg(|m|, k);
      MulMono(Pow(3, k), Pow(|m|, k), Pow(3, k), Pow(100, k));
      PowProduct(3, 100, k);
    }
  }

  /** For at most 100 variables with impacts in 0..3, every indirect score
      is an integer below 2^53, so the float64 matrix powers of micmac.py
      and sums compute these integers without rounding. */
  lemma IndirectFitsInDouble(m: Matrix)
    requires IsSquare(m) && InRange(m, 0, 3) && |m| <= 100
    ensures forall i :: 0 <= i < |m| ==> 0 <= IndirectInfluence(m)[i] < DoubleExactLimit
    ensures forall i :: 0 <= i < |m| ==> 0 <= IndirectDependence(m)[i] < DoubleExactLimit
  {
    ThroughBound(m, Depth);
    IndirectNonNeg(m);
    assert SeriesBound(Depth) == 2438127090000;
  }

  // ---------------------------------------------------------------------
  // Potential influence, in tenths

  /** The potential weight matrix of micmac.py in tenths: 12 (that is 1.2) where the
      normalised impact is 3, 10 (that is 1) elsewhere. */
  function PotentialWeights(m: Matrix): (w: Matrix)
    requires IsSquare(m)
    ensures |w| == |m| && IsSquare(w)
  {
    seq(|m|, i requires 0 <= i < |m| =>
      seq(|m|, j requires 0 <= j < |m| => if m[i][j] == 3 then 12 else 10))
  }

  /** Potential influence of each variable, in tenths: its direct influence
      times the diagonal entry of the weight matrix. */
  function PotentialInfluence(m: Matrix): (r: seq<int>)
    requires IsSquare(m)
    ensures |r| == |m|
  {
    var w := PotentialWeights(m);
    seq(|m|, i requires 0 <= i < |m| => DirectInfluence(m)[i] * w[i][i])
  }

  /** Potential influence is direct influence unchanged, or scaled by 6/5
      exactly when the variable's own diagonal impact is 3. */
  lemma PotentialScaling(m: Matrix, i: nat)
    requires IsSquare(m) && i < |m|
    ensures m[i][i] == 3 ==> 5 * PotentialInfluence(m)[i] == 6 * (10 * DirectInfluence(m)[i])
    ensures m[i][i] != 3 ==> PotentialInfluence(m)[i] == 10 * DirectInfluence(m)[i]
  {
  }

  /** Potential influence of a variable reads only its own row: off-diagonal
      weights, and every other row, are irrelevant. */
  lemma PotentialReadsOwnRowOnly(m: Matrix, m': Matrix, i: nat)
    requires IsSquare(m) && IsSquare(m') && |m| == |m'| && i < |m|
    requires m[i] == m'[i]
    ensures PotentialInfluence(m)[i] == PotentialInfluence(m')[i]
  {
    assert PotentialWeights(m)[i][i] == PotentialWeights(m')[i][i];
    assert DirectInfluence(m)[i] == DirectInfluence(m')[i];
  }

  /** Two matrices that agree on variable `i`'s own diagonal impact give it
      the same weight, whatever their other entries: its potential differs
      only through its direct influence. */
  lemma PotentialIgnoresOffDiagonalWeights(m: Matrix, m': Matrix, i: nat)
    requires IsSquare(m) && IsSquare(m') && |m| == |m'| && i < |m|
    requires m[i][i] == m'[i][i]
    ensures PotentialWeights(m)[i][i] == PotentialWeights(m')[i][i]
    ensures PotentialInfluence(m)[i] * DirectInfluence(m')[i]
         == PotentialInfluence(m')[i] * DirectInfluence(m)[i]
  {
  }
}
