/** The whole MICMAC analysis of one request: the duplicate-name guard, cell
    normalisation, the direct, indirect and potential metrics, and the
    classification, gathered into one results table. */
module Analysis {
  import opened Sums
  import opened Cells
  import opened Matrices
  import opened Propagation
  import opened Classification

  datatype Result<T, E> = Success(value: T) | Failure(error: E)

  datatype Error = DuplicateVariableNames

  /** The results table, column by column, in variable order. Both means are
      kept as a total over `|variables|` variables. */
  datatype Report = Report(
    variables: seq<string>,
    directInfluence: seq<int>,
    directDependence: seq<int>,
    indirectInfluence: seq<int>,
    indirectDependence: seq<int>,
    potentialTenths: seq<int>,
    influenceTotal: int,
    dependenceTotal: int,
    quadrants: seq<Quadrant>)

  /** No two positions of `names` hold the same name. */
  predicate Distinct(names: seq<string>)
  {
    forall i, j :: 0 <= i < j < |names| ==> names[i] != names[j]
  }

  function NameSet(names: seq<string>): set<string>
  {
    set x | x in names
  }

  lemma {:induction false} NameSetAtMost(names: seq<string>)
    ensures |NameSet(names)| <= |names|
  {
    if |names| > 0 {
      NameSetAtMost(names[1..]);
      assert NameSet(names) == {names[0]} + NameSet(names[1..]);
    }
  }

  /** The duplicate-name guard compares the size of the set of names with the
      length of the list; the two differ exactly when some name occurs twice. */
  lemma {:induction false} DistinctIffSetSize(names: seq<string>)
    ensures |NameSet(names)| == |names| <==> Distinct(names)
  {
    if |names| > 0 {
      var rest := names[1..];
      DistinctIffSetSize(rest);
      assert NameSet(names) == {names[0]} + NameSet(rest);
      if names[0] in rest {
        NameSetAtMost(rest);
        var j :| 0 <= j < |rest| && rest[j] == names[0];
        assert names[0] == names[j + 1];
      } else {
        assert NameSet(names) == NameSet(rest) + {names[0]};
        assert names[0] !in NameSet(rest);
        if Distinct(rest) {
          assert Distinct(names) by {
            forall i, j | 0 <= i < j < |names| ensures names[i] != names[j] {
              if i > 0 {
                assert names[i] == rest[i - 1] && names[j] == rest[j - 1];
              } else {
                assert names[j] in rest;
              }
            }
          }
        } else {
          var i, j :| 0 <= i < j < |rest| && rest[i] == rest[j];
          assert names[i + 1] == names[j + 1];
        }
      }
    }
  }

  /** The raw grid has one row of `n` cells per variable. */
  predicate IsRawGrid(raw: seq<seq<string>>, n: nat)
  {
    |raw| == n && forall i :: 0 <= i < n ==> |raw[i]| == n
  }

  /** The weights of the cells along row `i` of a raw grid. */
  function RowWeights(raw: seq<seq<string>>, i: nat): seq<int>
    requires IsRawGrid(raw, |raw|) && i < |raw|
  {
    seq(|raw|, j requires 0 <= j < |raw| => ToNumeric(raw[i][j]))
  }

  /** The weights of the cells down column `j` of a raw grid. */
  function ColumnWeights(raw: seq<seq<string>>, j: nat): seq<int>
    requires IsRawGrid(raw, |raw|) && j < |raw|
  {
    seq(|raw|, i requires 0 <= i < |raw| => ToNumeric(raw[i][j]))
  }

  /** Cell-by-cell normalisation of the edited grid. */
  function Normalize(raw: seq<seq<string>>): (m: Matrix)
    requires IsRawGrid(raw, |raw|)
    ensures IsSquare(m) && |m| == |raw| && InRange(m, 0, 3)
    ensures forall i, j :: 0 <= i < |raw| && 0 <= j < |raw| ==> m[i][j] == ToNumeric(raw[i][j])
  {
    seq(|raw|, i requires 0 <= i < |raw| =>
      seq(|raw|, j requires 0 <= j < |raw| => ToNumeric(raw[i][j])))
  }

  /** The results table computed from a normalised matrix. */
  function Metrics(names: seq<string>, m: Matrix): (r: Report)
    requires IsSquare(m) && |m| == |names|
    ensures r.variables == names && Shaped(r, |names|)
  {
    var inf := DirectInfluence(m);
    var dep := DirectDependence(m);
    Report(names, inf, dep, IndirectInfluence(m), IndirectDependence(m),
           PotentialInfluence(m), Sum(inf), Sum(dep), ClassifyAll(inf, dep))
  }

  /** Every column of the table has one entry per variable. */
  predicate Shaped(r: Report, n: nat)
  {
    && |r.variables| == |r.directInfluence| == |r.directDependence| == n
    && |r.indirectInfluence| == |r.indirectDependence| == n
    && |r.potentialTenths| == |r.quadrants| == n
  }

  /** Both means are means of the same total, and the indirect columns also
      have equal totals. */
  predicate TotalsAgree(r: Report)
  {
    && r.influenceTotal == Sum(r.directInfluence)
    && r.dependenceTotal == Sum(r.directDependence)
    && r.influenceTotal == r.dependenceTotal
    && Sum(r.indirectInfluence) == Sum(r.indirectDependence)
  }

  /** Every score is non-negative, every direct score is at most `3 * n`,
      and the potential is the direct influence weighted by 1 to 6/5. */
  predicate ScoresBounded(r: Report, n: nat)
    requires Shaped(r, n)
  {
    && (forall i :: 0 <= i < n ==> 0 <= r.directInfluence[i] <= 3 * n)
    && (forall i :: 0 <= i < n ==> 0 <= r.directDependence[i] <= 3 * n)
    && (forall i :: 0 <= i < n ==> 0 <= r.indirectInfluence[i] && 0 <= r.indirectDependence[i])
    && (forall i :: 0 <= i < n ==>
          10 * r.directInfluence[i] <= r.potentialTenths[i] <= 12 * r.directInfluence[i])
  }

  /** Each quadrant is the side of the shared means its variable lies on, and
      not every variable is above a mean. */
  predicate QuadrantsFollowMeans(r: Report, n: nat)
    requires Shaped(r, n)
  {
    && (forall i :: 0 <= i < n ==>
          && (r.quadrants[i].HighInfluence() <==> AboveMean(r.directInfluence[i], r.influenceTotal, n))
          && (r.quadrants[i].HighDependence() <==> AboveMean(r.directDependence[i], r.dependenceTotal, n)))
    && (n > 0 ==> exists i :: 0 <= i < n && !r.quadrants[i].HighInfluence())
    && (n > 0 ==> exists i :: 0 <= i < n && !r.quadrants[i].HighDependence())
  }

  /** What the results table promises about itself for `n` variables. */
  predicate Sound(r: Report, n: nat)
  {
    Shaped(r, n) && TotalsAgree(r) && ScoresBounded(r, n) && QuadrantsFollowMeans(r, n)
  }

  /** Direct scores of a matrix with impacts in 0..3 lie in `0..3n`, and the
      potential lies between 1 and 1.2 times the direct influence. */
  lemma DirectScoresBounded(m: Matrix)
    requires IsSquare(m) && InRange(m, 0, 3)
    ensures forall i :: 0 <= i < |m| ==> 0 <= DirectInfluence(m)[i] <= 3 * |m|
    ensures forall i :: 0 <= i < |m| ==> 0 <= DirectDependence(m)[i] <= 3 * |m|
    ensures forall i :: 0 <= i < |m| ==>
      10 * DirectInfluence(m)[i] <= PotentialInfluence(m)[i] <= 12 * DirectInfluence(m)[i]
  {
    forall i | 0 <= i < |m|
      ensures 0 <= DirectInfluence(m)[i] <= 3 * |m|
      ensures 0 <= DirectDependence(m)[i] <= 3 * |m|
    {
      SumNonNeg(m[i]);
      SumAtMost(m[i], 3);
      SumNonNeg(Column(m, i));
      SumAtMost(Column(m, i), 3);
    }
  }

  lemma MetricsSound(names: seq<string>, m: Matrix)
    requires IsSquare(m) && |m| == |names| && InRange(m, 0, 3)
    ensures Sound(Metrics(names, m), |names|)
    ensures Metrics(names, m).variables == names
  {
    var r := Metrics(names, m);
    var n := |names|;
    assert Shaped(r, n);
    DirectTotalsAgree(m);
    IndirectTotalsAgree(m);
    assert TotalsAgree(r);
    IndirectNonNeg(m);
    DirectScoresBounded(m);
    assert ScoresBounded(r, n);
    if n > 0 {
      SomeVariableNotAboveMeans(r.directInfluence, r.directDependence);
    }
    assert QuadrantsFollowMeans(r, n);
  }

  /** The 6/5 weight of a variable's potential influence is decided by its
      raw diagonal cell alone: a stripped "3", "P" or "p". */
  lemma RawDiagonalWeight(raw: seq<seq<string>>)
    requires IsRawGrid(raw, |raw|)
    ensures var m := Normalize(raw);
      forall i :: 0 <= i < |raw| ==>
        (if Strip(raw[i][i]) in {"3", "P", "p"}
         then 5 * PotentialInfluence(m)[i] == 6 * (10 * DirectInfluence(m)[i])
         else PotentialInfluence(m)[i] == 10 * DirectInfluence(m)[i])
  {
    var m := Normalize(raw);
    forall i | 0 <= i < |raw|
      ensures if Strip(raw[i][i]) in {"3", "P", "p"}
         then 5 * PotentialInfluence(m)[i] == 6 * (10 * DirectInfluence(m)[i])
         else PotentialInfluence(m)[i] == 10 * DirectInfluence(m)[i]
    {
      assert m[i][i] == ToNumeric(raw[i][i]);
      PotentialScaling(m, i);
    }
  }

  /** The row and column sums of the normalised grid are the sums of the
      cells' `to_numeric` weights along that row or column of the raw grid. */
  lemma NormalizedSums(raw: seq<seq<string>>)
    requires IsRawGrid(raw, |raw|)
    ensures forall i :: 0 <= i < |raw| ==> DirectInfluence(Normalize(raw))[i] == Sum(RowWeights(raw, i))
    ensures forall j :: 0 <= j < |raw| ==> DirectDependence(Normalize(raw))[j] == Sum(ColumnWeights(raw, j))
  {
    var m := Normalize(raw);
    var n := |raw|;
    forall i | 0 <= i < n ensures DirectInfluence(m)[i] == Sum(RowWeights(raw, i)) {
      assert m[i] == RowWeights(raw, i);
    }
    forall j | 0 <= j < n ensures DirectDependence(m)[j] == Sum(ColumnWeights(raw, j)) {
      assert Column(m, j) == ColumnWeights(raw, j);
    }
  }

  /** The report built from a raw grid follows that grid: row and column sums
      of the cell weights, indirect scores of the normalised grid, the
      diagonal's 6/5 weight, and exactness for at most 100 variables. */
  lemma MetricsOfGrid(names: seq<string>, raw: seq<seq<string>>)
    requires IsRawGrid(raw, |names|)
    ensures var rep := Metrics(names, Normalize(raw));
      && rep.variables == names && Sound(rep, |names|)
      && (forall i :: 0 <= i < |names| ==>
        rep.directInfluence[i] == Sum(RowWeights(raw, i)))
      && (forall j :: 0 <= j < |names| ==>
        rep.directDependence[j] == Sum(ColumnWeights(raw, j)))
      && rep.indirectInfluence == IndirectInfluence(Normalize(raw))
      && rep.indirectDependence == IndirectDependence(Normalize(raw))
      && (forall i :: 0 <= i < |names| ==>
        (if Strip(raw[i][i]) in {"3", "P", "p"}
         then 5 * rep.potentialTenths[i] == 6 * (10 * rep.directInfluence[i])
         else rep.potentialTenths[i] == 10 * rep.directInfluence[i]))
      && (|names| <= 100 ==> forall i :: 0 <= i < |names| ==>
        rep.indirectInfluence[i] < DoubleExactLimit && rep.indirectDependence[i] < DoubleExactLimit)
  {
    var m := Normalize(raw);
    MetricsSound(names, m);
    RawDiagonalWeight(raw);
    NormalizedSums(raw);
    if |names| <= 100 {
      IndirectFitsInDouble(m);
    }
  }

  /** The whole analysis: refuse duplicated names, then normalise the grid
      and compute the results table. */
  function Analyze(names: seq<string>, raw: seq<seq<string>>): (r: Result<Report, Error>)
    requires IsRawGrid(raw, |names|)
    ensures r.Failure? <==> !Distinct(names)
    ensures r.Success? ==> r.value.variables == names && Sound(r.value, |names|)
    // each direct score is the sum of the weights along its row or column
    ensures r.Success? ==> forall i :: 0 <= i < |names| ==>
      r.value.directInfluence[i] == Sum(RowWeights(raw, i))
    ensures r.Success? ==> forall j :: 0 <= j < |names| ==>
      r.value.directDependence[j] == Sum(ColumnWeights(raw, j))
    // the indirect scores are those of the normalised grid
    ensures r.Success? ==>
      && r.value.indirectInfluence == IndirectInfluence(Normalize(raw))
      && r.value.indirectDependence == IndirectDependence(Normalize(raw))
    // the 6/5 weight follows the raw diagonal cell: "3", "P" or "p" once stripped
    ensures r.Success? ==> forall i :: 0 <= i < |names| ==>
      (if Strip(raw[i][i]) in {"3", "P", "p"}
       then 5 * r.value.potentialTenths[i] == 6 * (10 * r.value.directInfluence[i])
       else r.value.potentialTenths[i] == 10 * r.value.directInfluence[i])
    // for at most 100 variables the float64 matrix powers of micmac.py are exact
    ensures r.Success? && |names| <= 100 ==> forall i :: 0 <= i < |names| ==>
      r.value.indirectInfluence[i] < DoubleExactLimit && r.value.indirectDependence[i] < DoubleExactLimit
  {
    DistinctIffSetSize(names);
    if |NameSet(names)| != |names| then
      Failure(DuplicateVariableNames)
    else
      MetricsOfGrid(names, raw);
      Success(Metrics(names, Normalize(raw)))
  }

  /** A three-variable example: influences 3, 3, 1 and dependences 1, 1, 5
      share the mean 7/3, so the first two variables are driving and the
      third is dependent. */
  lemma WorkedExample()
    ensures var m := [[0, 1, 2], [0, 0, 3], [1, 0, 0]];
      && DirectInfluence(m) == [3, 3, 1]
      && DirectDependence(m) == [1, 1, 5]
      && ClassifyAll(DirectInfluence(m), DirectDependence(m)) == [Driving, Driving, Dependent]
  {
    var m := [[0, 1, 2], [0, 0, 3], [1, 0, 0]];
    assert Column(m, 0) == [0, 0, 1];
    assert Column(m, 1) == [1, 0, 0];
    assert Column(m, 2) == [2, 3, 0];
    assert Sum([0, 0, 1]) == 1 && Sum([1, 0, 0]) == 1 && Sum([2, 3, 0]) == 5;
    assert ColSums(m, 3) == [Sum(Column(m, 0)), Sum(Column(m, 1)), Sum(Column(m, 2))];
    assert DirectInfluence(m) == [3, 3, 1];
    assert DirectDependence(m) == [1, 1, 5];
  }
}
