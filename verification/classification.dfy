/** Quadrant classification on the direct influence/dependence plane. Each
    variable is compared, strictly, with the mean direct influence and the
    mean direct dependence over all variables. A comparison `x > total / n`
    is written `x * n > total`, which is the same for `n > 0`. */
module Classification {
  import opened Sums

  datatype Quadrant =
    | KeyChallenge  // above both means ("Clave / Reto")
    | Driving       // above the influence mean only ("Motriz")
    | Dependent     // above the dependence mean only ("Dependiente")
    | Autonomous    // above neither ("Autónoma")
  {
    /** The quadrant lies above the mean direct influence. */
    predicate HighInfluence()
    {
      this == KeyChallenge || this == Driving
    }

    /** The quadrant lies above the mean direct dependence. */
    predicate HighDependence()
    {
      this == KeyChallenge || this == Dependent
    }
  }

  /** `x` lies strictly above the mean `total / n`. */
  predicate AboveMean(x: int, total: int, n: nat)
  {
    x * n > total
  }

  /** The division-free comparison is the comparison with the real mean. */
  lemma AboveMeanIsAboveDivision(x: int, total: int, n: nat)
    requires n > 0
    ensures AboveMean(x, total, n) <==> (x as real) > (total as real) / (n as real)
  {
    var q := (total as real) / (n as real);
    assert q * (n as real) == total as real;
    assert (x * n) as real == (x as real) * (n as real);
    if x as real > q {
      assert (x as real) * (n as real) > q * (n as real);
    }
    if (x * n) > total {
      assert (x as real) * (n as real) > q * (n as real);
    }
  }

  /** `clasificar`: the four-way split against one pair of means. */
  function Classify(inf: int, dep: int, infTotal: int, depTotal: int, n: nat): (q: Quadrant)
    ensures q.HighInfluence() <==> AboveMean(inf, infTotal, n)
    ensures q.HighDependence() <==> AboveMean(dep, depTotal, n)
  {
    if AboveMean(inf, infTotal, n) && AboveMean(dep, depTotal, n) then KeyChallenge
    else if AboveMean(inf, infTotal, n) then Driving
    else if AboveMean(dep, depTotal, n) then Dependent
    else Autonomous
  }

  /** A quadrant is determined by its two sides of the means, so the four
      labels partition the plane. */
  lemma QuadrantDeterminedBySides(p: Quadrant, q: Quadrant)
    requires p.HighInfluence() == q.HighInfluence()
    requires p.HighDependence() == q.HighDependence()
    ensures p == q
  {
  }

  /** A variable sitting exactly on both means is autonomous. */
  lemma AtMeansIsAutonomous(inf: int, dep: int, infTotal: int, depTotal: int, n: nat)
    requires inf * n == infTotal && dep * n == depTotal
    ensures Classify(inf, dep, infTotal, depTotal, n) == Autonomous
  {
  }

  /** Classification of every variable, with both means computed once over
      all variables. */
  function ClassifyAll(inf: seq<int>, dep: seq<int>): (qs: seq<Quadrant>)
    requires |inf| == |dep|
    ensures |qs| == |inf|
    ensures forall i :: 0 <= i < |qs| ==>
      && (qs[i].HighInfluence() <==> inf[i] * |inf| > Sum(inf))
      && (qs[i].HighDependence() <==> dep[i] * |dep| > Sum(dep))
  {
    var infTotal := Sum(inf);
    var depTotal := Sum(dep);
    seq(|inf|, i requires 0 <= i < |inf| => Classify(inf[i], dep[i], infTotal, depTotal, |inf|))
  }

  /** The thresholds are shared: a variable at least as influential as one
      above the influence mean is above it too, and likewise for dependence. */
  lemma ClassificationMonotone(inf: seq<int>, dep: seq<int>, i: nat, j: nat)
    requires |inf| == |dep| && i < |inf| && j < |inf|
    ensures var qs := ClassifyAll(inf, dep);
      && (qs[i].HighInfluence() && inf[i] <= inf[j] ==> qs[j].HighInfluence())
      && (qs[i].HighDependence() && dep[i] <= dep[j] ==> qs[j].HighDependence())
  {
    var n := |inf|;
    assert inf[i] <= inf[j] ==> inf[i] * n <= inf[j] * n;
    assert dep[i] <= dep[j] ==> dep[i] * n <= dep[j] * n;
  }

  /** Not every variable can be above the influence mean, nor every variable
      above the dependence mean: some variable is Dependent or Autonomous,
      and some variable is Driving or Autonomous. */
  lemma SomeVariableNotAboveMeans(inf: seq<int>, dep: seq<int>)
    requires |inf| == |dep| > 0
    ensures var qs := ClassifyAll(inf, dep);
      && (exists i :: 0 <= i < |qs| && qs[i] in {Dependent, Autonomous})
      && (exists j :: 0 <= j < |qs| && qs[j] in {Driving, Autonomous})
  {
    var qs := ClassifyAll(inf, dep);
    NotAllAboveMean(inf);
    NotAllAboveMean(dep);
    var i :| 0 <= i < |inf| && inf[i] * |inf| <= Sum(inf);
    var j :| 0 <= j < |dep| && dep[j] * |dep| <= Sum(dep);
    assert qs[i] in {Dependent, Autonomous};
    assert qs[j] in {Driving, Autonomous};
  }
}
