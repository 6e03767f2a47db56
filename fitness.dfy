/** The evaluation half of one generation step: the squared error of a
    candidate line at a data point, the worst and best error over the whole
    population and data set, the error each chromosome keeps (the one at the
    LAST data point only), the offset fitness and its normalisation into
    selection weights. */
module Fitness {
  import opened Geometry
  import opened LineEncoding

  /** Number of chromosomes in a generation (CHROMO_COUNT). */
  const PopulationSize: nat := 100

  /** The largest finite double, the initial value of the best cost. */
  const DblMax: real := 179769313486231570814527423731704356798070567525844996598917476803157260780028538760589558632766878171540458953514382464234321326889464182768467546703537516986049910576551282076245490090389328944075868508455133942304583236903222948165808559332123348274797826204144723168738177180919299881250404026184124858368.0

  function Sq(v: real): real { v * v }

  /** The running maximum as the source updates it: replace a by b only when b is larger. */
  function Max(a: real, b: real): real { if b > a then b else a }

  /** The running minimum: replace a by b only when b is smaller. */
  function Min(a: real, b: real): real { if b < a then b else a }

  predicate AllNonVertical(pop: seq<Chromosome>)
  {
    forall i :: 0 <= i < |pop| ==> NonVertical(pop[i])
  }

  /** Squared vertical distance between the line c and the data point p. */
  function Cost(c: Chromosome, p: Point): (r: real)
    requires NonVertical(c)
    ensures r >= 0.0
    ensures ChromoFx(c, p.x as real) == p.y as real ==> r == 0.0
  {
    Sq(ChromoFx(c, p.x as real) - p.y as real)
  }

  function Last(pts: seq<Point>): Point
    requires |pts| > 0
  {
    pts[|pts| - 1]
  }

  /** cost_worst after the points loop of one chromosome, starting from w0 = 0. */
  function RowWorst(c: Chromosome, pts: seq<Point>): (r: real)
    requires NonVertical(c)
    ensures r >= 0.0
  {
    if |pts| == 0 then 0.0 else Max(RowWorst(c, pts[..|pts| - 1]), Cost(c, Last(pts)))
  }

  /** cost_best after the points loop of one chromosome, starting from DBL_MAX. */
  function RowBest(c: Chromosome, pts: seq<Point>): (r: real)
    requires NonVertical(c)
    ensures r <= DblMax
  {
    if |pts| == 0 then DblMax else Min(RowBest(c, pts[..|pts| - 1]), Cost(c, Last(pts)))
  }

  /** cost_worst after the cost pass over the chromosomes of pop. */
  function WorstOf(pop: seq<Chromosome>, pts: seq<Point>): (r: real)
    requires AllNonVertical(pop)
    ensures r >= 0.0
  {
    if |pop| == 0 then 0.0 else Max(WorstOf(pop[..|pop| - 1], pts), RowWorst(pop[|pop| - 1], pts))
  }

  /** cost_best after the cost pass over the chromosomes of pop. */
  function BestOf(pop: seq<Chromosome>, pts: seq<Point>): (r: real)
    requires AllNonVertical(pop)
    ensures r <= DblMax
  {
    if |pop| == 0 then DblMax else Min(BestOf(pop[..|pop| - 1], pts), RowBest(pop[|pop| - 1], pts))
  }

  /** The cost each chromosome retains after the cost pass: its error at the
      last data point, since every point overwrites the previous one. */
  function LastCosts(pop: seq<Chromosome>, pts: seq<Point>): (v: seq<real>)
    requires |pts| > 0 && AllNonVertical(pop)
    ensures |v| == |pop| && forall i :: 0 <= i < |v| ==> v[i] >= 0.0
  {
    seq(|pop|, i requires 0 <= i < |pop| => Cost(pop[i], Last(pts)))
  }

  /** fitness_i = (worst - cost_i) + (worst - best) / (CHROMO_COUNT - 1). */
  function Fitnesses(v: seq<real>, worst: real, best: real): (f: seq<real>)
    ensures |f| == |v|
    ensures forall i, j :: 0 <= i < |v| && 0 <= j < |v| && v[i] <= v[j] ==> f[i] >= f[j]
  {
    seq(|v|, i requires 0 <= i < |v| => (worst - v[i]) + (worst - best) / (PopulationSize - 1) as real)
  }

  /** Left-to-right sum, the order in which sumFitness accumulates. */
  function Sum(s: seq<real>): real
  {
    if |s| == 0 then 0.0 else Sum(s[..|s| - 1]) + s[|s| - 1]
  }

  function Scaled(s: seq<real>, d: real): seq<real>
    requires d != 0.0
  {
    seq(|s|, i requires 0 <= i < |s| => s[i] / d)
  }

  /** The weight pass: every fitness divided by their sum. */
  function Weights(f: seq<real>): (w: seq<real>)
    requires Sum(f) != 0.0
    ensures |w| == |f|
  {
    Scaled(f, Sum(f))
  }

  /** The cost range over all (chromosome, point) pairs is not degenerate. */
  predicate Spread(pop: seq<Chromosome>, pts: seq<Point>)
    requires AllNonVertical(pop)
  {
    BestOf(pop, pts) < WorstOf(pop, pts)
  }

  /** The selection weights one generation step computes from pop and pts. */
  function SelectionWeights(pop: seq<Chromosome>, pts: seq<Point>): (w: seq<real>)
    requires |pop| > 0 && |pts| > 0 && AllNonVertical(pop) && Spread(pop, pts)
    ensures |w| == |pop|
  {
    var v := LastCosts(pop, pts);
    var worst, best := WorstOf(pop, pts), BestOf(pop, pts);
    RetainedCostInRange(pop, pts);
    FitnessIsDistribution(v, worst, best);
    Weights(Fitnesses(v, worst, best))
  }

  // ---------------------------------------------------------------------
  // The worst and best costs are the maximum and minimum over all pairs

  lemma {:induction false} RowWorstIsMaximum(c: Chromosome, pts: seq<Point>)
    requires NonVertical(c)
    ensures RowWorst(c, pts) >= 0.0
    ensures forall k :: 0 <= k < |pts| ==> Cost(c, pts[k]) <= RowWorst(c, pts)
    ensures |pts| > 0 ==> exists k :: 0 <= k < |pts| && RowWorst(c, pts) == Cost(c, pts[k])
  {
    if |pts| > 0 {
      var init := pts[..|pts| - 1];
      RowWorstIsMaximum(c, init);
      forall k | 0 <= k < |pts| - 1
        ensures Cost(c, pts[k]) <= RowWorst(c, pts)
      {
        assert pts[k] == init[k];
      }
      if |init| > 0 {
        var k :| 0 <= k < |init| && RowWorst(c, init) == Cost(c, init[k]);
        assert init[k] == pts[k];
      }
    }
  }

  lemma {:induction false} RowBestIsMinimum(c: Chromosome, pts: seq<Point>)
    requires NonVertical(c)
    ensures RowBest(c, pts) <= DblMax
    ensures forall k :: 0 <= k < |pts| ==> RowBest(c, pts) <= Cost(c, pts[k])
    ensures RowBest(c, pts) == DblMax || exists k :: 0 <= k < |pts| && RowBest(c, pts) == Cost(c, pts[k])
  {
    if |pts| > 0 {
      var init := pts[..|pts| - 1];
      RowBestIsMinimum(c, init);
      forall k | 0 <= k < |pts| - 1
        ensures RowBest(c, pts) <= Cost(c, pts[k])
      {
        assert pts[k] == init[k];
      }
      if RowBest(c, init) != DblMax {
        var k :| 0 <= k < |init| && RowBest(c, init) == Cost(c, init[k]);
        assert init[k] == pts[k];
      }
    }
  }

  /** cost_worst is the largest squared error over every (chromosome, point)
      pair, and is reached by one of them. */
  lemma {:induction false} WorstIsMaximum(pop: seq<Chromosome>, pts: seq<Point>)
    requires AllNonVertical(pop)
    ensures WorstOf(pop, pts) >= 0.0
    ensures forall i, k :: 0 <= i < |pop| && 0 <= k < |pts| ==> Cost(pop[i], pts[k]) <= WorstOf(pop, pts)
    ensures |pop| > 0 && |pts| > 0 ==>
      exists i, k :: 0 <= i < |pop| && 0 <= k < |pts| && WorstOf(pop, pts) == Cost(pop[i], pts[k])
  {
    if |pop| > 0 {
      var init := pop[..|pop| - 1];
      var c := pop[|pop| - 1];
      WorstIsMaximum(init, pts);
      RowWorstIsMaximum(c, pts);
      forall i, k | 0 <= i < |pop| && 0 <= k < |pts|
        ensures Cost(pop[i], pts[k]) <= WorstOf(pop, pts)
      {
        if i < |pop| - 1 {
          assert pop[i] == init[i];
        }
      }
      if |pts| > 0 {
        if WorstOf(pop, pts) == RowWorst(c, pts) {
          var k :| 0 <= k < |pts| && RowWorst(c, pts) == Cost(c, pts[k]);
          assert WorstOf(pop, pts) == Cost(pop[|pop| - 1], pts[k]);
        } else {
          var i, k :| 0 <= i < |init| && 0 <= k < |pts| && WorstOf(init, pts) == Cost(init[i], pts[k]);
          assert init[i] == pop[i];
        }
      }
    }
  }

  /** cost_best is the smallest squared error over every (chromosome, point)
      pair and is reached by one of them, unless it never dropped below its
      initial value DBL_MAX. */
  lemma {:induction false} BestIsMinimum(pop: seq<Chromosome>, pts: seq<Point>)
    requires AllNonVertical(pop)
    ensures BestOf(pop, pts) <= DblMax
    ensures forall i, k :: 0 <= i < |pop| && 0 <= k < |pts| ==> BestOf(pop, pts) <= Cost(pop[i], pts[k])
    ensures BestOf(pop, pts) == DblMax ||
      exists i, k :: 0 <= i < |pop| && 0 <= k < |pts| && BestOf(pop, pts) == Cost(pop[i], pts[k])
  {
    if |pop| > 0 {
      var init := pop[..|pop| - 1];
      var c := pop[|pop| - 1];
      BestIsMinimum(init, pts);
      RowBestIsMinimum(c, pts);
      forall i, k | 0 <= i < |pop| && 0 <= k < |pts|
        ensures BestOf(pop, pts) <= Cost(pop[i], pts[k])
      {
        if i < |pop| - 1 {
          assert pop[i] == init[i];
        }
      }
      if BestOf(pop, pts) != DblMax {
        if BestOf(pop, pts) == RowBest(c, pts) {
          var k :| 0 <= k < |pts| && RowBest(c, pts) == Cost(c, pts[k]);
          assert BestOf(pop, pts) == Cost(pop[|pop| - 1], pts[k]);
        } else {
          var i, k :| 0 <= i < |init| && 0 <= k < |pts| && BestOf(init, pts) == Cost(init[i], pts[k]);
          assert init[i] == pop[i];
        }
      }
    }
  }

  /** Each retained cost is the error at the last point, and lies between
      cost_best and cost_worst. */
  lemma RetainedCostInRange(pop: seq<Chromosome>, pts: seq<Point>)
    requires |pts| > 0 && AllNonVertical(pop)
    ensures |LastCosts(pop, pts)| == |pop|
    ensures forall i :: 0 <= i < |pop| ==>
      LastCosts(pop, pts)[i] == Cost(pop[i], pts[|pts| - 1]) &&
      BestOf(pop, pts) <= LastCosts(pop, pts)[i] <= WorstOf(pop, pts)
  {
    WorstIsMaximum(pop, pts);
    BestIsMinimum(pop, pts);
  }

  // ---------------------------------------------------------------------
  // Fitness and weights

  lemma {:induction false} SumOfPositives(s: seq<real>)
    requires forall i :: 0 <= i < |s| ==> s[i] > 0.0
    ensures |s| > 0 ==> Sum(s) > 0.0
    ensures Sum(s) >= 0.0
  {
    if |s| > 0 {
      SumOfPositives(s[..|s| - 1]);
    }
  }

  lemma {:induction false} SumOfZeros(s: seq<real>)
    requires forall i :: 0 <= i < |s| ==> s[i] == 0.0
    ensures Sum(s) == 0.0
  {
    if |s| > 0 {
      SumOfZeros(s[..|s| - 1]);
    }
  }

  /** Dividing every term by d divides the sum by d. */
  lemma {:induction false} SumScaled(s: seq<real>, d: real)
    requires d != 0.0
    ensures Sum(Scaled(s, d)) == Sum(s) / d
  {
    if |s| > 0 {
      var init := s[..|s| - 1];
      SumScaled(init, d);
      assert Scaled(s, d)[..|s| - 1] == Scaled(init, d);
      calc {
        Sum(Scaled(s, d));
        Sum(Scaled(init, d)) + s[|s| - 1] / d;
        Sum(init) / d + s[|s| - 1] / d;
        (Sum(init) + s[|s| - 1]) / d;
      }
    }
  }

  /** When every retained cost lies in [best, worst] and best < worst, every
      fitness is strictly positive (the offset keeps even the worst
      chromosome selectable), the weights are strictly positive and sum to 1,
      and a smaller cost gets a strictly larger weight. */
  lemma FitnessIsDistribution(v: seq<real>, worst: real, best: real)
    requires |v| > 0
    requires forall i :: 0 <= i < |v| ==> best <= v[i] <= worst
    requires best < worst
    ensures forall i :: 0 <= i < |v| ==> Fitnesses(v, worst, best)[i] > 0.0
    ensures Sum(Fitnesses(v, worst, best)) > 0.0
    ensures forall i :: 0 <= i < |v| ==> Weights(Fitnesses(v, worst, best))[i] > 0.0
    ensures Sum(Weights(Fitnesses(v, worst, best))) == 1.0
    ensures forall i, j :: 0 <= i < |v| && 0 <= j < |v| && v[i] < v[j] ==>
      Weights(Fitnesses(v, worst, best))[i] > Weights(Fitnesses(v, worst, best))[j]
  {
    var f := Fitnesses(v, worst, best);
    SumOfPositives(f);
    var s := Sum(f);
    SumScaled(f, s);
    DivSelf(s);
    forall i | 0 <= i < |v|
      ensures Weights(f)[i] > 0.0
    {
      DivPositive(f[i], s);
    }
    forall i, j | 0 <= i < |v| && 0 <= j < |v| && v[i] < v[j]
      ensures Weights(f)[i] > Weights(f)[j]
    {
      DivMonotone(f[j], f[i], s);
    }
  }

  /** When best == worst every fitness is 0 and so is their sum: the weight
      pass would divide by zero. */
  lemma DegenerateFitness(v: seq<real>, worst: real, best: real)
    requires forall i :: 0 <= i < |v| ==> best <= v[i] <= worst
    requires best == worst
    ensures forall i :: 0 <= i < |v| ==> Fitnesses(v, worst, best)[i] == 0.0
    ensures Sum(Fitnesses(v, worst, best)) == 0.0
  {
    SumOfZeros(Fitnesses(v, worst, best));
  }

  /** The selection weights of a population whose cost range is not
      degenerate form a probability distribution with no zero entry. */
  lemma SelectionWeightsAreDistribution(pop: seq<Chromosome>, pts: seq<Point>)
    requires |pop| > 0 && |pts| > 0 && AllNonVertical(pop) && Spread(pop, pts)
    ensures |SelectionWeights(pop, pts)| == |pop|
    ensures forall i :: 0 <= i < |pop| ==> SelectionWeights(pop, pts)[i] > 0.0
    ensures Sum(SelectionWeights(pop, pts)) == 1.0
  {
    RetainedCostInRange(pop, pts);
    FitnessIsDistribution(LastCosts(pop, pts), WorstOf(pop, pts), BestOf(pop, pts));
  }

  lemma DivSelf(d: real)
    requires d != 0.0
    ensures d / d == 1.0
  {
  }

  lemma DivPositive(a: real, d: real)
    requires a > 0.0 && d > 0.0
    ensures a / d > 0.0
  {
  }

  lemma DivMonotone(a: real, b: real, d: real)
    requires a < b && d > 0.0
    ensures a / d < b / d
  {
    assert b / d - a / d == (b - a) / d;
    DivPositive(b - a, d);
  }
}
