/** The generation controller: two fixed buffers of chromosomes whose roles
    (current generation, next generation) swap after every step, the
    per-chromosome scratch array of costs, fitnesses and weights, and the
    generation counter. */
module GeneticEngine {
  import opened Geometry
  import opened LineEncoding
  import opened Fitness
  import opened Draws
  import opened Reproduction

  /** Bound of the initial dx and dy draws. */
  const GradientBound: real := 100.0

  /** The box the initial population is drawn from: dx, dy within
      [-100, 100], x0 within [-683, 683] and y0 within [-384, 384], the half
      extents of the window. */
  predicate InStartBox(c: Chromosome)
  {
    && -GradientBound <= Dx(c) <= GradientBound
    && -GradientBound <= Dy(c) <= GradientBound
    && -(Width as real) / 2.0 <= X0Of(c) <= (Width as real) / 2.0
    && -(Height as real) / 2.0 <= Y0Of(c) <= (Height as real) / 2.0
  }

  /** Four units per chromosome, read in the order dx, dy, x0, y0. */
  predicate StartUnitsOk(units: seq<real>)
  {
    |units| == GeneCount * PopulationSize && forall k :: 0 <= k < |units| ==> IsUnit(units[k])
  }

  /** Chromosome i of a freshly randomized population. */
  function RandomChromosome(units: seq<real>, i: nat): (c: Chromosome)
    requires StartUnitsOk(units) && i < PopulationSize
    ensures InStartBox(c)
  {
    var base := GeneCount * i;
    Make(Uniform(-GradientBound, GradientBound, units[base + DX]),
         Uniform(-GradientBound, GradientBound, units[base + DY]),
         Uniform(-(Width as real) / 2.0, (Width as real) / 2.0, units[base + X0]),
         Uniform(-(Height as real) / 2.0, (Height as real) / 2.0, units[base + Y0]))
  }

  function Randomized(units: seq<real>): (pop: seq<Chromosome>)
    requires StartUnitsOk(units)
    ensures |pop| == PopulationSize
    ensures forall i :: 0 <= i < |pop| ==> InStartBox(pop[i])
  {
    seq(PopulationSize, i requires 0 <= i < PopulationSize => RandomChromosome(units, i))
  }

  /** One more point extends the running worst and best of a row. */
  lemma RowStep(c: Chromosome, points: seq<Point>, k: nat)
    requires NonVertical(c) && k < |points|
    ensures RowWorst(c, points[..k + 1]) == Max(RowWorst(c, points[..k]), Cost(c, points[k]))
    ensures RowBest(c, points[..k + 1]) == Min(RowBest(c, points[..k]), Cost(c, points[k]))
  {
    assert points[..k + 1][..k] == points[..k];
  }

  /** One more chromosome extends the running worst and best of the pass. */
  lemma PrefixStep(pop: seq<Chromosome>, points: seq<Point>, idx: nat)
    requires AllNonVertical(pop) && idx < |pop|
    ensures WorstOf(pop[..idx + 1], points) == Max(WorstOf(pop[..idx], points), RowWorst(pop[idx], points))
    ensures BestOf(pop[..idx + 1], points) == Min(BestOf(pop[..idx], points), RowBest(pop[idx], points))
  {
    assert pop[..idx + 1][..idx] == pop[..idx];
  }

  class Engine {
    /** The two generation buffers. */
    const first: array<Chromosome>
    const second: array<Chromosome>
    /** Scratch array, one entry per chromosome: the retained cost, then the
        fitness, then the selection weight. */
    const values: array<real>
    /** The buffer holding the current generation and the one the next
        generation is written into. */
    var current: array<Chromosome>
    var newGen: array<Chromosome>
    var generation: int

    ghost predicate Valid()
      reads this
    {
      && first.Length == PopulationSize
      && second.Length == PopulationSize
      && values.Length == PopulationSize
      && first != second
      && ((current == first && newGen == second) || (current == second && newGen == first))
    }

    /** Program start-up: zero-filled buffers, the first one current. */
    constructor ()
      ensures Valid() && fresh(first) && fresh(second) && fresh(values)
      ensures current == first && newGen == second && generation == 0
      ensures forall i :: 0 <= i < PopulationSize ==>
        first[i] == Make(0.0, 0.0, 0.0, 0.0) && second[i] == Make(0.0, 0.0, 0.0, 0.0) && values[i] == 0.0
    {
      first := new Chromosome[PopulationSize](_ => Make(0.0, 0.0, 0.0, 0.0));
      second := new Chromosome[PopulationSize](_ => Make(0.0, 0.0, 0.0, 0.0));
      values := new real[PopulationSize](_ => 0.0);
      generation := 0;
      new;
      current := first;
      newGen := second;
    }

    /** Restart the search: counter back to 0 and every chromosome of the
        current buffer redrawn inside the start box; the other buffer is not
        touched. */
    method Start(units: seq<real>)
      requires Valid() && StartUnitsOk(units)
      modifies this`generation, current
      ensures Valid()
      ensures generation == 0
      ensures current[..] == Randomized(units)
      ensures forall i :: 0 <= i < PopulationSize ==> InStartBox(current[i])
      ensures newGen[..] == old(newGen[..])
    {
      generation := 0;
      var i := 0;
      while i < PopulationSize
        invariant 0 <= i <= PopulationSize
        invariant generation == 0
        invariant forall k :: 0 <= k < i ==> current[k] == RandomChromosome(units, k)
      {
        var base := GeneCount * i;
        var dx := Uniform(-GradientBound, GradientBound, units[base + DX]);
        var dy := Uniform(-GradientBound, GradientBound, units[base + DY]);
        var x0 := Uniform(-(Width as real) / 2.0, (Width as real) / 2.0, units[base + X0]);
        var y0 := Uniform(-(Height as real) / 2.0, (Height as real) / 2.0, units[base + Y0]);
        current[i] := Make(dx, dy, x0, y0);
        i := i + 1;
      }
    }

    /** The cost pass: for every chromosome and every point, the squared
        error updates the running worst and best, and overwrites the
        chromosome's retained cost. */
    method EvaluateCosts(points: seq<Point>) returns (worst: real, best: real)
      requires Valid() && |points| > 0 && AllNonVertical(current[..])
      modifies values
      ensures values[..] == LastCosts(current[..], points)
      ensures worst == WorstOf(current[..], points) && best == BestOf(current[..], points)
    {
      ghost var pop := current[..];
      worst, best := 0.0, DblMax;
      var idx := 0;
      while idx < PopulationSize
        invariant 0 <= idx <= PopulationSize
        invariant worst == WorstOf(pop[..idx], points) && best == BestOf(pop[..idx], points)
        invariant best <= DblMax
        invariant forall i :: 0 <= i < idx ==> values[i] == Cost(pop[i], Last(points))
      {
        ghost var c := pop[idx];
        ghost var worstBefore, bestBefore := worst, best;
        var k := 0;
        while k < |points|
          invariant 0 <= k <= |points|
          invariant worst == Max(worstBefore, RowWorst(c, points[..k]))
          invariant best == Min(bestBefore, RowBest(c, points[..k]))
          invariant 0 < k ==> values[idx] == Cost(c, points[k - 1])
          invariant forall i :: 0 <= i < idx ==> values[i] == Cost(pop[i], Last(points))
        {
          RowStep(c, points, k);
          var cost := Sq(ChromoFx(current[idx], points[k].x as real) - points[k].y as real);
          assert cost == Cost(c, points[k]);
          if cost > worst {
            worst := cost;
          }
          if cost < best {
            best := cost;
          }
          values[idx] := cost;
          k := k + 1;
        }
        assert points[..k] == points;
        PrefixStep(pop, points, idx);
        idx := idx + 1;
      }
      assert pop[..idx] == pop;
    }

    /** The fitness pass and the weight pass: each retained cost becomes
        (worst - cost) + (worst - best) / 99, summed from left to right, and
        each fitness is then divided by the sum. */
    method ComputeWeights(worst: real, best: real)
      requires Valid()
      requires Sum(Fitnesses(values[..], worst, best)) != 0.0
      modifies values
      ensures values[..] == Weights(Fitnesses(old(values[..]), worst, best))
    {
      ghost var f := Fitnesses(values[..], worst, best);
      var sumFitness := 0.0;
      var idx := 0;
      while idx < PopulationSize
        invariant 0 <= idx <= PopulationSize
        invariant forall i :: 0 <= i < idx ==> values[i] == f[i]
        invariant forall i :: idx <= i < PopulationSize ==> values[i] == old(values[i])
        invariant sumFitness == Sum(f[..idx])
      {
        assert f[..idx + 1][..idx] == f[..idx];
        var fitness := (worst - values[idx]) + (worst - best) / (PopulationSize - 1) as real;
        values[idx] := fitness;
        sumFitness := sumFitness + fitness;
        idx := idx + 1;
      }
      assert f[..idx] == f;
      idx := 0;
      while idx < PopulationSize
        invariant 0 <= idx <= PopulationSize
        invariant forall i :: 0 <= i < idx ==> values[i] == Weights(f)[i]
        invariant forall i :: idx <= i < PopulationSize ==> values[i] == f[i]
      {
        values[idx] := values[idx] / sumFitness;
        idx := idx + 1;
      }
    }

    /** The do-while loop that redraws the mother until she differs from
        the father. */
    static method DrawMother(weights: seq<real>, father: nat, draws: seq<real>) returns (mother: nat)
      requires |weights| > 0 && exists i :: 0 <= i < |draws| && Sample(weights, draws[i]) != father
      ensures mother == MotherFrom(weights, draws, father, 0)
    {
      var k := 0;
      mother := Sample(weights, draws[k]);
      while mother == father
        invariant 0 <= k < |draws|
        invariant mother == Sample(weights, draws[k])
        invariant exists i :: k <= i < |draws| && Sample(weights, draws[i]) != father
        invariant MotherFrom(weights, draws, father, k) == MotherFrom(weights, draws, father, 0)
        decreases |draws| - k
      {
        MotherFromSkip(weights, draws, father, k);
        k := k + 1;
        mother := Sample(weights, draws[k]);
      }
    }

    /** Breed slot idx of the new generation from the distribution over
        weights: a father drawn by weight, a mother redrawn until she differs
        from him, then the four genes crossed and possibly mutated one by
        one. */
    method BreedSlot(idx: nat, weights: seq<real>, d: SlotDraw, cooling: real)
      requires Valid() && idx < PopulationSize && |weights| == PopulationSize
      requires SlotDrawOk(d) && MotherFound(weights, d)
      modifies newGen
      ensures newGen[idx] == Child(current[..], weights, d, cooling)
      ensures forall s :: 0 <= s < PopulationSize && s != idx ==> newGen[s] == old(newGen[s])
    {
      var father := Sample(weights, d.father);
      var mother := DrawMother(weights, father, d.mothers);
      ghost var parents := (current[father], current[mother]);
      var j := 0;
      while j < GeneCount
        invariant 0 <= j <= GeneCount
        invariant forall t :: 0 <= t < j ==>
          newGen[idx][t] == ChildGene(parents.0, parents.1, t, cooling, d.genes[t])
        invariant forall s :: 0 <= s < PopulationSize && s != idx ==> newGen[s] == old(newGen[s])
      {
        var g := d.genes[j];
        var val: real;
        if g.mix <= CrossMixProbability {
          val := if g.fromMother then current[mother][j] else current[father][j];
        } else {
          val := (current[father][j] + current[mother][j]) / 2.0;
        }
        assert val == Crossed(parents.0[j], parents.1[j], g);
        if g.mutate <= MutationProbability {
          var rangeNoised := Abs(Normal(MutationRange(j, cooling), RangeDeviation, g.noise));
          val := Uniform(val - rangeNoised, val + rangeNoised, g.offset);
        }
        newGen[idx] := newGen[idx][j := val];
        j := j + 1;
      }
      assert newGen[idx] == Child(current[..], weights, d, cooling);
    }

    /** The breeding loop: the distribution is built once from the weights,
        then every slot of the new buffer receives a child of the current
        generation. */
    method Breed(draws: seq<SlotDraw>, cooling: real)
      requires Valid() && |draws| == PopulationSize && BreedableDraws(values[..], draws)
      modifies newGen
      ensures newGen[..] == Offspring(current[..], values[..], draws, cooling)
    {
      var weights := values[..];
      var idx := 0;
      while idx < PopulationSize
        invariant 0 <= idx <= PopulationSize
        invariant forall s :: 0 <= s < idx ==> newGen[s] == Child(current[..], weights, draws[s], cooling)
      {
        BreedSlot(idx, weights, draws[idx], cooling);
        idx := idx + 1;
      }
    }

    /** One generation step: evaluate the current generation against the
        points, breed the next generation into the other buffer, swap the
        buffers and count the generation. The old current buffer is left as
        it was. */
    method NextGeneration(points: seq<Point>, draws: seq<SlotDraw>, cooling: real)
      requires Valid()
      requires |points| > 0 && AllNonVertical(current[..]) && Spread(current[..], points)
      requires |draws| == PopulationSize && BreedableDraws(SelectionWeights(current[..], points), draws)
      modifies this`current, this`newGen, this`generation, newGen, values
      ensures Valid()
      ensures current == old(newGen) && newGen == old(current)
      ensures values[..] == SelectionWeights(old(current[..]), points)
      ensures forall i :: 0 <= i < PopulationSize ==> values[i] > 0.0
      ensures Sum(values[..]) == 1.0
      ensures current[..] == Offspring(old(current[..]), values[..], draws, cooling)
      ensures newGen[..] == old(current[..])
      ensures generation == old(generation) + 1
    {
      var worst, best := EvaluateCosts(points);
      RetainedCostInRange(current[..], points);
      FitnessIsDistribution(values[..], worst, best);
      ComputeWeights(worst, best);
      SelectionWeightsAreDistribution(current[..], points);
      Breed(draws, cooling);
      current, newGen := newGen, current;
      generation := generation + 1;
    }
  }
}
