/** The breeding half of one generation step: for every slot of the new
    generation, a father and a different mother drawn by weight, and per gene
    a pick-or-blend crossover followed by an occasional mutation whose range
    shrinks with the generation counter. */
module Reproduction {
  import opened LineEncoding
  import opened Fitness
  import opened Draws

  /** Chance of copying a gene from one parent instead of blending. */
  const CrossMixProbability: real := 0.1
  /** Chance of mutating a gene. */
  const MutationProbability: real := 0.03
  /** Per gene (dx, dy, x0, y0): the mutation range is base - amplitude * cooling. */
  const MutationBase: seq<real> := [50.0, 50.0, 125.0, 125.0]
  const MutationAmplitude: seq<real> := [40.0, 40.0, 100.0, 100.0]
  /** Standard deviation of the jitter on the mutation range. */
  const RangeDeviation: real := 10.0

  /** The draws one gene consumes: mix (the pick-or-blend roll), fromMother
      (which parent a pick copies), mutate (the mutation roll), noise (the
      standard normal behind the jittered range) and offset (the unit behind
      the mutated value). */
  datatype GeneDraw = GeneDraw(mix: real, fromMother: bool, mutate: real, noise: real, offset: real)

  /** The draws one child consumes: the father's unit, the mother's units in
      the order the rejection loop reads them, and one GeneDraw per gene. */
  datatype SlotDraw = SlotDraw(father: real, mothers: seq<real>, genes: seq<GeneDraw>)

  predicate GeneDrawOk(d: GeneDraw)
  {
    IsUnit(d.mix) && IsUnit(d.mutate) && IsUnit(d.offset)
  }

  predicate SlotDrawOk(d: SlotDraw)
  {
    && IsUnit(d.father)
    && (forall k :: 0 <= k < |d.mothers| ==> IsUnit(d.mothers[k]))
    && |d.genes| == GeneCount
    && (forall j :: 0 <= j < |d.genes| ==> GeneDrawOk(d.genes[j]))
  }

  function Father(w: seq<real>, d: SlotDraw): (f: nat)
    requires |w| > 0
    ensures f < |w|
  {
    Sample(w, d.father)
  }

  /** The rejection loop ends: some mother draw differs from the father. */
  predicate MotherFound(w: seq<real>, d: SlotDraw)
    requires |w| > 0
  {
    exists k :: 0 <= k < |d.mothers| && Sample(w, d.mothers[k]) != Father(w, d)
  }

  /** The do-while loop drawing the mother: the first draw at or after k that
      differs from the father. */
  function MotherFrom(w: seq<real>, us: seq<real>, father: nat, k: nat): (m: nat)
    requires |w| > 0 && k <= |us|
    requires exists i :: k <= i < |us| && Sample(w, us[i]) != father
    ensures m < |w| && m != father
    ensures exists i :: k <= i < |us| && m == Sample(w, us[i]) &&
                        forall j :: k <= j < i ==> Sample(w, us[j]) == father
    decreases |us| - k
  {
    if Sample(w, us[k]) != father then Sample(w, us[k]) else MotherFrom(w, us, father, k + 1)
  }

  /** A draw equal to the father is skipped: the loop reads on from the next
      draw and ends at the same mother. */
  lemma MotherFromSkip(w: seq<real>, us: seq<real>, father: nat, k: nat)
    requires |w| > 0 && k < |us| && Sample(w, us[k]) == father
    requires exists i :: k <= i < |us| && Sample(w, us[i]) != father
    ensures exists i :: k + 1 <= i < |us| && Sample(w, us[i]) != father
    ensures MotherFrom(w, us, father, k + 1) == MotherFrom(w, us, father, k)
  {
    var i :| k <= i < |us| && Sample(w, us[i]) != father;
    assert k + 1 <= i;
  }

  function Mother(w: seq<real>, d: SlotDraw): (m: nat)
    requires |w| > 0 && MotherFound(w, d)
    ensures m < |w| && m != Father(w, d)
  {
    MotherFrom(w, d.mothers, Father(w, d), 0)
  }

  /** The cooled mutation range of gene j, where cooling is
      tanh((generation - 5000) / 12000): it shrinks from base + amplitude
      towards base - amplitude and equals base at generation 5000. */
  function MutationRange(j: nat, cooling: real): (r: real)
    requires j < GeneCount
    ensures -1.0 <= cooling <= 1.0 ==> MutationBase[j] - MutationAmplitude[j] <= r <= MutationBase[j] + MutationAmplitude[j]
    ensures cooling == 0.0 ==> r == MutationBase[j]
  {
    MutationBase[j] - MutationAmplitude[j] * cooling
  }

  /** The jittered range: the absolute value of a normal draw centred on the
      cooled range. */
  function NoisedRange(j: nat, cooling: real, noise: real): (r: real)
    requires j < GeneCount
    ensures r >= 0.0
  {
    Abs(Normal(MutationRange(j, cooling), RangeDeviation, noise))
  }

  /** Crossover of one gene: a copy of one parent's gene (pick) or the mean
      of both (blend); either way it lies between the parents' genes. */
  function Crossed(f: real, m: real, d: GeneDraw): (v: real)
    ensures v == f || v == m || v == (f + m) / 2.0
    ensures Min(f, m) <= v <= Max(f, m)
    ensures f == m ==> v == f
  {
    if d.mix <= CrossMixProbability then (if d.fromMother then m else f) else (f + m) / 2.0
  }

  /** Mutation of one gene: with the mutation roll at most the probability,
      a uniform draw within the jittered range around the gene; otherwise
      the gene unchanged. */
  function Mutated(v: real, j: nat, cooling: real, d: GeneDraw): (r: real)
    requires j < GeneCount && IsUnit(d.offset)
    ensures v - NoisedRange(j, cooling, d.noise) <= r <= v + NoisedRange(j, cooling, d.noise)
    ensures d.mutate > MutationProbability ==> r == v
  {
    if d.mutate <= MutationProbability then
      var range := NoisedRange(j, cooling, d.noise);
      Uniform(v - range, v + range, d.offset)
    else
      v
  }

  /** Gene j of the child bred from the chromosomes father and mother. */
  function ChildGene(father: Chromosome, mother: Chromosome, j: nat, cooling: real, d: GeneDraw): (g: real)
    requires j < GeneCount && IsUnit(d.offset)
    ensures d.mutate > MutationProbability ==> Min(father[j], mother[j]) <= g <= Max(father[j], mother[j])
  {
    Mutated(Crossed(father[j], mother[j], d), j, cooling, d)
  }

  /** The child written into one slot of the new generation. */
  function Child(pop: seq<Chromosome>, w: seq<real>, d: SlotDraw, cooling: real): Chromosome
    requires 0 < |w| == |pop| && SlotDrawOk(d) && MotherFound(w, d)
  {
    var father, mother := pop[Father(w, d)], pop[Mother(w, d)];
    seq(GeneCount, j requires 0 <= j < GeneCount => ChildGene(father, mother, j, cooling, d.genes[j]))
  }

  predicate BreedableDraws(w: seq<real>, draws: seq<SlotDraw>)
    requires |w| > 0
  {
    forall s :: 0 <= s < |draws| ==> SlotDrawOk(draws[s]) && MotherFound(w, draws[s])
  }

  /** The whole new generation, one child per slot draw. */
  function Offspring(pop: seq<Chromosome>, w: seq<real>, draws: seq<SlotDraw>, cooling: real): (next: seq<Chromosome>)
    requires 0 < |w| == |pop| && BreedableDraws(w, draws)
    ensures |next| == |draws|
  {
    seq(|draws|, s requires 0 <= s < |draws| => Child(pop, w, draws[s], cooling))
  }

  /** Every child has two distinct parents of the current generation; each
      of its genes, before mutation, lies between the parents' genes, and
      after mutation lies within the jittered range of that value (and is
      that value when the gene is not mutated). */
  lemma ChildOfTwoParents(pop: seq<Chromosome>, w: seq<real>, d: SlotDraw, cooling: real)
    requires 0 < |w| == |pop| && SlotDrawOk(d) && MotherFound(w, d)
    ensures Father(w, d) < |pop| && Mother(w, d) < |pop| && Father(w, d) != Mother(w, d)
    ensures forall j :: 0 <= j < GeneCount ==>
      var f, m := pop[Father(w, d)][j], pop[Mother(w, d)][j];
      var v := Crossed(f, m, d.genes[j]);
      var range := NoisedRange(j, cooling, d.genes[j].noise);
      && Min(f, m) <= v <= Max(f, m)
      && v - range <= Child(pop, w, d, cooling)[j] <= v + range
      && (d.genes[j].mutate > MutationProbability ==> Child(pop, w, d, cooling)[j] == v)
  {
  }

  /** With selection weights that are positive and sum to 1, both parents of
      every child are chromosomes of positive weight. */
  lemma ParentsHavePositiveWeight(w: seq<real>, d: SlotDraw)
    requires |w| > 0 && Sum(w) == 1.0 && SlotDrawOk(d) && MotherFound(w, d)
    ensures w[Father(w, d)] > 0.0 && w[Mother(w, d)] > 0.0
  {
    SampleIsInverseCdf(w, d.father);
    var i :| 0 <= i < |d.mothers| && Mother(w, d) == Sample(w, d.mothers[i]);
    SampleIsInverseCdf(w, d.mothers[i]);
  }
}
