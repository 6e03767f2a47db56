/** A candidate line, the chromosome of the genetic search. The source keeps
    it as a union of four named doubles (dx, dy, x0, y0) and a four-element
    array; here it is a four-element sequence with named accessors, so that
    crossover and mutation can address genes by position 0..3. */
module LineEncoding {

  /** Positions of the genes in a chromosome. */
  const GeneCount: nat := 4
  const DX: nat := 0
  const DY: nat := 1
  const X0: nat := 2
  const Y0: nat := 3

  type Chromosome = genes: seq<real> | |genes| == GeneCount witness [0.0, 0.0, 0.0, 0.0]

  function Dx(c: Chromosome): real { c[DX] }
  function Dy(c: Chromosome): real { c[DY] }
  function X0Of(c: Chromosome): real { c[X0] }
  function Y0Of(c: Chromosome): real { c[Y0] }

  /** The chromosome whose named fields are dx, dy, x0, y0. */
  function Make(dx: real, dy: real, x0: real, y0: real): (c: Chromosome)
    ensures Dx(c) == dx && Dy(c) == dy && X0Of(c) == x0 && Y0Of(c) == y0
  {
    [dx, dy, x0, y0]
  }

  /** A chromosome whose line is not vertical: the slope dx/dy is defined. */
  predicate NonVertical(c: Chromosome) { Dy(c) != 0.0 }

  /** y = (dx / dy) * (x - x0) + y0: the line through (x0, y0) with direction
      (dx, dy), evaluated at x. */
  function ChromoFx(c: Chromosome, x: real): (y: real)
    requires NonVertical(c)
    ensures x == X0Of(c) ==> y == Y0Of(c)
    ensures Dx(c) == 0.0 ==> y == Y0Of(c)
    ensures (y - Y0Of(c)) * Dy(c) == Dx(c) * (x - X0Of(c))
  {
    (Dx(c) / Dy(c)) * (x - X0Of(c)) + Y0Of(c)
  }
}
