# genetic-linear-fitting in Dafny

A model of the core of `genetic-linear-fitting`, a Win32 program that fits a
straight line to data points by a genetic search. The user places points with
a double click. A single click selects the nearest point. The Start command
begins the search, which runs one generation per idle tick.

A candidate line is a chromosome of four doubles: the direction `(dx, dy)`
and a point `(x0, y0)` on the line. Its value at `x` is
`(dx / dy) * (x - x0) + y0`. The program keeps two buffers of 100
chromosomes and swaps them after every generation. One generation step has
two parts:

- The cost pass computes the squared vertical error of every chromosome at
  every point. It tracks the worst and best error and keeps, per chromosome,
  the error at the last point only.
- The fitness pass turns each kept cost into `(worst - cost) + (worst -
  best) / 99` and divides by the sum. The results are the weights of a
  discrete distribution. Each child then gets a father and a different
  mother drawn from that distribution. Each gene is either a copy of one
  parent's gene or the mean of both. With probability 0.03 it is then
  mutated within a jittered range, which shrinks as the generation count
  grows.

Modules, one per file:

- `Geometry` (geometry.dfy): integer points and the client ↔ logical
  coordinate maps.
- `LineEncoding` (line_encoding.dfy): the chromosome as a four-element
  sequence with named genes, and the line function.
- `Fitness` (fitness.dfy): specification functions for cost, worst, best,
  retained costs, fitness and weights, with lemmas about them.
- `Draws` (draws.dfy): the random draws as values supplied by the caller.
  - A uniform draw is a unit `u` in `[0, 1)`, mapped to `lo + u * (hi - lo)`.
  - A normal draw is a standard normal `z`.
  - A discrete draw is a unit read through the cumulative weights (inverse
    CDF).
- `Reproduction` (reproduction.dfy): specification functions for parent
  selection, crossover, mutation, one child and a whole generation.
- `GeneticEngine` (engine.dfy): the `Engine` class with the two buffers, the
  current/new buffer references, the scratch array of values and the
  generation counter. `Start` and `NextGeneration` are loops over these
  arrays, proved against the functions above.
- `PointEditor` (point_editor.dfy): the nearest-point scan, the Start guard,
  and the `Editor` class holding the point list, the selection and the
  running flag.

Doubles are modelled as `real`, so the model is exact arithmetic with no
rounding. The cooling factor `tanh((nGeneration - 5000) / 12000)` is a
parameter `cooling`.

## Model

| member | source | states |
|---|---|---|
| Geometry.ClientToLogical | genetic-linear-fitting/winmain.cpp:429-435 | the window centre maps to the logical origin and only it; points above the centre have positive logical y (the y axis is flipped) |
| Geometry.LogicalToClient | genetic-linear-fitting/winmain.cpp:437-443 | applying ClientToLogical to the result gives back the logical point |
| Geometry.ClientRoundTrip | genetic-linear-fitting/winmain.cpp:429-443 | LogicalToClient(ClientToLogical(p)) == p for every client point |
| Geometry.TransformsAreBijections | genetic-linear-fitting/winmain.cpp:429-443 | each map is injective: equal images exactly when the points are equal |
| LineEncoding.Make | genetic-linear-fitting/winmain.cpp:107-114 | the named fields dx, dy, x0, y0 are genes 0..3 of the array view of the union |
| LineEncoding.ChromoFx | genetic-linear-fitting/winmain.cpp:445-448 | for dy != 0 the result lies on the line through (x0, y0) with direction (dx, dy): (y - y0) * dy == dx * (x - x0); y == y0 at x0 and when dx == 0 |
| Fitness.Cost | genetic-linear-fitting/winmain.cpp:477 | the squared error is non-negative and is 0 when the point lies on the line |
| Fitness.RowWorst | genetic-linear-fitting/winmain.cpp:475-483 | cost_worst after one chromosome's points loop, starting from 0, replaced only by a larger cost; never negative; properties in RowWorstIsMaximum |
| Fitness.RowBest | genetic-linear-fitting/winmain.cpp:475-483 | cost_best after one chromosome's points loop, starting from DBL_MAX, replaced only by a smaller cost; never above DBL_MAX; properties in RowBestIsMinimum |
| Fitness.WorstOf | genetic-linear-fitting/winmain.cpp:471-483 | cost_worst after the whole cost pass, folded chromosome by chromosome; never negative; properties in WorstIsMaximum |
| Fitness.BestOf | genetic-linear-fitting/winmain.cpp:471-483 | cost_best after the whole cost pass; never above DBL_MAX; properties in BestIsMinimum |
| Fitness.LastCosts | genetic-linear-fitting/winmain.cpp:482 | one non-negative retained cost per chromosome; properties in RetainedCostInRange |
| Fitness.Fitnesses | genetic-linear-fitting/winmain.cpp:490 | one fitness per cost, and a cost no larger gives a fitness no smaller; positivity in FitnessIsDistribution |
| Fitness.RowWorstIsMaximum | genetic-linear-fitting/winmain.cpp:475-483 | the running worst over one chromosome's points is at least 0, bounds every cost, and equals one of them when there are points |
| Fitness.RowBestIsMinimum | genetic-linear-fitting/winmain.cpp:475-483 | the running best is at most DBL_MAX, below every cost, and is DBL_MAX or one of the costs |
| Fitness.WorstIsMaximum | genetic-linear-fitting/winmain.cpp:470-484 | cost_worst is at least 0, bounds every (chromosome, point) cost, and equals one of them when both lists are non-empty |
| Fitness.BestIsMinimum | genetic-linear-fitting/winmain.cpp:470-484 | cost_best is at most DBL_MAX, below every (chromosome, point) cost, and is DBL_MAX or one of the costs |
| Fitness.RetainedCostInRange | genetic-linear-fitting/winmain.cpp:473-484 | the cost each chromosome keeps is its error at the last point, and lies between cost_best and cost_worst |
| Fitness.Sum | genetic-linear-fitting/winmain.cpp:487-493 | definition: the left-to-right sum sumFitness accumulates; properties in SumOfPositives, SumOfZeros and SumScaled |
| Fitness.Weights | genetic-linear-fitting/winmain.cpp:496-499 | one weight per fitness, each divided by their sum; properties in FitnessIsDistribution |
| Fitness.SelectionWeights | genetic-linear-fitting/winmain.cpp:468-499 | the weights one step computes, one per chromosome; properties in SelectionWeightsAreDistribution |
| Fitness.SumOfPositives | genetic-linear-fitting/winmain.cpp:487-493 | a left-to-right sum of positive terms is positive |
| Fitness.SumScaled | genetic-linear-fitting/winmain.cpp:496-499 | dividing every term by d divides the sum by d |
| Fitness.FitnessIsDistribution | genetic-linear-fitting/winmain.cpp:486-499 | when worst > best and every cost is within [best, worst]: each fitness and the sum are positive, every weight is positive, the weights sum to 1, and a lower cost gets a strictly larger weight |
| Fitness.DegenerateFitness | genetic-linear-fitting/winmain.cpp:486-493 | when worst == best every fitness is 0 and sumFitness is 0 |
| Fitness.SelectionWeightsAreDistribution | genetic-linear-fitting/winmain.cpp:468-499 | the weights one step computes, when worst > best, are one positive number per chromosome and sum to 1 |
| Draws.Uniform | genetic-linear-fitting/winmain.cpp:453-455 | a uniform draw on [lo, hi) lies in [lo, hi], strictly below hi when lo < hi |
| Draws.Normal | genetic-linear-fitting/winmain.cpp:546-547 | the draw lies deviation * z from the mean, on the mean's upper side exactly when z >= 0 (for a positive deviation) |
| Draws.Abs | genetic-linear-fitting/winmain.cpp:547 | the absolute value is non-negative and is v or -v |
| Draws.SampleFrom | genetic-linear-fitting/winmain.cpp:501 | the drawn index is in range, is the last index or has cumulative weight above u, and every earlier cumulative weight is at most u |
| Draws.Sample | genetic-linear-fitting/winmain.cpp:512 | a draw from the discrete distribution is a valid index; properties in SampleIsInverseCdf |
| Draws.SampleIsInverseCdf | genetic-linear-fitting/winmain.cpp:501 | for u below the total weight the index k satisfies Cumulative(k) <= u < Cumulative(k + 1), so it has positive weight |
| Reproduction.Father | genetic-linear-fitting/winmain.cpp:512 | the father is a valid index drawn by weight |
| Reproduction.MotherFrom | genetic-linear-fitting/winmain.cpp:514-517 | the mother is a valid index different from the father, and is the first draw in the stream that differs from him |
| Reproduction.MotherFromSkip | genetic-linear-fitting/winmain.cpp:514-517 | a redraw equal to the father is skipped and the loop ends at the same mother |
| Reproduction.Mother | genetic-linear-fitting/winmain.cpp:513-517 | the mother is a valid index different from the father |
| Reproduction.MutationRange | genetic-linear-fitting/winmain.cpp:524-545 | the cooled range of gene j is within base ± amplitude (50 ± 40 for dx and dy, 125 ± 100 for x0 and y0) and equals base when cooling is 0 |
| Reproduction.NoisedRange | genetic-linear-fitting/winmain.cpp:546-547 | the jittered range is non-negative |
| Reproduction.Crossed | genetic-linear-fitting/winmain.cpp:532-539 | the crossed gene is the father's, the mother's or their mean, lies between them, and equals both when they agree |
| Reproduction.Mutated | genetic-linear-fitting/winmain.cpp:541-549 | the mutated gene is within ± the jittered range of the crossed gene, and unchanged when the mutation roll exceeds 0.03 |
| Reproduction.ChildGene | genetic-linear-fitting/winmain.cpp:530-551 | gene j of a child: crossed, then possibly mutated; unmutated, it lies between the parents' genes |
| Reproduction.Child | genetic-linear-fitting/winmain.cpp:519-553 | definition: the four genes of one child of the drawn father and mother; properties in ChildOfTwoParents |
| Reproduction.Offspring | genetic-linear-fitting/winmain.cpp:509-553 | one child per slot draw; properties in ChildOfTwoParents and Engine.Breed |
| Reproduction.ChildOfTwoParents | genetic-linear-fitting/winmain.cpp:511-553 | every child has two distinct parents in the current generation; each gene before mutation lies between the parents' genes, and after mutation lies within the jittered range of that value |
| Reproduction.ParentsHavePositiveWeight | genetic-linear-fitting/winmain.cpp:501-517 | with weights summing to 1, both parents have positive weight |
| GeneticEngine.RandomChromosome | genetic-linear-fitting/winmain.cpp:453-462 | a fresh chromosome has dx, dy in [-100, 100], x0 in [-683, 683] and y0 in [-384, 384] |
| GeneticEngine.Randomized | genetic-linear-fitting/winmain.cpp:457-462 | the randomized population has 100 chromosomes, all in the start box |
| GeneticEngine.RowStep | genetic-linear-fitting/winmain.cpp:478-482 | loop-step helper for EvaluateCosts: one more point updates a row's running worst and best by one comparison each |
| GeneticEngine.PrefixStep | genetic-linear-fitting/winmain.cpp:473-484 | loop-step helper for EvaluateCosts: one more chromosome updates the pass's running worst and best by its row |
| GeneticEngine.Engine.constructor | genetic-linear-fitting/winmain.cpp:133-136 | two distinct zero-filled 100-chromosome buffers, the first one current (as OnCreate sets it at lines 170-171), a zero-filled scratch array standing for the static arValue of line 468, and generation 0 |
| GeneticEngine.Engine.Start | genetic-linear-fitting/winmain.cpp:450-464 | generation 0; the current buffer holds Randomized(units), all in the start box; the other buffer is untouched |
| GeneticEngine.Engine.EvaluateCosts | genetic-linear-fitting/winmain.cpp:470-484 | the scratch array holds every chromosome's last-point cost, and the returned worst and best are WorstOf and BestOf of the population |
| GeneticEngine.Engine.ComputeWeights | genetic-linear-fitting/winmain.cpp:486-499 | the scratch array becomes the fitnesses of the old costs divided by their left-to-right sum |
| GeneticEngine.Engine.DrawMother | genetic-linear-fitting/winmain.cpp:514-517 | the do-while loop returns the first draw that differs from the father |
| GeneticEngine.Engine.BreedSlot | genetic-linear-fitting/winmain.cpp:511-553 | slot idx of the new buffer becomes Child of the current generation; every other slot is unchanged |
| GeneticEngine.Engine.Breed | genetic-linear-fitting/winmain.cpp:501-554 | the new buffer becomes Offspring of the current generation under the weights |
| GeneticEngine.Engine.NextGeneration | genetic-linear-fitting/winmain.cpp:466-558 | the scratch array holds SelectionWeights (positive, summing to 1); the old new-generation buffer becomes current and holds Offspring; the old current buffer becomes the new-generation buffer with its contents unchanged; the generation counter grows by exactly 1 |
| PointEditor.SquaredDistance | genetic-linear-fitting/winmain.cpp:274 | the squared distance is non-negative and 0 exactly for equal points |
| PointEditor.SelectNearest | genetic-linear-fitting/winmain.cpp:267-292 | the result is the first point of least squared distance if that distance is at most 64 (POINT_RADIUS²), and nothing when every point is farther |
| PointEditor.SelectionIsUnique | genetic-linear-fitting/winmain.cpp:267-292 | the selection is determined by the points and the click position |
| PointEditor.AddedPointIsSelected | genetic-linear-fitting/winmain.cpp:251-285 | after a double click appends a point, the same click selects a point at exactly the click position |
| PointEditor.StartAccepted | genetic-linear-fitting/winmain.cpp:317 | the Start guard accepts exactly when the list has neither 0 nor 2 points, so a single point is accepted |
| PointEditor.Editor.constructor | genetic-linear-fitting/winmain.cpp:167-171 | no points, no selection, search stopped, engine at generation 0 |
| PointEditor.Editor.LButtonDown | genetic-linear-fitting/winmain.cpp:245-293 | while stopped: a double click appends ClientToLogical(client), then the selection is the nearest point within the radius; while running nothing changes |
| PointEditor.Editor.CommandStart | genetic-linear-fitting/winmain.cpp:316-329 | accepted exactly when the guard holds; then the selection is cleared, the search runs, and the engine is randomized at generation 0; refused: nothing changes |
| PointEditor.Editor.CommandStop | genetic-linear-fitting/winmain.cpp:330-333 | the search is stopped |
| PointEditor.Editor.CommandRestart | genetic-linear-fitting/winmain.cpp:334-337 | the engine is randomized at generation 0 with no guard on the points |

## Left out

- Window creation, painting, the context menu and the message loop are not modelled. They only draw state or route messages.
- Save and Load are not modelled. They are file I/O through common dialogs.
- OnIdle (one NextGeneration per idle tick while the search runs) is not modelled as an editor method. NextGeneration needs preconditions the editor state does not guarantee; they are listed below.
- The double-click test is a boolean input to LButtonDown. The program derives it from the tick count, the double-click time and the double-click rectangle. The remembered previous click point and tick are left out with it.
- The Mersenne Twister engine and the standard distributions are not modelled. Every draw is a value supplied by the caller. A uniform real draw is a unit scaled onto its interval. A normal draw is a standard normal value. A discrete draw is a unit read through the cumulative weights. This inverse-CDF reading is how the model picks an index, not the library's algorithm.
- The cooling factor `tanh((nGeneration - 5000.f) / 12000.0f)`, computed in single precision, is the parameter `cooling`. The model does not relate it to the generation counter.
- Floating-point rounding, infinities and NaN are not modelled. Doubles are exact reals.
- A chromosome with dy == 0 gives a division by zero in the program. That case is excluded by the NonVertical precondition.
- Integer overflow is not modelled: in the squared distance of a click (int arithmetic), and in the generation counter.
- GeneticEngine.Engine.NextGeneration: requires a non-empty point list, dy != 0 for every chromosome, and worst > best. With worst == best, every fitness and their sum are 0 (DegenerateFitness), and the program then divides 0 by 0. It also requires that each slot's stream of mother draws contains one that differs from the father, which makes the rejection loop terminate.
- Fitness.Cost: does not state that a zero cost means the point is on the line. That direction is nonlinear real arithmetic that the model does not need.
