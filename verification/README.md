# Verified models of the quantitative analytics core

This project models the numerical and combinatorial algorithms under
`src/quant/analytics` in Dafny, over exact real numbers, and proves what they promise.
Every claim below is for all inputs the code accepts: every vector length, every history,
every run. `dafny verify dfyconfig.toml` verifies the whole project.

## What is modelled

**Allocation sizing** (`execution_sizing.py`). The projection onto a leverage ball
intersected with a weighted drawdown ball, in the order the code tries its regimes:
already feasible, leverage only, drawdown only, Newton on both multipliers, alternating
projections, and the closing clamp. One inequality about soft thresholding carries every
optimality proof; it is instantiated for the two sorted threshold scans, for the Newton
solution and for a settled alternation. Each ball has one threshold point for every input
(`ThresholdPoints`); these two points decide the exits for a single ball and the outcome of
the Newton iteration, characterised by its iterates (`NewtonPaths`), the others. The code's slack of `1e-12` is
the parameter `Tolerances`: with slack 0 every exit other than the parallel branch and an
unsettled alternation returns the unique nearest point, the parallel branch never does, and
for any slack the guards say exactly when the others do. On top of it stand the spectral
projected gradient loop and the rounding to whole lots.

**Combinatorial purged cross-validation** (`cross_validation.py`). Contiguous blocks, the
enumeration of test combinations and its evenly spaced cap, purging and embargo, and the
stitching of fold predictions into complete paths. `OutOfSample` composes the two ends:
every stitched cell is the prediction for its own sample by a fold that did not train on it.

**Fractional differencing** (`fractional_diff.py`). The binomial weights and why their
loop ends, the filter, its inverse in both directions, the calibration of the degree, and
the streaming buffer as a cache of the batch filter.

**False-discovery rates** (`deflated_sharpe.py`). The sort-scale-accumulate-unsort
adjustment against a rule that knows no order, its use in cohort screening, and the
effective number of trials.

**Circuit breaker** (`circuit_breakers.py`). The four-tier machine with its dwell time
and recovery barrier, over whole runs.

**Online model averaging** (`ensemble.py`). Mirror descent on the simplex, regime
posteriors, shrinkage, damping and floor, and every state reachable from the initial one.
The exponential, logarithm and square root are arbitrary functions; the few results that
need more of them say so, and ask of the logarithm only what it does at positive arguments.
`DescentPaths` and `BarLaws` tell the solver and one bar by odds and paths instead of
formulas.

**Generational selection** (`evolutionary_lifecycle.py`). Survivor selection for any
ranking that partitions the pool, the cached ranking, the step-size rule and the
stagnation counter.

**Triple-barrier labels** (`labeling.py`). The lagged range volatility, the first-touch
scan, and causality as a statement about two series. `LabelRecords` says what a record
means in prices, returns, times and counts.

Modules follow the program's components. `Vectors`, `Sorting`, `Rounding`, `Simplex` and
`Results` hold what several of them share. A loop of the source is a method with
invariants, proved equal to a specification function or to a property; objects whose
fields change (`FractionalDifferentiator`, `StreamingFracDiffBuffer`,
`VolatilityAdaptiveForgetting`, `RegimeConditionedDMAEngine`,
`GenerationalLifecycleEngine`) are classes.

## Where the code and its documentation part ways

- The projection is documented as exact. Each of its three tests accepts a slack of
  `1e-12`; inside that window the rescaled point can be beaten by another feasible point
  (`ProjectionExamples.ToleranceExitCanMiss`), for the leverage exit unless it happens to
  be the drawdown threshold point (`TwoBudgetProjection.LeverageWindowExact`) and for the
  drawdown and Newton exits always.
- The branch for nearly equal drawdown weights is reached only when the weights differ and
  both budgets have to be spent, which it never does: its result is never the nearest
  point (`TwoBudgetProjection.ParallelMisses`). Up to a million assets it is taken exactly
  when the spread of the weights is below the slack (`TwoBudgetProjection.ParallelIff`), as
  for the input of `ProjectionExamples.ParallelReached`.
- Zero-sum weights are promised whenever the correction is on. A degree below the
  threshold keeps no lag and so the single weight 1; `FractionalWeights.ZeroSumIff` gives
  the exact condition.
- The inverse transform is promised for every fit. With no lag, the slice `[-0:]` is the
  whole buffer and the product of mismatched shapes fails beyond the first value
  (`FractionalDifferencing.LagFreeInverseFails`).
- Fitting is documented to store degree and weights together. A degree or threshold the
  generator refuses is stored first, beside the weights of the last fit
  (`FractionalDifferencing.FractionalDifferentiator.Fit`).
- The degree search is documented with at most six steps; it makes seven.
- Purging is documented as leak-free. It looks only at a block's first start and last
  end, which is enough exactly for blocks whose own samples stay inside that interval
  (`PurgedSplits.LeakFreeIffEnveloped`); sorted times suffice, unsorted ones leak
  (`PurgedSplits.LeakingSplit`).
- Ridge shrinkage is documented to keep the smallest eigenvalue at or above the ridge.
  That holds exactly when the cleaned input is positive semidefinite
  (`ModelAveraging.RidgeFloorIffSemidefinite`); three mutually opposed models break it.
- The solver is documented to minimise a score with an entropy term. Its step has no such
  term: it stops exactly at the minima of the score without entropy, and leaves the
  documented optimum unless the gradient at the uniform weighting is level
  (`MirrorOptimum.FixedIffMinimal`, `MirrorOptimum.OptimumFixedIff`). Without penalty, what
  it returns from uniform weights is that optimum only when the steps taken times the rate
  make 1, or all scores are equal (`PlainDescent.SolutionIsOptimumIff`).
- A stop is documented as label -1. For a short position stopped by a collision the code
  assigns +1, always to a trade that lost (`Labeling.StopLabelledLossIff`,
  `Labeling.LosingShortLabelledWin`).
- The label -1 is documented as a stop-loss. An unsigned position that leaves by its lower
  barrier is labelled -1 although it gains from the fall, beyond the round trip
  (`Labeling.LossLabelGainIff`, `Labeling.UnsignedWinLabelledLoss`).
- A signed expiration is documented as 0 within the friction. The code signs the return
  after costs and so assigns -1 there (`Labeling.ExpirySignIff`,
  `Labeling.FlatExpiryLabelledLoss`).
- The volatility is documented as zero up to index `window`; the code fills index
  `window` already. The model follows the code.
- Survivors are recorded as N distinct candidates. Offspring reported under a parent's id
  break that; `Lifecycle.DistinctSurvivorsIffDistinctPool` gives the exact condition. The
  ranking cached for the next generation then lists discarded candidates as well
  (`Lifecycle.CachedRankingIff`).
- The tier machine is not monotone in the shocks unless the dwell time is one bar
  (`CircuitBreaker.MonotoneIffNoDwell`).

## Model

| member | source | states |
|---|---|---|
| Geometry.NearestIsVariational | src/quant/analytics/execution_sizing.py:1616-1621 | a nearest point of a convex region and a point at which no direction into the region has an acute angle to y are the same thing (with `Geometry.VariationalIsNearest`, both directions) |
| Geometry.VariationalIsNearest | src/quant/analytics/execution_sizing.py:1616-1621 | the variational inequality makes a point the one nearest point |
| Geometry.NonExpansive | src/quant/analytics/execution_sizing.py:1616-1621 | nearest points of a convex region are never farther apart than the points they are nearest to |
| Geometry.ShrinkInequality | src/quant/analytics/execution_sizing.py:1616-1621 | soft thresholding by prices t moves y away from any z by no more than t charges for the extra magnitude of z |
| Geometry.RegionCertificate | src/quant/analytics/execution_sizing.py:1631-1637 | non-negative multipliers that both spend their budgets certify the unique nearest point of the intersection |
| Geometry.BallCertificate | src/quant/analytics/execution_sizing.py:1624-1630 | the same for one ball and one multiplier |
| Thresholds.L1Threshold | src/quant/analytics/execution_sizing.py:1696-1705 | the scan without a break ends on the threshold whose soft-thresholded magnitudes sum to exactly b1 when the input exceeds b1, because passing indexes form a prefix |
| Thresholds.RatioThreshold | src/quant/analytics/execution_sizing.py:1717-1730 | the scan with a break always breaks, on the multiplier whose weighted sum is exactly b2 |
| Projection.NearestInBall | src/quant/analytics/execution_sizing.py:1696-1740 | the threshold point is the nearest point of its ball exactly when y is outside, and y itself otherwise |
| Projection.LeverageDispatch | src/quant/analytics/execution_sizing.py:1696-1706 | for an infeasible y the first test at slack 0 succeeds exactly when the nearest point of the leverage ball is feasible; a negative threshold rejects itself |
| Projection.DrawdownDispatch | src/quant/analytics/execution_sizing.py:1717-1731 | the second test at slack 0 succeeds exactly when the nearest point of the drawdown ball is feasible |
| Projection.UniformWeightsNeverBoth | src/quant/analytics/execution_sizing.py:1761-1778 | with one common weight the balls are nested, so the branches for both budgets are not entered |
| Projection.ClampFeasible | src/quant/analytics/execution_sizing.py:1839-1847 | the closing clamp yields a feasible point with the signs of y and changes no feasible point |
| Projection.ClampIsLargest | src/quant/analytics/execution_sizing.py:1839-1847 | the clamp returns a multiple of the point, by a factor of at most 1: all of it, or one that uses up a limit |
| ThresholdPoints.ThresholdExists | src/quant/analytics/execution_sizing.py:1696-1730 | every vector has a threshold point that spends a positive budget exactly, inside its ball or not |
| ThresholdPoints.ThresholdUnique | src/quant/analytics/execution_sizing.py:1696-1730 | and only one |
| ThresholdPoints.BeyondBall | src/quant/analytics/execution_sizing.py:1696-1740 | outside the ball that point, with the signs of y, is the one nearest point of the ball |
| Newton.DetNonNegative | src/quant/analytics/execution_sizing.py:1754-1760 | the Newton determinant of any active set is at least 0 |
| Newton.CramerSolves | src/quant/analytics/execution_sizing.py:1779-1780 | the two update formulas solve both budget equations on the active set |
| Newton.NewtonNearest | src/quant/analytics/execution_sizing.py:1781-1786 | non-negative multipliers that reproduce their active set give the unique nearest point |
| Newton.NewtonClipped | src/quant/analytics/execution_sizing.py:1781-1786 | if a slightly negative multiplier had to be clipped, the accepted point underspends both budgets |
| Newton.NewtonMultipliers | src/quant/analytics/execution_sizing.py:1742-1788 | the semismooth Newton loop computes the outcome function of its inputs, which `NewtonPaths` characterises by the iterates alone: a point that keeps its active set, one budget for both constraints, or no result |
| Newton.OutcomeWorth | src/quant/analytics/execution_sizing.py:1742-1788 | an accepted point is the nearest one unless a multiplier was clipped, which at slack 0 none is, and otherwise underspends both budgets; the one budget is at most the leverage budget |
| Newton.DetBound | src/quant/analytics/execution_sizing.py:1754-1760 | the determinant of any active set is at most the squared number of assets times the squared spread of the weights |
| Newton.DetIsPairwise | src/quant/analytics/execution_sizing.py:1754-1760 | twice the determinant is the sum over all ordered pairs of active assets of the squared difference of their drawdown weights |
| Newton.FlatIff | src/quant/analytics/execution_sizing.py:1761-1778 | on up to a million assets at the source's slack, the constraints are taken for parallel exactly when the spread of the weights is below it, for every y but zero |
| Newton.FirstStepSolves | src/quant/analytics/execution_sizing.py:1742-1786 | when the assets y holds give a regular system with non-negative multipliers whose point drops none of them, the first step returns it |
| NewtonPaths.PathSolves | src/quant/analytics/execution_sizing.py:1742-1788 | when a path of iterates from (0, 0), each the clipped solution of the two budget equations on the active set of the one before and none of them accepted, reaches within 15 steps a regular active set whose own solution is accepted, the loop returns the point of that solution |
| NewtonPaths.SolvedIffPath | src/quant/analytics/execution_sizing.py:1742-1788 | the loop returns a point if and only if there is such a path |
| NewtonPaths.FlatIffPath | src/quant/analytics/execution_sizing.py:1742-1778 | it takes the constraints for parallel with budget b if and only if such a path reaches, within 15 steps, an active set that is singular under nearly equal weights, b being the most that can be spent there at the mean weight without passing a limit |
| Dykstra.LeverageStep | src/quant/analytics/execution_sizing.py:1796-1810 | one half step: the nearest non-negative point of the leverage ball with the correction it leaves |
| Dykstra.DrawdownStep | src/quant/analytics/execution_sizing.py:1812-1829 | the half step for the drawdown ball |
| Dykstra.Pass | src/quant/analytics/execution_sizing.py:1796-1830 | one pass keeps the two corrections adding up to what the iterate has lost |
| Dykstra.Alternate | src/quant/analytics/execution_sizing.py:1790-1837 | up to 40 passes keep that certificate, each on record, and they end early only when the iterate moves by less than the tolerance |
| Dykstra.TravelBounded | src/quant/analytics/execution_sizing.py:1790-1837 | the squared lengths of all half steps and the squared distance still left add up to at most the squared distance from the magnitudes, to every point within both budgets |
| Dykstra.SomePassIsClose | src/quant/analytics/execution_sizing.py:1790-1837 | so one of n passes ends with half steps no farther apart, squared, than the n-th part of that distance |
| Dykstra.AlternationGap | src/quant/analytics/execution_sizing.py:1790-1837 | after any pass no direction from the iterate into the region has a larger product with what the iterate has lost than the first correction has with the gap of the half steps |
| Dykstra.AlternationDistance | src/quant/analytics/execution_sizing.py:1790-1837 | the squared distance to the optimum is at most that product, once the iterate keeps the leverage budget |
| Dykstra.SettledIsNearest | src/quant/analytics/execution_sizing.py:1832-1834 | if the half steps meet, the iterate is the unique nearest point |
| Slack.LeverageSlack | src/quant/analytics/execution_sizing.py:1731-1740 | with leverage to spare the nearest point of the region is that of the drawdown ball, and conversely |
| Slack.DrawdownSlack | src/quant/analytics/execution_sizing.py:1706-1715 | with drawdown budget to spare it is that of the leverage ball, and conversely |
| Slack.BothSlack | src/quant/analytics/execution_sizing.py:1692-1694 | with both to spare only y is nearest to y |
| TwoBudgetProjection.DegenerateNearest | src/quant/analytics/execution_sizing.py:1684-1686 | with a zero bound the origin is the nearest point |
| TwoBudgetProjection.LeverageWindow | src/quant/analytics/execution_sizing.py:1706-1715 | inside the slack of the first test the rescaled point leaves leverage unspent |
| TwoBudgetProjection.LeverageWindowExact | src/quant/analytics/execution_sizing.py:1706-1715 | inside that slack the rescaled point is the nearest one if and only if it equals the threshold point of the drawdown ball |
| TwoBudgetProjection.DrawdownWindow | src/quant/analytics/execution_sizing.py:1731-1740 | inside the slack of the second test the rescaled point is never nearest |
| TwoBudgetProjection.NewtonWindow | src/quant/analytics/execution_sizing.py:1781-1786 | a Newton point with a clipped multiplier is never nearest |
| TwoBudgetProjection.NearestSpendsBoth | src/quant/analytics/execution_sizing.py:1742-1837 | when neither threshold point keeps both limits the nearest point spends both budgets exactly |
| TwoBudgetProjection.ParallelMisses | src/quant/analytics/execution_sizing.py:1761-1778 | the branch for nearly equal weights never returns the nearest point |
| TwoBudgetProjection.ParallelIff | src/quant/analytics/execution_sizing.py:1761-1778 | with the fallback not forced and both tests failed, that branch is taken if and only if the spread of the weights is below the slack, on up to a million assets |
| TwoBudgetProjection.NearlyEqualWeights | src/quant/analytics/execution_sizing.py:1761-1778 | so for such weights at slack 0 the result is the nearest point if and only if y is feasible or a single ball settles it |
| ProjectionExamples.ParallelReached | src/quant/analytics/execution_sizing.py:1761-1778 | two assets at the source's own slacks for which the branch is taken and its result is not the nearest point |
| TwoBudgetProjection.SolvedAtOnceExact | src/quant/analytics/execution_sizing.py:1742-1786 | when both tests fail and the assets y holds carry the solution, the result is the nearest point at any slack |
| TwoBudgetProjection.PathSolvedExact | src/quant/analytics/execution_sizing.py:1742-1788 | when both tests fail and the iterates reach, within 15 steps, an active set whose own solution has non-negative multipliers and keeps it, the result is the nearest point, spends both budgets and is the point of those multipliers |
| ProjectionExamples.SecondStepSolves | src/quant/analytics/execution_sizing.py:1742-1788 | three assets for which the first step drops one and the second step returns (7, 5, 0) |
| TwoBudgetProjection.ReturnedDistance | src/quant/analytics/execution_sizing.py:1790-1847 | after an alternation, settled or not, the returned point is within a bound computed from the half steps and the clamp of the nearest point |
| TwoBudgetProjection.LeverageRegime | src/quant/analytics/execution_sizing.py:1696-1847 | step 1 and everything after it: signs kept, and exit, result and optimality decided by the two threshold points of y and the Newton outcome on y |
| TwoBudgetProjection.DrawdownRegime | src/quant/analytics/execution_sizing.py:1717-1847 | the same from step 2 on |
| TwoBudgetProjection.BothBudgets | src/quant/analytics/execution_sizing.py:1742-1847 | the same for steps 3 and 4: which of the three exits is taken is a function of y, the limits and the slacks |
| TwoBudgetProjection.Project | src/quant/analytics/execution_sizing.py:1599-1847 | signs and zeros are kept and the result is feasible; exit and result are functions of y: of its threshold points x1, x2 and the Newton outcome on it. c.x1 at most b2 gives the nearest point; up to the slack above b2 it is nearest if and only if the rescaled x1 equals x2; else the drawdown exit is nearest if and only if the sum of x2 is at most b1; then a Newton point is nearest if and only if no multiplier was clipped, none is at slack 0; the parallel branch never is; an alternation is when its half steps meet |
| TwoBudgetProjection.ProjectionExact | src/quant/analytics/execution_sizing.py:1599-1847 | the result is the nearest point whenever y is feasible or the leverage ball settles it; at slack 0 whenever a single ball settles it or the Newton iteration on y reproduces its active set, and unless that iteration fails only then |
| TwoBudgetProjection.UniformLeavesEarly | src/quant/analytics/execution_sizing.py:1761-1778 | with one common weight a single ball settles every input, and none reaches Newton, the parallel branch or the alternation |
| TwoBudgetProjection.ProjectionIdempotent | src/quant/analytics/execution_sizing.py:1684-1694 | projecting a second time changes nothing |
| TwoBudgetProjection.ExactProjectionsNonExpansive | src/quant/analytics/execution_sizing.py:1599-1847 | between two inputs whose results are nearest points the map never moves points apart |
| ProjectionExamples.ToleranceExitCanMiss | src/quant/analytics/execution_sizing.py:1706-1715 | a concrete input for which the slack makes the first exit return a point that a feasible point beats |
| SpectralGradient.ProjectedStepAscends | src/quant/analytics/execution_sizing.py:2206-2216 | an exact trial point has gradient times move at least the squared move over alpha |
| SpectralGradient.LineSearch | src/quant/analytics/execution_sizing.py:2217-2231 | the first of ten halvings that gains enough, or none of them does |
| SpectralGradient.SmoothStepAccepted | src/quant/analytics/execution_sizing.py:2217-2231 | on an objective of bounded curvature an exact step is accepted, no later than with the first halving for which curvature times alpha times the halving is at most 2 * (1 - 1e-4) |
| SpectralGradient.OneStep | src/quant/analytics/execution_sizing.py:2207-2242 | one iteration is legal: the first halving that gains enough, or the trial point when none does, at a feasible point |
| SpectralGradient.Ascend | src/quant/analytics/execution_sizing.py:2194-2247 | the loop produces a legal run from its start with a feasible end, and stops only for one of three reasons: the iterations are used up, the last step moved less than the tolerance, or the projection of the next gradient step, which is then returned, lies within it; every earlier iteration had a trial point at least the tolerance away and moved at least that far |
| SpectralGradient.NextAlphaMeaning | src/quant/analytics/execution_sizing.py:2231-2237 | with curvature along the step the next step length is the number in [0.01, 10000] closest to s.s / s.y, and 25 without |
| SpectralGradient.SecantStep | src/quant/analytics/execution_sizing.py:2231-2237 | that ratio solves the secant equation best: no multiple of the step is closer to the change of the gradient than the one by its inverse |
| SpectralGradient.EndedNear | src/quant/analytics/execution_sizing.py:2194-2247 | whatever the reason, the point returned is within the tolerance of the last iterate |
| SpectralGradient.StepStaysFeasible | src/quant/analytics/execution_sizing.py:2206-2247 | one iteration leads from a feasible point to feasible ones, because projection and blending stay in the convex region |
| SpectralGradient.RunStaysFeasible | src/quant/analytics/execution_sizing.py:2206-2247 | by induction over a run, of which only the start is known to be feasible: start, trial and next point of every iteration are feasible, for any objective and gradient |
| SpectralGradient.RunEndsFeasible | src/quant/analytics/execution_sizing.py:2206-2247 | so is the point a run ends on |
| SpectralGradient.StepGain | src/quant/analytics/execution_sizing.py:2206-2231 | an accepted step whose trial point is the nearest one gains at least 1e-4 * beta * d.d / alpha |
| SpectralGradient.GainsIsSum | src/quant/analytics/execution_sizing.py:2217-2231 | the guaranteed gains of a run are the sum of those of its steps |
| SpectralGradient.RunAscends | src/quant/analytics/execution_sizing.py:2217-2242 | over a run whose trial points are nearest points the tracked objective collects at least the sum of the guaranteed gains |
| SpectralGradient.ZeroSlackRunAscends | src/quant/analytics/execution_sizing.py:2217-2242 | at slack 0 it does over every run whose gradient steps a single ball settles or the Newton iteration on them solves |
| SpectralGradient.UniformRunAscends | src/quant/analytics/execution_sizing.py:2217-2242 | with one common drawdown weight it does over every run at slack 0 |
| SpectralGradient.AcceptedRunImproves | src/quant/analytics/execution_sizing.py:2217-2242 | such a run that ends on an accepted step has truly improved the objective |
| SpectralGradient.SmoothRunAccepts | src/quant/analytics/execution_sizing.py:2206-2242 | with a curvature of at most 0.10238976 every step of a run of exact trial points is accepted and the tracked value and gradient are those of the iterate |
| SpectralGradient.SmoothRunImproves | src/quant/analytics/execution_sizing.py:2206-2242 | so such a run ends with the objective itself improved by all the guaranteed gains |
| SpectralGradient.SmoothSolveImproves | src/quant/analytics/execution_sizing.py:2194-2247 | with an iteration allowed, exact trials and a curvature of at most 0.10238976, a start whose projected gradient step moves it by the tolerance or more is left and the run ends strictly better |
| SpectralGradient.Solve | src/quant/analytics/execution_sizing.py:2118-2262 | the result is feasible, zero for a non-positive haircut, the candidate itself when that is feasible, and otherwise the end of a legal run that stopped only for one of the three reasons of `SpectralGradient.Ascend`; the final safety projection changes nothing |
| LotRounding.RoundedDistance | src/quant/analytics/execution_sizing.py:1917-1930 | each coordinate moves by less than a lot, by at most half a lot when rounding to nearest, and keeps its sign |
| LotRounding.NearestLot | src/quant/analytics/execution_sizing.py:1921-1922 | no whole number of lots is closer than the one nearest rounding picks |
| LotRounding.Unbiased | src/quant/analytics/execution_sizing.py:1864-1873 | rounding up with the stated chance keeps the expectation |
| LotRounding.DiscretizedEntry | src/quant/analytics/execution_sizing.py:1893-1930 | an entry between m and m + 1 lots takes the upper one from half a lot on when rounding to nearest, and under a draw exactly when the draw is below the fraction of the lot; without a positive lot size nothing changes |
| LotRounding.WeightedExposure | src/quant/analytics/execution_sizing.py:1917-1930 | rounding adds at most half a lot per asset to any weighted exposure |
| LotRounding.DiscretizedWithinLimits | src/quant/analytics/execution_sizing.py:1917-1930 | a feasible allocation exceeds either limit by at most half a lot per asset after rounding |
| Partition.PartitionGroups | src/quant/analytics/cross_validation.py:160-176 | the cursor loop yields the balanced consecutive blocks |
| Partition.PartitionExact | src/quant/analytics/cross_validation.py:160-176 | every sample lies in exactly one block |
| Partition.PartitionBalanced | src/quant/analytics/cross_validation.py:160-176 | block sizes differ by at most one, the larger blocks first |
| Partition.PartitionConsecutive | src/quant/analytics/cross_validation.py:160-176 | the blocks run from sample 0 to the last, each beginning where the one before ended |
| Combinatorics.CombinationsSound | src/quant/analytics/cross_validation.py:198 | everything enumerated is an increasing k-element selection |
| Combinatorics.CombinationsComplete | src/quant/analytics/cross_validation.py:198 | every increasing k-element selection is enumerated |
| Combinatorics.CombinationsOrdered | src/quant/analytics/cross_validation.py:198 | in strictly increasing order, hence without repetition |
| Combinatorics.OccurrenceCount | src/quant/analytics/cross_validation.py:451-461 | each group occurs in exactly C(N-1, k-1) combinations |
| Combinatorics.BinomialFactorial | src/quant/analytics/cross_validation.py:461 | the count agrees with the factorial formula |
| Partition.StrideIncreasing | src/quant/analytics/cross_validation.py:200-206 | the rounded stride indexes are strictly increasing, so capped folds are distinct |
| Partition.StrideEnds | src/quant/analytics/cross_validation.py:200-206 | the first and last combination are always among them |
| Partition.StrideNearest | src/quant/analytics/cross_validation.py:200-206 | each position kept is the whole number nearest to its evenly spaced one, ties to even |
| Partition.GenerateTestCombinations | src/quant/analytics/cross_validation.py:178-208 | forward windows or all combinations, capped to evenly spaced ones exactly when there are more than the cap |
| Partition.ChosenSelections | src/quant/analytics/cross_validation.py:178-208 | every generated combination selects k groups in order and none is repeated; forward ones are consecutive groups from the second on, without a cap all of them |
| PurgedSplits.CoerceTimes | src/quant/analytics/cross_validation.py:228-271 | which time arrays are accepted, defaulted or rejected, and with which error |
| PurgedSplits.PurgeMask | src/quant/analytics/cross_validation.py:351-360 | a candidate is masked exactly when its lifespan meets some test interval |
| PurgedSplits.EmbargoMask | src/quant/analytics/cross_validation.py:365-378 | a remaining candidate is masked exactly when it starts within the embargo after some test interval |
| PurgedSplits.Purge | src/quant/analytics/cross_validation.py:351-363 | splits the candidates by the purge condition, in order |
| PurgedSplits.Embargo | src/quant/analytics/cross_validation.py:365-381 | splits the rest by the embargo condition, in order |
| PurgedSplits.SplitFold | src/quant/analytics/cross_validation.py:321-401 | the six parts of one fold |
| PurgedSplits.FoldLoop | src/quant/analytics/cross_validation.py:321-401 | folds in order, ending at the first that starves |
| PurgedSplits.Split | src/quant/analytics/cross_validation.py:273-401 | all folds of all combinations over the given or default times, or the folds before the first one that violates the minimum training ratio, or the input error, each error exactly for its cause; the embargo is the configured number of bars, the configured share of the time from first start to last end, or the rounded share of the samples with one bar at least |
| PurgedSplits.FoldUsable | src/quant/analytics/cross_validation.py:344-349 | every generated combination leaves a training group, so the guard for none never fires |
| PurgedSplits.TrainClearOfBlocks | src/quant/analytics/cross_validation.py:141-144 | a retained training sample ends strictly before a test block starts or starts strictly after its end plus the embargo |
| PurgedSplits.FoldComplete | src/quant/analytics/cross_validation.py:87-90 | train, purged, embargoed and test are disjoint, and in combinatorial mode cover all samples |
| PurgedSplits.ForwardTrainsOnThePast | src/quant/analytics/cross_validation.py:335-338 | forward chaining trains only on samples before every test sample |
| PurgedSplits.ForwardTrainsOnAllThePast | src/quant/analytics/cross_validation.py:335-349 | and every earlier sample is trained on, purged or embargoed |
| PurgedSplits.LeakFreeIffEnveloped | src/quant/analytics/cross_validation.py:329-330 | purging by first start and last end protects every sample of the block exactly when the block is enveloped by them |
| PurgedSplits.SortedEnveloped | src/quant/analytics/cross_validation.py:329-330 | sorted starts and ends make every block enveloped |
| PurgedSplits.NoSampleOverlap | src/quant/analytics/cross_validation.py:141-144 | with enveloped test blocks no retained training sample overlaps any test sample |
| PurgedSplits.TrainingWaits | src/quant/analytics/cross_validation.py:304-319 | over the folds of a split no training sample starts after a tested block by less than the embargo in force, for each of its three forms |
| PurgedSplits.ReachBounds | src/quant/analytics/cross_validation.py:304-319 | the embargo in plain numbers: the bars, the share of the time span, or between half a bar below and above the share of the samples, one bar at least |
| PurgedSplits.WaitingIsNeeded | src/quant/analytics/cross_validation.py:351-381 | nothing is dropped without cause: a purged sample overlaps a tested block and an embargoed one starts within the embargo after one |
| PurgedSplits.OverlapIffCommonInstant | src/quant/analytics/cross_validation.py:351-360 | the purge test holds exactly when the two lifespans share an instant |
| PurgedSplits.DefaultTimesKeepDistance | src/quant/analytics/cross_validation.py:304-319 | with index times and a relative embargo the sample right after a test block is never trained on |
| PurgedSplits.UnsortedTimesLeak | src/quant/analytics/cross_validation.py:329-330 | for unsorted times a fold trains on a sample that overlaps a test sample |
| PurgedSplits.LeakingSplit | src/quant/analytics/cross_validation.py:273-401 | splitting those times returns that fold |
| PathReconstruction.AppendFold | src/quant/analytics/cross_validation.py:444-449 | the moving cursor cuts a fold vector into the slices of its groups |
| PathReconstruction.CollectSlices | src/quant/analytics/cross_validation.py:442-449 | each group ends up with its slices in fold order |
| PathReconstruction.SlicesFollowOccurrences | src/quant/analytics/cross_validation.py:442-449 | the p-th slice of a group comes from the p-th fold that tests it |
| PathReconstruction.WriteSlice | src/quant/analytics/cross_validation.py:467 | one row segment is written and nothing else changes |
| PathReconstruction.FillPaths | src/quant/analytics/cross_validation.py:463-467 | every path and block is written with its slice |
| PathReconstruction.CheckLengths | src/quant/analytics/cross_validation.py:433-440 | the first fold whose vector does not hold exactly its test samples, and none exactly when all do |
| PathReconstruction.ReconstructPaths | src/quant/analytics/cross_validation.py:403-474 | each error exactly for its cause, naming the first fold of wrong length, or paths that hold in every cell the prediction of a fold that tested it |
| PathReconstruction.CountsAgree | src/quant/analytics/cross_validation.py:451-461 | in uncapped runs both formulas for the number of paths agree |
| PathReconstruction.UntestedIffSkipped | src/quant/analytics/cross_validation.py:451-457 | a group is left untested if and only if the configuration caps the combinations and no evenly spaced position kept tests it |
| PathReconstruction.SmallCapLeavesGroup | src/quant/analytics/cross_validation.py:451-457 | a cap below N / k combinations always leaves a group untested |
| PathReconstruction.StitchingIsBijective | src/quant/analytics/cross_validation.py:412-415 | in uncapped runs each fold slice lands on exactly one path, and the path tells the fold back |
| PathReconstruction.EveryCellFilled | src/quant/analytics/cross_validation.py:469-472 | no cell of a returned path is empty, capped or not, and each comes from a fold in which that sample was tested |
| OutOfSample.PredictionsFit | src/quant/analytics/cross_validation.py:433-440 | predictions made for the test samples of the folds of a split always have the lengths reconstruction asks for |
| OutOfSample.PathsAreOutOfSample | src/quant/analytics/cross_validation.py:273-474 | splitting and stitching compose: every cell of every path is the prediction for that very sample, by the fold the path takes its group from, which tested the sample and did not train on it |
| FractionalWeights.OmegaClosed | src/quant/analytics/fractional_diff.py:66-69 | k times the k-th weight is minus d times the damping product |
| FractionalWeights.OmegaBounds | src/quant/analytics/fractional_diff.py:66-73 | every lag weight is negative and k times its magnitude is at most d |
| FractionalWeights.OmegaShrinks | src/quant/analytics/fractional_diff.py:66-73 | lag weights strictly shrink in magnitude |
| FractionalWeights.PartialSums | src/quant/analytics/fractional_diff.py:84-85 | partial sums telescope to a positive product |
| FractionalWeights.StopUnique | src/quant/analytics/fractional_diff.py:71-80 | the place where the loop stops is determined by degree, threshold and cap |
| FractionalWeights.Expand | src/quant/analytics/fractional_diff.py:62-82 | the loop ends even without a cap, with at most d / threshold lags |
| FractionalWeights.ComputeWeights | src/quant/analytics/fractional_diff.py:28-89 | the two errors, the two boundary degrees, and the truncated expansion with or without correction |
| FractionalWeights.WeightsBalance | src/quant/analytics/fractional_diff.py:84-87 | with a lag the corrected head lies in [d, 1) and the weights sum to 0; otherwise the sum is positive |
| FractionalWeights.ZeroSumIff | src/quant/analytics/fractional_diff.py:41-44 | the promised zero sum holds exactly for d = 1 or d at least the threshold |
| FractionalDifferencing.ConstantSeries | src/quant/analytics/fractional_diff.py:84-85 | a constant series filters to the weight sum times the constant, so to 0 after the correction |
| FractionalDifferencing.InverseOfTransform | src/quant/analytics/fractional_diff.py:238-283 | differencing and reconstructing from the first lookback prices gives the rest back |
| FractionalDifferencing.TransformOfInverse | src/quant/analytics/fractional_diff.py:238-283 | transforming an anchor followed by its reconstruction gives the differenced values back |
| FractionalDifferencing.FittedWeights | src/quant/analytics/fractional_diff.py:145-157 | the generator never yields a zero head, so the inverse is defined |
| FractionalDifferencing.FractionalDifferentiator.Fit | src/quant/analytics/fractional_diff.py:129-170 | errors, weights and lookback fitted for a given degree, the lookback capped at the configured share of the sample and at 10 at least; a refused degree is stored all the same, beside the weights of the last fit |
| FractionalDifferencing.FractionalDifferentiator.Transform | src/quant/analytics/fractional_diff.py:199-229 | errors, and one filtered value per full window, padded in front when asked |
| FractionalDifferencing.FractionalDifferentiator.InverseTransform | src/quant/analytics/fractional_diff.py:238-283 | errors, and otherwise the reconstruction from the last lookback anchor prices |
| FractionalDifferencing.Rebuild | src/quant/analytics/fractional_diff.py:266-283 | the growing buffer computes the reconstruction, and when the slice of a lag-free fit makes it fail |
| FractionalDifferencing.LagFreeInverseFails | src/quant/analytics/fractional_diff.py:269-283 | a lag-free fit cannot reconstruct two values |
| FractionalDifferencing.FindDegree | src/quant/analytics/fractional_diff.py:303-372 | seven halvings leave a bracket of width 1/128 whose upper end is accepted or 1 and whose lower end is rejected or 0 |
| FractionalDifferencing.BisectionNearMinimal | src/quant/analytics/fractional_diff.py:303-372 | for upward closed verdicts the result is within 1/128 of every acceptable degree |
| FractionalDifferencing.StreamingFracDiffBuffer.Hydrate | src/quant/analytics/fractional_diff.py:407-422 | too short a history is refused; otherwise the buffer holds its last lookback prices, or all of them when the lookback is 0 |
| FractionalDifferencing.StreamingFracDiffBuffer.Update | src/quant/analytics/fractional_diff.py:447-472 | the streamed value is the batch value at that bar; the buffer grows to twice its capacity and is then cut back to it |
| FractionalDifferencing.Replay | src/quant/analytics/fractional_diff.py:407-472 | any run of updates after hydration streams exactly the batch transform |
| FalseDiscovery.AdjustPValues | src/quant/analytics/deflated_sharpe.py:346-393 | each adjusted value is the least level at which the order-free step-up rule rejects its hypothesis, with the number of hypotheses as factor, times 1 + 1/2 + ... + 1/m for Benjamini-Yekutieli; the mask is that rule at q |
| FalseDiscovery.HarmonicGrowth | src/quant/analytics/deflated_sharpe.py:376-382 | that constant grows like the logarithm: at 2^k hypotheses it lies between 1 + k / 2 and 1 + k |
| FalseDiscovery.CountIsCardinality | src/quant/analytics/deflated_sharpe.py:370-386 | the count in the order-free rule is the number of p-values at or below the threshold |
| FalseDiscovery.YekutieliWithholds | src/quant/analytics/deflated_sharpe.py:346-393 | two p-values of which Benjamini-Hochberg discovers one and Benjamini-Yekutieli none |
| FalseDiscovery.StepUpRule | src/quant/analytics/deflated_sharpe.py:353-360 | the adjusted value is at most q exactly when the rank is at most the largest k with p(k) * factor / k <= q, however ties were sorted |
| FalseDiscovery.RejectedByRank | src/quant/analytics/deflated_sharpe.py:376-386 | the order-free rule and the rank rule agree |
| FalseDiscovery.SingleAdjusted | src/quant/analytics/deflated_sharpe.py:366-368 | the early return for one p-value agrees with the general rule |
| FalseDiscovery.AdjustedUnique | src/quant/analytics/deflated_sharpe.py:370-390 | at most one vector satisfies the rule, so tie breaking cannot show |
| FalseDiscovery.InputOrderIrrelevant | src/quant/analytics/deflated_sharpe.py:387-390 | permuting the input permutes the adjusted values alike |
| FalseDiscovery.LoweringNeverRaises | src/quant/analytics/deflated_sharpe.py:376-386 | lowering any p-values never raises any adjusted value |
| FalseDiscovery.LoweringKeepsRejection | src/quant/analytics/deflated_sharpe.py:376-392 | and never undoes a discovery |
| FalseDiscovery.AdjustedInUnitInterval | src/quant/analytics/deflated_sharpe.py:359 | adjusted values lie in [0, 1] |
| FalseDiscovery.OrderKept | src/quant/analytics/deflated_sharpe.py:359 | adjustment keeps the order and ties of the p-values |
| FalseDiscovery.NeverBelowRaw | src/quant/analytics/deflated_sharpe.py:376-385 | an adjusted value is at least its p-value exactly when that is at most 1 |
| FalseDiscovery.YekutieliAtLeastHochberg | src/quant/analytics/deflated_sharpe.py:376-382 | Benjamini-Yekutieli values are at least Benjamini-Hochberg values everywhere |
| FalseDiscovery.ScreenCohort | src/quant/analytics/deflated_sharpe.py:640-686 | a candidate is certified exactly when it is individually significant and, in company, rejected by the rule on the values 1 - PSR; the status says COHORT_FDR_CERTIFIED, FDR_REJECTED, or what it said before |
| FalseDiscovery.BetterCohortKeepsCertificates | src/quant/analytics/deflated_sharpe.py:640-686 | better candidates anywhere never cost a significant candidate its certificate |
| FalseDiscovery.EffectiveTrialsMeaning | src/quant/analytics/deflated_sharpe.py:315-343 | for a correlation matrix the clip never acts: K^2 over the squared norm lies in [1, K], is K exactly for uncorrelated and 1 exactly for perfectly correlated trials |
| FalseDiscovery.EquicorrelatedTrials | src/quant/analytics/deflated_sharpe.py:315-343 | n equally correlated trials count as n / (1 + (n - 1) r^2) |
| FalseDiscovery.EffectiveTrialsRange | src/quant/analytics/deflated_sharpe.py:315-343 | only a square matrix is accepted, fewer than two trials count as one, and no count leaves [1, K] |
| CircuitBreaker.Decide | src/quant/analytics/circuit_breakers.py:1124-1151 | no execution in the locked tiers, the smaller of the smooth haircut and one half in CAUTION, the smooth haircut in NORMAL, and each status flag exactly for its tier |
| CircuitBreaker.CandidateCountsThresholds | src/quant/analytics/circuit_breakers.py:1075-1083 | the demanded tier is the number of thresholds the shock has reached, and HALT in an emergency |
| CircuitBreaker.StepIsSafe | src/quant/analytics/circuit_breakers.py:1075-1122 | the tier is never below what the bar demands, never rises above it, falls at most one level, and only below the recovery barrier |
| CircuitBreaker.CounterIsStay | src/quant/analytics/circuit_breakers.py:1090-1122 | over any run from the initial state the bar counter is the length of the current stay |
| CircuitBreaker.StepDownAfterDwell | src/quant/analytics/circuit_breakers.py:1099-1110 | every step down out of DERISK or HALT follows at least dwell bars in that very tier |
| CircuitBreaker.AntiChattering | src/quant/analytics/circuit_breakers.py:1085-1122 | dwell times the number of such step downs, plus the bars in hand, is at most the length of the run |
| CircuitBreaker.StepRecovers | src/quant/analytics/circuit_breakers.py:1085-1122 | no bar shortens the recovery time by more than one and a calm bar by exactly one |
| CircuitBreaker.NoEarlyRecovery | src/quant/analytics/circuit_breakers.py:1085-1122 | no run reaches NORMAL before the recovery time |
| CircuitBreaker.CalmRecovery | src/quant/analytics/circuit_breakers.py:1085-1122 | a calm run is at NORMAL exactly from the recovery time on |
| CircuitBreaker.HaltLastsTwoDwells | src/quant/analytics/circuit_breakers.py:1085-1122 | after entering HALT, NORMAL takes at least 2 * dwell + 1 bars, and exactly that many calm ones |
| CircuitBreaker.MonotoneIffNoDwell | src/quant/analytics/circuit_breakers.py:1085-1122 | harsher bars never end in a milder tier if and only if the dwell time is one bar |
| CircuitBreaker.EarlierEscalationRecoversEarlier | src/quant/analytics/circuit_breakers.py:1099-1110 | for any longer dwell time, two runs that show the failure |
| CircuitBreaker.ConsensusSplitsTheWeights | src/quant/analytics/circuit_breakers.py:459-525 | the three directional buckets are non-negative and sum to the weights |
| CircuitBreaker.ConsensusCounts | src/quant/analytics/circuit_breakers.py:459-525 | each share is the total of the weights whose forecast lies above the band, below it or inside it |
| Simplex.LaplaceMixesUniform | src/quant/analytics/ensemble.py:1208-1222 | the floor mixes in the uniform vector, keeps the sum at 1 and every entry at or above the floor |
| Simplex.EffectiveModelsInRange | src/quant/analytics/ensemble.py:1582-1587 | the effective number of models lies in [1, K] and is K exactly for equal weights |
| MirrorDescent.Solve | src/quant/analytics/ensemble.py:1108-1231 | each error exactly for its cause, and otherwise the floored end of the descent from the given or uniform start |
| MirrorDescent.Solution | src/quant/analytics/ensemble.py:1180-1231 | the result is a probability vector with every entry at or above the floor |
| MirrorDescent.TiltedPositive | src/quant/analytics/ensemble.py:1188-1198 | a mirror step cannot collapse |
| MirrorDescent.StableStepIsPlainStep | src/quant/analytics/ensemble.py:1180-1198 | with a true exponential the max-shifted step is the plain exponentiated-gradient step |
| MirrorDescent.SolutionIgnoresCommonScore | src/quant/analytics/ensemble.py:1188-1192 | adding one amount to all scores changes nothing |
| MirrorDescent.UndercutGainsFromStart | src/quant/analytics/ensemble.py:1180-1206 | a model whose score plus penalty is no larger against every model never loses weight relative to the other, over the whole descent |
| MirrorDescent.UndercutsIff | src/quant/analytics/ensemble.py:1180-1190 | that condition holds exactly when the gradient entry of the one is no larger at every weighting |
| MirrorDescent.UndercutsWithoutPenalty | src/quant/analytics/ensemble.py:1171-1176 | without penalty the condition is a comparison of the two scores |
| DescentPaths.StepIff | src/quant/analytics/ensemble.py:1180-1198 | a weighting is one step on if and only if it is a probability vector whose odds are the odds before times the ratio of exp(-(eta / tau) * gradient) |
| DescentPaths.SolutionIffPath | src/quant/analytics/ensemble.py:1180-1231 | the solver returns w if and only if w is, with the floor mixed in, the end of a path of such steps from the starting weights that goes on while some weight moves by the tolerance, up to the iteration limit |
| DescentPaths.StartOdds | src/quant/analytics/ensemble.py:1164-1168 | the descent starts from equal weights or from the given ones with their odds kept, no share counting as less than 1e-30 |
| MirrorOptimum.FixedIffLevel | src/quant/analytics/ensemble.py:1188-1206 | a step leaves the weights in place exactly when the gradient of the penalised score is the same for every model |
| MirrorOptimum.FixedIffMinimal | src/quant/analytics/ensemble.py:998-1007 | for a semidefinite matrix it does exactly when no weighting has a smaller penalised score without entropy |
| MirrorOptimum.EntropicOptimum | src/quant/analytics/ensemble.py:998-1001 | a weighting with a level entropic gradient is the one minimum of the documented objective |
| MirrorOptimum.EntropicOptimumFixedIffUniform | src/quant/analytics/ensemble.py:1188-1206 | a step leaves that documented optimum in place if and only if it is uniform |
| MirrorOptimum.OptimumFixedIff | src/quant/analytics/ensemble.py:1188-1206 | in terms of scores and matrix: if and only if the gradient at the uniform weighting is the same for every model |
| MirrorOptimum.EveryOptimumMoves | src/quant/analytics/ensemble.py:1188-1206 | every weighting is the documented optimum of some scores, and unless it is uniform a step leaves it |
| PlainDescent.DescendClosed | src/quant/analytics/ensemble.py:1180-1206 | without penalty the n steps the descent takes multiply each starting weight by exp(-n * (eta / tau) * s), up to one factor |
| PlainDescent.GibbsIsOptimum | src/quant/analytics/ensemble.py:998-1001 | without penalty the weights proportional to exp(-s / tau) are the one documented optimum |
| PlainDescent.DescentFindsOptimumIff | src/quant/analytics/ensemble.py:1180-1206 | from uniform weights the descent ends on the documented optimum if and only if its steps times eta make 1 or all scores are equal |
| PlainDescent.SolutionIsOptimumIff | src/quant/analytics/ensemble.py:1180-1231 | and exactly then the solver returns that optimum, floored |
| PlainDescent.OddRateMisses | src/quant/analytics/ensemble.py:1180-1231 | for scores that differ it never does unless 1 over eta is a whole number of steps within the limit |
| PlainDescent.FastRateMisses | src/quant/analytics/ensemble.py:1180-1231 | with eta above 1 it never does for scores that differ |
| ModelAveraging.SmoothedBetween | src/quant/analytics/ensemble.py:464-467 | the smoothed baseline lies between the old one and the observation |
| ModelAveraging.AlphaFallsWithVolatility | src/quant/analytics/ensemble.py:449-462 | more volatility never raises the memory factor, and volatility at the baseline gives the base factor |
| ModelAveraging.VolatilityAdaptiveForgetting.ComputeAlpha | src/quant/analytics/ensemble.py:429-469 | the clamped forgetting factor from the old baseline, and the baseline moved by the smoothing rate |
| ModelAveraging.ProjectionSurvives | src/quant/analytics/ensemble.py:710-720 | the forward projection has positive mass for every accepted input, so its guard never fires |
| ModelAveraging.ForwardPriorIsProjection | src/quant/analytics/ensemble.py:710-720 | for exact distributions clipping and renormalising are the identity |
| ModelAveraging.BlendedIsInterior | src/quant/analytics/ensemble.py:818-827 | the composite prior is a positive probability vector before it is clipped and renormalised |
| ModelAveraging.TemperedKeepsOrder | src/quant/analytics/ensemble.py:800-816 | tempering never changes which of two models a regime prefers |
| ModelAveraging.NextRowKeepsOrder | src/quant/analytics/ensemble.py:1589-1607 | a model that was at least as likely and lost no more stays at least as likely |
| ModelAveraging.ShrinkGrowsWithAmbiguity | src/quant/analytics/ensemble.py:1557-1565 | the shrinkage weight rises with ambiguity, from 0 at the lower bound to the cap at the upper one, whether the bounds are configured or come with the bar |
| ModelAveraging.WrongSignCostsMore | src/quant/analytics/ensemble.py:554-560 | of two different forecasts equally far from the outcome one costs strictly more exactly when it has the wrong sign and wrong signs are penalised |
| ModelAveraging.RegularisedForm | src/quant/analytics/ensemble.py:984-994 | shrinkage mixes the quadratic form of the cleaned matrix with the squared length |
| ModelAveraging.RidgeFloorIffSemidefinite | src/quant/analytics/ensemble.py:959-994 | the promised eigenvalue floor holds if and only if the cleaned matrix is positive semidefinite |
| ModelAveraging.OpposedModelsBreakTheFloor | src/quant/analytics/ensemble.py:959-994 | an accepted matrix for which it fails at every ridge |
| ModelAveraging.TurnoverBound | src/quant/analytics/ensemble.py:1570-1580 | the weights move at most the damped move plus the floor term |
| ModelAveraging.TotalVariance | src/quant/analytics/ensemble.py:1582-1586 | aleatoric plus epistemic variance is the second moment of the mixture less the squared mean |
| BarLaws.TemperedOdds | src/quant/analytics/ensemble.py:800-816 | tempering raises the odds of a posterior row to the power alpha |
| BarLaws.NextRowOdds | src/quant/analytics/ensemble.py:1589-1607 | the likelihood law: above the floor the odds of two models are their odds before times exp(-prob * (loss_i - loss_j)) |
| BarLaws.NextRowStrict | src/quant/analytics/ensemble.py:1589-1607 | of two equally likely models the one that lost less ends strictly likelier in every regime with any probability |
| BarLaws.PosteriorsLearn | src/quant/analytics/ensemble.py:1511-1607 | so it is in the state every bar leaves, from the tempered old posteriors, the bar's regime probabilities and its losses |
| BarLaws.BarLossLaw | src/quant/analytics/ensemble.py:554-560 | a forecast costs its squared error, and the penalty on its product with the outcome when the signs differ |
| BarLaws.ScoresCombine | src/quant/analytics/ensemble.py:1518-1550 | exp of a score times the prior is exp of the loss, the prior being the tempered rows blended by the forward regime probabilities |
| BarLaws.StandardisedUndone | src/quant/analytics/ensemble.py:540-552 | a standardised forecast times the root of its horizon is the forecast |
| BarLaws.CertainRegime | src/quant/analytics/ensemble.py:710-827 | from a certain regime the forward prior is its row of the transition matrix and the composite prior its posterior row |
| BarLaws.ForwardOdds | src/quant/analytics/ensemble.py:710-720 | for inputs that only nearly sum to one the forward prior keeps the odds of the clipped projection |
| BarLaws.AlphaSlope | src/quant/analytics/ensemble.py:449-462 | inside its bounds the memory factor falls by the sensitivity times the relative excess of the volatility |
| BarLaws.BaselineCloses | src/quant/analytics/ensemble.py:464-467 | each observation closes a tenth of the distance between baseline and volatility |
| BarLaws.ShrinkInProportion | src/quant/analytics/ensemble.py:1557-1565 | between the bounds the shrinkage weight is the cap in proportion to the way between them |
| BarLaws.CorrelationEntries | src/quant/analytics/ensemble.py:1542-1546 | the solver is given the identity, or the symmetric part of the input clipped into [-1, 1] and shrunk by the ridge, with unit diagonal |
| BarLaws.CleaningCorrelates | src/quant/analytics/ensemble.py:980-990 | the cleaned matrix is always symmetric with unit diagonal and entries in [-1, 1] |
| BarLaws.CleaningKeepsCorrelations | src/quant/analytics/ensemble.py:980-990 | and a matrix that is so already stays as it is |
| BarLaws.CleaningIgnoresTranspose | src/quant/analytics/ensemble.py:980-990 | a matrix and its transpose are cleaned alike |
| BarLaws.WeightsMove | src/quant/analytics/ensemble.py:1549-1580 | the next weights are the solver's answer on the current ones, mixed with the uniform weights for ambiguity, with the current ones against turnover, and with the floor |
| BarLaws.StateMovesOn | src/quant/analytics/ensemble.py:1622-1630 | one step on, the losses added, the ambiguity remembered |
| BarLaws.ForecastParts | src/quant/analytics/ensemble.py:1582-1620 | what is emitted: mean, mean variance, variance of the means, reciprocal of the squared weights, forward regime probabilities, memory factor and shrinkage weight |
| BarLaws.InitialOdds | src/quant/analytics/ensemble.py:1350-1375 | initial weights are equal, or above the floor in the odds of the exponentials of the Sharpe ratios |
| EnsembleEngine.InitializeState | src/quant/analytics/ensemble.py:1315-1394 | which arguments are accepted, and an initial state that passes every check with weights at or above the floor |
| EnsembleEngine.RegimeConditionedDMAEngine.PredictAndUpdate | src/quant/analytics/ensemble.py:1396-1632 | a bar is refused exactly when an input check fails; otherwise prediction and state are functions of state and bar alone, whatever the tracker held before |
| EnsembleEngine.RegimeConditionedDMAEngine.AdvancePosteriors | src/quant/analytics/ensemble.py:1589-1607 | each row stays on the simplex and is the row function that `BarLaws.NextRowOdds` characterises, of its tempered row, its regime probability and the losses |
| EnsembleEngine.RegimeConditionedDMAEngine.Reweigh | src/quant/analytics/ensemble.py:1548-1580 | descent, shrinkage, damping and floor compose to the weight function the results speak of |
| EnsembleEngine.RegimeConditionedDMAEngine.Fault | src/quant/analytics/ensemble.py:1463-1511 | no fault is reported exactly for acceptable inputs, and otherwise the first check that fails, in the order they are made |
| EnsembleEngine.EmittedValid | src/quant/analytics/ensemble.py:288-371 | no prediction can trip its validator, and total variance obeys the law of total variance |
| EnsembleEngine.AdvancedValid | src/quant/analytics/ensemble.py:183-258 | no reachable state can trip its validator, and one bar brings every weight to the floor or above it |
| EnsembleEngine.BetterModelScoresLower | src/quant/analytics/ensemble.py:1533-1549 | larger posteriors in every regime never cost a model any of the advantage its losses give it |
| EnsembleEngine.BetterModelGains | src/quant/analytics/ensemble.py:1533-1555 | such a model, with a loss advantage that covers its correlation penalty against every model, never loses weight relative to the other over the whole descent |
| EnsembleEngine.Run | src/quant/analytics/ensemble.py:1396-1632 | after any run of accepted bars the state is valid and the step count is the length of the run |
| EnsembleEngine.RunAboveFloor | src/quant/analytics/ensemble.py:1570-1580 | from the first bar on every weight of every run keeps the floor, wherever it started |
| EnsembleEngine.BaselineBetween | src/quant/analytics/ensemble.py:464-467 | the volatility baseline never leaves the range of what it has seen |
| EnsembleEngine.LossesAccumulate | src/quant/analytics/ensemble.py:1620-1628 | accumulated losses never fall |
| EnsembleEngine.BarTurnover | src/quant/analytics/ensemble.py:1557-1580 | the turnover bound at every bar |
| Lifecycle.Select | src/quant/analytics/evolutionary_lifecycle.py:860-876 | the nested loops keep exactly the first n candidates in ranking order |
| Lifecycle.Elitist | src/quant/analytics/evolutionary_lifecycle.py:860-876 | no survivor is in a later front than a discarded candidate, nor worse scored within a front |
| Lifecycle.InfeasibleLast | src/quant/analytics/evolutionary_lifecycle.py:870-876 | infeasible candidates survive only when every feasible one does |
| Lifecycle.FirstFrontSurvives | src/quant/analytics/evolutionary_lifecycle.py:860-868 | the first front survives whole when it fits, and otherwise by score |
| Lifecycle.SurvivorsDistinct | src/quant/analytics/evolutionary_lifecycle.py:860-878 | from a pool with distinct ids exactly n distinct candidates survive |
| Lifecycle.DistinctSurvivorsIffDistinctPool | src/quant/analytics/evolutionary_lifecycle.py:860-878 | survivors are distinct under every ranking if and only if the pool ids are |
| Lifecycle.FirstFrontCount | src/quant/analytics/evolutionary_lifecycle.py:880-883 | from distinct ids the recorded first-front count is the smaller of first front and population |
| Lifecycle.RestrictRanking | src/quant/analytics/evolutionary_lifecycle.py:917-945 | the loops build the joint ranking restricted to the survivors |
| Lifecycle.CachedRankingRanksSurvivors | src/quant/analytics/evolutionary_lifecycle.py:917-946 | from distinct ids that ranking lists exactly the survivors in the order selected and meets the ranker's own contract |
| Lifecycle.CachedRankingIff | src/quant/analytics/evolutionary_lifecycle.py:917-946 | for any pool it ranks the survivors exactly when no discarded candidate has a survivor's id; otherwise it lists those too |
| Lifecycle.CacheSoundIffDistinctPool | src/quant/analytics/evolutionary_lifecycle.py:917-946 | it does under every ranking if and only if the pool ids are distinct |
| Lifecycle.KeptFrontIsCut | src/quant/analytics/evolutionary_lifecycle.py:919-938 | each cached front is its original cut where selection stopped, with rank and scores |
| Lifecycle.AdaptStepSize | src/quant/analytics/evolutionary_lifecycle.py:352-404 | which arguments are accepted, and the one-fifth rule: the smoothed ratio moves by the smoothing factor toward the new one, and a step inside its bounds grows exactly when that is above 0.2 and shrinks exactly when below, by the configured factors as far as the bounds allow |
| Lifecycle.CounterIsStretch | src/quant/analytics/evolutionary_lifecycle.py:591-597 | the counter is the unbroken stagnant stretch modulo the limit; a cataclysm fires exactly when it completes one |
| Lifecycle.CataclysmsAreRare | src/quant/analytics/evolutionary_lifecycle.py:591-597 | the counter stays below the limit and limit times the number of cataclysms is at most the number of generations |
| Lifecycle.GenerationalLifecycleEngine.constructor | src/quant/analytics/evolutionary_lifecycle.py:629-650 | an engine starts with no cached ranking |
| Lifecycle.GenerationalLifecycleEngine.ParentRanking | src/quant/analytics/evolutionary_lifecycle.py:772-782 | a ranking taken from a sound cache ranks the parents, as a recomputed one would |
| Lifecycle.GenerationalLifecycleEngine.StepGeneration | src/quant/analytics/evolutionary_lifecycle.py:732-953 | each size error exactly for its cause, and otherwise a valid next state with the selected survivors, the first-front count, the one-fifth rule applied to the step, the monitor and the cache filed under the survivors, which is sound exactly when no discarded candidate has a survivor's id |
| Labeling.ComputeParkinsonVolatility | src/quant/analytics/labeling.py:201-257 | each refused input with its cause, and at each bar the volatility of the window ending one bar earlier |
| LabelRecords.ParkinsonEstimator | src/quant/analytics/labeling.py:209-256 | 4 log 2 times the window times the squared volatility is the sum of the squared log ranges of the window before the bar, and 0 until one is complete |
| Labeling.GridNear | src/quant/analytics/labeling.py:435-439 | on a tick grid a barrier is put on the nearest tick, ties to the even one, and so moves by at most half a tick |
| Labeling.LogBarriersSymmetric | src/quant/analytics/labeling.py:415-426 | with equal multipliers the entry price is the geometric mean of the logarithmic barriers |
| Labeling.ShortExchangesMultipliers | src/quant/analytics/labeling.py:411-433 | a short position swaps profit and stop multipliers, and every pair of barriers encloses the entry price |
| LabelRecords.HorizonScaling | src/quant/analytics/labeling.py:405-409 | scaled to the horizon the variance grows in proportion to it |
| LabelRecords.BarrierDistances | src/quant/analytics/labeling.py:411-439 | before the tick grid the barriers of a record lie at the profit and stop multiples of its width from the entry price, in log prices or in fractions of it, exchanged for a short position |
| Labeling.FindExit | src/quant/analytics/labeling.py:441-496 | the loop with its breaks computes the scan |
| Labeling.ExitIsFirstTouch | src/quant/analytics/labeling.py:444-496 | the exit is the first bar whose open, high or low meets a barrier, settled by that bar alone, or the horizon when none does |
| Labeling.ExitBeyondBarrier | src/quant/analytics/labeling.py:454-496 | an exit lies at or beyond the barrier it names |
| LabelRecords.ExitPrices | src/quant/analytics/labeling.py:454-496 | the exit price is the barrier or the open of a gap beyond it, and which open, high and low give which reason |
| Labeling.CollisionIff | src/quant/analytics/labeling.py:470-481 | a collision is reported exactly under the pessimistic policy when the first bar to meet a barrier opens strictly between both and reaches both |
| Labeling.ScanIsCausal | src/quant/analytics/labeling.py:449-496 | the scan depends on nothing after its exit |
| Labeling.VolatilityIsCausal | src/quant/analytics/labeling.py:237-257 | entry volatility depends only on the window before entry |
| Labeling.LabelIsCausal | src/quant/analytics/labeling.py:369-549 | two series that agree from the volatility window to the exit give the identical record; a barrier exit is final whatever bars follow |
| Labeling.StopLabelledLossIff | src/quant/analytics/labeling.py:513-517 | a target is labelled +1 and a stop -1 except exactly for a short position under the pessimistic policy whose first touching bar reaches both barriers; that record says +1 at a strict loss |
| Labeling.LosingShortLabelledWin | src/quant/analytics/labeling.py:470-517 | three bars for which a losing short position is labelled +1 |
| Labeling.BarrierReturns | src/quant/analytics/labeling.py:498-511 | for all barriers, sides and exits at a barrier: the net return against the relative distance to that barrier and the round trip, exact for a collision |
| Labeling.ExitOnItsSide | src/quant/analytics/labeling.py:454-496 | an exit at the lower barrier is never above the entry price and one at the upper never below, whatever the tick grid does to the levels |
| Labeling.LossLabelGainIff | src/quant/analytics/labeling.py:498-517 | a barrier exit labelled -1 has made money if and only if the position is unsigned, left by its lower barrier or a collision, and moved by more than the round trip |
| Labeling.UnsignedWinLabelledLoss | src/quant/analytics/labeling.py:498-517 | three bars for which it does |
| Labeling.ExpirySignIff | src/quant/analytics/labeling.py:519-527 | the sign of an expiration agrees with the documented one if and only if the gross return lies outside the friction band, and is -1 inside it |
| Labeling.FlatExpiryLabelledLoss | src/quant/analytics/labeling.py:519-527 | flat prices give a signed expiration of -1 |
| Labeling.PercentageReturns | src/quant/analytics/labeling.py:428-433 | with percentage barriers a stopped position loses at least the stop distance and friction, one at its target gains at least the target less friction |
| Labeling.RecordedEntry | src/quant/analytics/labeling.py:388-404 | recorded volatility lies between floor and cap, and the recorded entry is worse than the open by the one-way friction |
| LabelRecords.RecordedVolatility | src/quant/analytics/labeling.py:400-403 | the recorded volatility is the estimate at the entry bar, held between floor and cap |
| LabelRecords.RecordedTimes | src/quant/analytics/labeling.py:376-447 | entry follows the event by the delay, exit follows entry by at most the horizon, and an expiration is at the horizon or at the end of the series |
| LabelRecords.RoundTripCost | src/quant/analytics/labeling.py:498-511 | the net return is the relative move in the direction of the position less twice spread and fee in basis points |
| Labeling.DefaultEventsComplete | src/quant/analytics/labeling.py:342-349 | default events see a complete window and their whole horizon |
| LabelRecords.DefaultEventsIff | src/quant/analytics/labeling.py:342-349 | an event is evaluated by default exactly when its window is complete and its whole horizon fits into the series |
| Labeling.LabelEvent | src/quant/analytics/labeling.py:369-549 | one event with the precomputed volatility gives the specified record |
| Labeling.LabelArrays | src/quant/analytics/labeling.py:297-551 | each error exactly for its cause, and otherwise the records of all tradable events in order, none exiting before it enters |
| LabelRecords.LabelledIff | src/quant/analytics/labeling.py:370-393 | an event has its record among the results when it and its entry bar lie in the series and that bar opens at a positive price, and there are no other records |
| LabelRecords.LabelsConcat | src/quant/analytics/labeling.py:370-549 | records keep the order of their events |
| LabelRecords.DirectionsIff | src/quant/analytics/labeling.py:343-386 | -1 is short, 0 unsigned and every other number long; without numbers all are long |
| Labeling.OrderedTimesNeverBackward | src/quant/analytics/labeling.py:186-191 | ordered time stamps never trip the record's own validator |

## Left out

- IEEE-754 rounding, NaN and infinities, and the type and finiteness checks that guard
  against them; all arithmetic is exact.
- Integer overflow of array indexes and timestamps; times are exact numbers.
- The Kelly, pseudo-Huber impact and epistemic regulariser formulas and the linear solve
  behind the unconstrained candidate: objective, gradient and candidate are arbitrary.
- TwoBudgetProjection.Project: for an alternation that has not settled after 40 passes it
  promises feasibility and signs but not the nearest point;
  `TwoBudgetProjection.ReturnedDistance` bounds how far the returned point is from it. When
  Newton's 15 steps suffice is told by the iterates (`NewtonPaths.SolvedIffPath`), not by a
  test on y alone.
- SpectralGradient.RunAscends: claims ascent for runs whose trial points are nearest points;
  `SpectralGradient.ZeroSlackRunAscends` says which gradient steps make them so. After a line search
  that fails ten times the code moves to the trial point without evaluating it, so nothing
  is claimed about the objective there beyond feasibility; `SpectralGradient.SmoothRunAccepts`
  says when that cannot happen.
- LotRounding.Unbiased: states the expectation for one coordinate from the chance of
  rounding up; random generators are replaced by arbitrary draws.
- The parameter validation of the projection and of lot rounding, which raises before any
  of the modelled code; weights are taken as positive, as those checks demand.
- PurgedSplits.Split: folds are returned as a list with the first failing fold, instead of
  being produced lazily; time stamps may be any reals.
- FractionalDifferencing.FractionalDifferentiator.Fit: models a given degree; the
  stationarity statistics and correlations stored beside it are not part of this model.
- FractionalDifferencing.FindDegree: the stationarity test is an arbitrary verdict on the
  degree. The filter is a direct sum where the source uses a Fourier transform.
- FalseDiscovery.ScreenCohort: starts from candidates already evaluated one by one; moments,
  Sharpe ratios, their probabilities and the minimum-length check are not part of this
  model.
- Entropies, the composite shock, the sigmoid haircut and the state records that carry
  them along; the tier machine receives shock and haircut as readings.
- ModelAveraging.OpposedModelsBreakTheFloor: one family of inputs; the exact condition is
  `ModelAveraging.RidgeFloorIffSemidefinite`. The estimation of the correlation matrix from
  histories is not part of this model.
- PlainDescent.SolutionIsOptimumIff: without the correlation penalty. With it, how near the
  descent comes to its fixed point within its iterations is not stated.
- MirrorOptimum.EntropicOptimum: asks of the logarithm only that x log x lies above its
  tangents; that an optimum with a level gradient exists is not stated.
- Lifecycle.GenerationalLifecycleEngine.StepGeneration: the ranker is a contract, and
  chromosomes, mating, mutation draws, fitness evaluation and the success ratio are inputs;
  so are the diversity measures behind the stagnation verdict.
- Labeling.BarrierReturns: speaks of the barriers on the record; how far logarithmic ones lie
  from the price is `LabelRecords.BarrierDistances`, for a logarithm that undoes the exponential.
- Chromosome codec, hypergamic selection, meta-labelling, market impact, minimax regret,
  tear sheets, price reaction and news classification: bounded formulas and lookup tables
  without state or search.
- Backtest runner, scripts, migrations, HTTP service, reports and web interface.
