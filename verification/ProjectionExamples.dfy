/** Inputs that reach the corners of the projection: a test passed only within its slack, the
    branch for nearly equal weights, and a second Newton step. */
module ProjectionExamples {
  import opened Vectors
  import opened Geometry
  import opened Projection
  import opened ThresholdPoints
  import opened Newton
  import opened NewtonPaths
  import opened TwoBudgetProjection

  // ---- the window is real ----

  lemma SumOfTwo(a: real, b: real)
    ensures Sum([a, b]) == a + b
  {
    assert [a, b][..1] == [a];
    SumSingle(a);
  }

  const MISS_Y := [2.0, 1.0]
  const MISS_LIMITS := Limits([1.0, 2.0], 2.0, 2.49999999999975)
  const MISS_X := [1.5, 0.5]
  const MISS_RESULT := [1.49999999999985, 0.49999999999995]
  const MISS_CLOSER := [1.50000000000005, 0.49999999999985]

  lemma MissThreshold()
    ensures MISS_X == Shrink(AbsOf(MISS_Y), Const(2, 0.5)) && Sum(MISS_X) == 2.0
    ensures Dot(MISS_LIMITS.c, MISS_X) == 2.5
  {
    assert AbsOf(MISS_Y) == MISS_Y;
    SumOfTwo(1.5, 0.5);
  }

  lemma MissScaled()
    ensures Over(MISS_LIMITS.b2, 2.5) == 0.9999999999999
    ensures Scale(0.9999999999999, MISS_X) == MISS_RESULT
    ensures AbsOf(MISS_RESULT) == MISS_RESULT && Sum(MISS_RESULT) <= 2.0
  {
    SumOfTwo(MISS_RESULT[0], MISS_RESULT[1]);
  }

  lemma MissFinished()
    ensures Finish(MISS_LIMITS, MISS_X, MISS_Y) == MISS_RESULT
  {
    hide Dot, Sum, Scale, Over;
    MissThreshold();
    MissScaled();
    assert Signed(MISS_X, MISS_Y) == MISS_X && AbsOf(MISS_X) == MISS_X;
  }

  lemma MissCloser()
    ensures Feasible(MISS_LIMITS, MISS_CLOSER)
    ensures Dist2(MISS_Y, MISS_CLOSER) < Dist2(MISS_Y, MISS_RESULT)
  {
    var z := MISS_CLOSER;
    assert AbsOf(z) == z;
    SumOfTwo(z[0], z[1]);
  }

  /** Two assets, y = (2, 1), weights (1, 2), leverage bound 2 and a drawdown budget just
      under 2.5: the leverage threshold 0.5 is accepted within the source's slack, and the
      rescaled point it returns is beaten by a feasible point. */
  lemma ToleranceExitCanMiss()
    ensures MISS_X == Shrink(AbsOf(MISS_Y), Const(2, 0.5)) && Sum(MISS_X) == MISS_LIMITS.b1
    ensures MISS_LIMITS.b2 < Dot(MISS_LIMITS.c, MISS_X) <= MISS_LIMITS.b2 + SOURCE_TOLERANCES.exit
    ensures !IsNearest(Region(MISS_LIMITS), MISS_Y, Finish(MISS_LIMITS, MISS_X, MISS_Y))
  {
    hide Dot, Dist2;
    MissThreshold();
    MissFinished();
    MissCloser();
  }

  // ---- the parallel branch is real ----

  const FLAT_Y := [40000000000030.000000000001, 40000000000030.000000000001]
  const FLAT_LIMITS := Limits([1.0, 1.0000000000005], 40.0, 40.0000000000070000000000005)
  const FLAT_X1 := [20.0, 20.0]
  const FLAT_X2 := [30.000000000001, 10.000000000001]

  lemma FlatPoints()
    ensures AbsOf(FLAT_Y) == FLAT_Y
    ensures Shrink(FLAT_Y, Const(2, 40000000000010.000000000001)) == FLAT_X1
    ensures Shrink(FLAT_Y, Scale(40000000000000.0, FLAT_LIMITS.c)) == FLAT_X2
    ensures Sum(FLAT_X1) == 40.0 && Sum(FLAT_X2) > 40.000000000001
    ensures Dot(FLAT_LIMITS.c, FLAT_X1) > 40.000000000008001 && Dot(FLAT_LIMITS.c, FLAT_X2) == FLAT_LIMITS.b2
    ensures Norm1(FLAT_Y) > 40.0
  {
    SumOfTwo(20.0, 20.0);
    SumOfTwo(FLAT_X2[0], FLAT_X2[1]);
    SumOfTwo(FLAT_Y[0], FLAT_Y[1]);
    var c := FLAT_LIMITS.c;
    assert AbsOf(FLAT_Y) == FLAT_Y;
    assert Mul(c, FLAT_X1) == [20.0, 20.00000000001];
    assert Mul(c, FLAT_X2) == [30.000000000001, 10.0000000000060000000000005];
    SumOfTwo(20.0, 20.00000000001);
    SumOfTwo(30.000000000001, 10.0000000000060000000000005);
  }

  lemma FlatGuards()
    ensures Positives(FLAT_LIMITS) && FewAssets(FLAT_LIMITS, SOURCE_TOLERANCES)
    ensures 0.0 < Spread(FLAT_LIMITS.c) < SOURCE_TOLERANCES.det
  {
    var c := FLAT_LIMITS.c;
    assert c[..1] == [1.0];
  }

  /** Two large equal positions whose weights differ by 5e-13: at the source's own slacks the
      branch is taken, and what it returns is not the nearest point. */
  method ParallelReached() returns (res: seq<real>, ghost exit: Exit)
    ensures exit == Parallel && !IsNearest(Region(FLAT_LIMITS), FLAT_Y, res)
  {
    hide Dot, Sum, Shrink, Const, Scale, AbsOf, IsNearest, Region, Spread, FewAssets, ProjectedBy, Norm1, LeveragePoint;
    FlatGuards();
    FlatPoints();
    res, exit := Project(FLAT_Y, FLAT_LIMITS, SOURCE_TOLERANCES, false);
    LeverageThresholdPoint(FLAT_LIMITS, FLAT_Y, FLAT_X1, 40000000000010.000000000001);
    ParallelIff(FLAT_LIMITS, SOURCE_TOLERANCES, false, FLAT_Y, res, exit, FLAT_X1, FLAT_X2);
  }

  // ---- a second Newton step is real ----

  const STEPS_Y := [10.0, 9.0, 1.0]
  const STEPS_LIMITS := Limits([1.0, 2.0, 1.0], 12.0, 17.0)
  const STEPS_X1 := [6.5, 5.5, 0.0]
  const STEPS_X2 := [7.8, 4.6, 0.0]
  const STEPS_PATH: seq<Multipliers> := [(0.0, 0.0), (0.0, 2.0)]
  const STEPS_RESULT := [7.0, 5.0, 0.0]

  lemma {:induction false} SumOfThreeEntries(x: seq<real>)
    requires |x| == 3
    ensures Sum(x) == x[0] + x[1] + x[2]
  {
    assert x[..2] == [x[0], x[1]];
    SumOfTwo(x[0], x[1]);
  }

  lemma DotOfThree(c: seq<real>, x: seq<real>)
    requires |c| == |x| == 3
    ensures Dot(c, x) == c[0] * x[0] + c[1] * x[1] + c[2] * x[2]
  {
    SumOfThreeEntries(Mul(c, x));
  }

  lemma StepsPoints()
    ensures AbsOf(STEPS_Y) == STEPS_Y && !Feasible(STEPS_LIMITS, STEPS_Y)
    ensures LeveragePoint(STEPS_LIMITS, STEPS_Y, STEPS_X1) && DrawdownPoint(STEPS_LIMITS, STEPS_Y, STEPS_X2)
    ensures Dot(STEPS_LIMITS.c, STEPS_X1) == 17.5 && Sum(STEPS_X2) == 12.4
  {
    var y, c := STEPS_Y, STEPS_LIMITS.c;
    assert AbsOf(y) == y;
    SumOfThreeEntries(y);
    SumOfThreeEntries(STEPS_X1);
    SumOfThreeEntries(STEPS_X2);
    DotOfThree(c, STEPS_X1);
    DotOfThree(c, STEPS_X2);
    assert STEPS_X1 == Shrink(y, Const(3, 3.5));
    LeverageThresholdPoint(STEPS_LIMITS, y, STEPS_X1, 3.5);
    assert STEPS_X2 == Shrink(y, Scale(2.2, c));
  }

  lemma StepsDet(l: Multipliers, ind: seq<real>)
    requires ind == Indicator(Shrink(STEPS_Y, Prices(STEPS_LIMITS.c, l.0, l.1))) && |ind| == 3
    ensures DetAt(STEPS_Y, STEPS_LIMITS.c, l)
         == (ind[0] + ind[1] + ind[2]) * (ind[0] + 4.0 * ind[1] + ind[2])
            - (ind[0] + 2.0 * ind[1] + ind[2]) * (ind[0] + 2.0 * ind[1] + ind[2])
  {
    var c := STEPS_LIMITS.c;
    SumOfThreeEntries(ind);
    DotOfThree(ind, c);
    DotOfThree(ind, Mul(c, c));
  }

  /** Which assets the prices leave, and what they leave of them. */
  lemma StepsKept()
    ensures var y, c := STEPS_Y, STEPS_LIMITS.c;
      && (forall i :: 0 <= i < 3 ==> Kept(y, c, (0.0, 0.0), i))
      && (forall i :: 0 <= i < 3 ==> (Kept(y, c, (0.0, 2.0), i) <==> i < 2))
      && (forall i :: 0 <= i < 3 ==> (Kept(y, c, (2.0, 1.0), i) <==> i < 2))
      && OnActive(y, c, (0.0, 0.0), (0.0, 2.0)) == [8.0, 5.0, -1.0]
      && OnActive(y, c, (0.0, 2.0), (2.0, 1.0)) == STEPS_RESULT
  {
  }

  lemma StepsIndicated(l: Multipliers)
    ensures var y, c := STEPS_Y, STEPS_LIMITS.c;
      var ind := Indicator(Shrink(y, Prices(c, l.0, l.1)));
      |ind| == 3 && forall i :: 0 <= i < 3 ==> ind[i] == if Kept(y, c, l, i) then 1.0 else 0.0
  {
    hide Indicator, Shrink, Prices, Kept;
    KeptIsIndicated(STEPS_Y, STEPS_LIMITS.c, l, 0);
    KeptIsIndicated(STEPS_Y, STEPS_LIMITS.c, l, 1);
    KeptIsIndicated(STEPS_Y, STEPS_LIMITS.c, l, 2);
  }

  lemma StepsFirst()
    ensures Advances(STEPS_Y, STEPS_LIMITS, SOURCE_TOLERANCES, (0.0, 0.0), (0.0, 2.0))
  {
    hide Dot, Sum, Kept, OnActive, Indicator, Shrink, Prices, DetAt;
    var y, k, l, m := STEPS_Y, STEPS_LIMITS, (0.0, 0.0), (0.0, 2.0);
    StepsKept();
    SumOfThreeEntries([8.0, 5.0, -1.0]);
    DotOfThree(k.c, [8.0, 5.0, -1.0]);
    StepsIndicated(l);
    StepsDet(l, Indicator(Shrink(y, Prices(k.c, 0.0, 0.0))));
    assert Kept(y, k.c, l, 2) && !Kept(y, k.c, m, 2);
    assert Balances(y, k, l, m) && Clipped(m) == m;
  }

  lemma StepsSecond()
    ensures var y, k, l, m := STEPS_Y, STEPS_LIMITS, (0.0, 2.0), (2.0, 1.0);
      && Regular(y, k.c, SOURCE_TOLERANCES, l) && Balances(y, k, l, m) && Accepts(y, k.c, SOURCE_TOLERANCES, l, m)
  {
    hide Dot, Sum, Kept, OnActive, Indicator, Shrink, Prices, DetAt;
    var y, k, l, m := STEPS_Y, STEPS_LIMITS, (0.0, 2.0), (2.0, 1.0);
    StepsKept();
    SumOfThreeEntries(STEPS_RESULT);
    DotOfThree(k.c, STEPS_RESULT);
    StepsIndicated(l);
    StepsDet(l, Indicator(Shrink(y, Prices(k.c, 0.0, 2.0))));
    assert Kept(y, k.c, l, 0);
    assert Balances(y, k, l, m);
  }

  lemma StepsAccepted()
    ensures AcceptedWithin(STEPS_Y, STEPS_LIMITS, SOURCE_TOLERANCES, STEPS_PATH, (2.0, 1.0))
  {
    hide Advances, Regular, Balances, Accepts;
    StepsFirst();
    StepsSecond();
  }

  /** Three assets whose first Newton step drops one and whose second returns (7, 5, 0), the
      nearest point. */
  method SecondStepSolves() returns (res: seq<real>)
    ensures res == STEPS_RESULT && IsNearest(Region(STEPS_LIMITS), STEPS_Y, res)
  {
    hide Dot, Sum, Shrink, Prices, AbsOf, IsNearest, Region, ProjectedBy, Norm1, LeveragePoint, DrawdownPoint,
         AcceptedWithin, Feasible;
    ghost var exit;
    StepsPoints();
    res, exit := Project(STEPS_Y, STEPS_LIMITS, SOURCE_TOLERANCES, false);
    StepsAccepted();
    PathSolvedExact(STEPS_LIMITS, SOURCE_TOLERANCES, STEPS_Y, res, exit, STEPS_X1, STEPS_X2, STEPS_PATH, (2.0, 1.0));
    assert res == STEPS_RESULT by { StepsSigned(); }
  }

  lemma StepsSigned()
    ensures Signed(Shrink(STEPS_Y, Prices(STEPS_LIMITS.c, 2.0, 1.0)), STEPS_Y) == STEPS_RESULT
  {
  }
}
