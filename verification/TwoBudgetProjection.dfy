/** project_two_l1_constraints: the five regimes in the source's order. */
module TwoBudgetProjection {
  import opened Vectors
  import opened Geometry
  import opened Thresholds
  import opened Projection
  import opened ThresholdPoints
  import opened Newton
  import opened NewtonPaths
  import opened Dykstra
  import opened Slack

  /** All assets carry the same drawdown weight. */
  ghost predicate Uniform(c: seq<real>) { exists c0 :: c0 > 0.0 && c == Const(|c|, c0) }

  /** With a bound of zero the origin is the whole region. */
  lemma DegenerateNearest(k: Limits, y: seq<real>)
    requires |y| == |k.c| && Positives(k) && k.b1 >= 0.0 && k.b2 >= 0.0
    requires k.b1 == 0.0 || k.b2 == 0.0
    ensures IsNearest(Region(k), y, Const(|y|, 0.0))
    ensures KeepsSigns(y, Const(|y|, 0.0))
  {
    var o := Const(|y|, 0.0);
    SumOfZeros(AbsOf(o));
    SumOfZeros(Mul(k.c, AbsOf(o)));
    forall z | z in Region(k) && |z| == |y| ensures z == o {
      OnlyOrigin(k, z);
    }
  }

  lemma OnlyOrigin(k: Limits, z: seq<real>)
    requires Feasible(k, z) && Positives(k) && (k.b1 == 0.0 || k.b2 == 0.0)
    ensures z == Const(|z|, 0.0)
  {
    var terms := Mul(k.c, AbsOf(z));
    forall i | 0 <= i < |z| ensures terms[i] >= 0.0 && (z[i] != 0.0 ==> terms[i] > 0.0) {
      NonNegProduct(k.c[i], Abs(z[i]));
      if z[i] != 0.0 {
        PositiveProduct(k.c[i], Abs(z[i]));
      }
    }
    if k.b1 == 0.0 {
      SumZero(AbsOf(z));
    } else {
      SumZero(terms);
    }
  }

  /** The result of one branch: signs restored, then scaled into the limits. */
  function Finish(k: Limits, x: seq<real>, y: seq<real>): seq<real>
    requires |x| == |y| == |k.c| && k.b1 > 0.0 && k.b2 > 0.0
  {
    ClampInto(k, Signed(x, y))
  }

  lemma FinishSound(k: Limits, x: seq<real>, y: seq<real>)
    requires |x| == |y| == |k.c| && k.b1 > 0.0 && k.b2 > 0.0 && Positives(k) && NonNeg(x)
    ensures Feasible(k, Finish(k, x, y)) && KeepsSigns(y, Finish(k, x, y))
    ensures Feasible(k, Signed(x, y)) ==> Finish(k, x, y) == Signed(x, y)
  {
    SignedKeepsSigns(x, y);
    ClampFeasible(k, Signed(x, y), y);
  }

  lemma ScaleDownStrict(w: seq<real>, r: seq<real>, have: real, limit: real, b: real)
    requires |w| == |r| && NonNeg(w) && 0.0 < limit < have
    requires Dot(w, AbsOf(r)) <= b && b > 0.0
    ensures Dot(w, AbsOf(ScaleDown(r, have, limit))) < b
  {
    hide Times, Sum, Mul, Scale, AbsOf;
    ShrinkFactor(have, limit);
    var f := Over(limit, have);
    AbsScale(f, r);
    DotSym(w, AbsOf(r));
    DotSym(w, Scale(f, AbsOf(r)));
    DotScale(f, AbsOf(r), Scale(f, AbsOf(r)), w);
    TimesMonotone(f, Dot(w, AbsOf(r)), b);
    TimesStrict(b, f, 1.0);
    TimesSym(b, f);
    TimesOne(b);
  }

  /** Inside the tolerance window of the first regime the rescaled point leaves leverage unspent. */
  lemma {:induction false} LeverageWindow(k: Limits, y: seq<real>, th: real, x: seq<real>)
    requires |y| == |k.c| == |x| && Positives(k) && k.b1 > 0.0 && k.b2 > 0.0 && !Feasible(k, y)
    requires x == Shrink(AbsOf(y), Const(|y|, th)) && Sum(x) == k.b1 && Dot(k.c, x) > k.b2
    ensures Norm1(Finish(k, x, y)) < k.b1
  {
    hide Sum, Mul, Dot, AbsOf, Scale, Shrink, Times, IsNearest, Signed, Const;
    var r := Signed(x, y);
    var cvar := Dot(k.c, AbsOf(r));
    SignedBounds(k, y, x);
    assert cvar > k.b2 && Norm1(r) <= k.b1 by {
      LeverageNearest(k.b1, y, th, x);
      LeverageOrder(k.b1, AbsOf(y), th, x);
    }
    var r1 := ScaleDown(r, cvar, k.b2);
    Norm1AsDot(r);
    Norm1AsDot(r1);
    ScaleDownStrict(Ones(|r|), r, cvar, k.b2, k.b1);
  }

  /** Dropping coordinates where y is zero only loses magnitude, and keeps all that y has. */
  lemma {:induction false} SignedBounds(k: Limits, y: seq<real>, x: seq<real>)
    requires |y| == |k.c| == |x| && Positives(k) && NonNeg(x)
    ensures Norm1(Signed(x, y)) <= Sum(x) && Dot(k.c, AbsOf(Signed(x, y))) <= Dot(k.c, x)
    ensures AtMost(AbsOf(y), x) ==> Dot(k.c, AbsOf(y)) <= Dot(k.c, AbsOf(Signed(x, y)))
  {
    hide Sum, Mul, Dot;
    var m := AbsOf(Signed(x, y));
    assert AtMost(m, x);
    SumLe(m, x);
    DotMonotone(k.c, m, x);
    if AtMost(AbsOf(y), x) {
      assert AtMost(AbsOf(y), m);
      DotMonotone(k.c, AbsOf(y), m);
    }
  }

  /** In the window of the second regime the rescaled point is never the nearest one. */
  lemma {:induction false} DrawdownWindow(k: Limits, y: seq<real>, x2: seq<real>)
    requires |y| == |k.c| == |x2| && Positives(k) && k.b1 > 0.0 && k.b2 > 0.0
    requires AbsOf(Signed(x2, y)) == x2 && Dot(k.c, x2) == k.b2 && Sum(x2) > k.b1
    requires !LeverageSuffices(k, y)
    ensures !IsNearest(Region(k), y, Finish(k, x2, y))
  {
    hide *;
    DrawdownWindowSlack(k, y, x2);
    var res := Finish(k, x2, y);
    DrawdownSlack(k, y, res);
    if IsNearest(Ball(Ones(|y|), k.b1), y, res) {
      LeverageWitness(k, y, res);
    }
  }

  lemma {:induction false} DrawdownWindowSlack(k: Limits, y: seq<real>, x2: seq<real>)
    requires |y| == |k.c| == |x2| && Positives(k) && k.b1 > 0.0 && k.b2 > 0.0
    requires AbsOf(Signed(x2, y)) == x2 && Dot(k.c, x2) == k.b2 && Sum(x2) > k.b1
    ensures Feasible(k, Finish(k, x2, y)) && Dot(k.c, AbsOf(Finish(k, x2, y))) < k.b2
  {
    hide Sum, Mul, Dot, Signed, AbsOf, Scale;
    var r := Signed(x2, y);
    ClampFeasible(k, r, y);
    ScaleDownStrict(k.c, r, Norm1(r), k.b1, k.b2);
  }

  lemma LeverageWitness(k: Limits, y: seq<real>, p: seq<real>)
    requires |y| == |k.c| && IsNearest(Ball(Ones(|y|), k.b1), y, p) && Feasible(k, p)
    ensures LeverageSuffices(k, y)
  {
  }

  /** A Newton point with a clipped multiplier is never the nearest one. */
  lemma {:induction false} NewtonWindow(k: Limits, y: seq<real>, x: seq<real>)
    requires |y| == |k.c| == |x| && Positives(k) && k.b1 > 0.0 && k.b2 > 0.0 && !Feasible(k, y)
    requires NonNeg(x) && Sum(x) < k.b1 && Dot(k.c, x) < k.b2
    ensures !IsNearest(Region(k), y, Finish(k, x, y))
  {
    hide Sum, Mul, Dot, IsNearest;
    SignedBounds(k, y, x);
    FinishSound(k, x, y);
    BothSlack(k, y, Signed(x, y));
  }

  // ---- when a result is the nearest point ----

  /** Both budgets are used up. */
  ghost predicate Spends(k: Limits, p: seq<real>)
    requires |p| == |k.c|
  {
    Norm1(p) == k.b1 && Dot(k.c, AbsOf(p)) == k.b2
  }

  /** When neither threshold point fits both limits, the nearest point uses up both. */
  lemma {:induction false} NearestSpendsBoth(k: Limits, y: seq<real>, x1: seq<real>, x2: seq<real>, p: seq<real>)
    requires Positives(k) && LeveragePoint(k, y, x1) && DrawdownPoint(k, y, x2) && !Feasible(k, y)
    requires Dot(k.c, x1) > k.b2 && Sum(x2) > k.b1
    requires Feasible(k, p) && IsNearest(Region(k), y, p)
    ensures Spends(k, p)
  {
    hide LeverageSuffices, IsNearest, Ball, Region, Sum, Mul, Dot, AbsOf, Shrink, Const, LeveragePoint, DrawdownPoint;
    PointSizes(k, y, x1);
    LeverageFails(k, y, x1);
    if Norm1(p) < k.b1 {
      LeverageSlack(k, y, p);
      DrawdownOnly(k, y, x2, p);
    }
    if Dot(k.c, AbsOf(p)) < k.b2 {
      DrawdownSlack(k, y, p);
      LeverageWitness(k, y, p);
    }
  }

  lemma LeverageFails(k: Limits, y: seq<real>, x1: seq<real>)
    requires Positives(k) && LeveragePoint(k, y, x1) && !Feasible(k, y) && Dot(k.c, x1) > k.b2
    ensures !LeverageSuffices(k, y) && Dot(k.c, AbsOf(y)) > k.b2
  {
    hide *;
    var th := LeverageThreshold(k, y, x1);
    PointSizes(k, y, x1);
    LeverageDispatch(k, y, th, x1);
  }

  lemma PointSizes(k: Limits, y: seq<real>, x1: seq<real>)
    requires LeveragePoint(k, y, x1)
    ensures |y| == |k.c| == |x1|
  {
  }

  /** The nearest point of the drawdown ball is its threshold point, with the signs of y. */
  lemma {:induction false} DrawdownOnly(k: Limits, y: seq<real>, x2: seq<real>, p: seq<real>)
    requires Positives(k) && DrawdownPoint(k, y, x2) && Dot(k.c, AbsOf(y)) > k.b2 && |p| == |y|
    ensures IsNearest(Ball(k.c, k.b2), y, p) <==> p == Signed(x2, y)
    ensures Norm1(Signed(x2, y)) == Sum(x2) && Dot(k.c, x2) == k.b2
  {
    hide IsNearest, Ball, Sum, Mul, Dot, Shrink, Signed, AbsOf;
    BeyondBall(k.c, k.b2, y, x2, p);
  }

  /** Inside the window of the first test: the rescaled point is the nearest one exactly when
      it is the threshold point of the drawdown ball. */
  lemma LeverageWindowExact(k: Limits, y: seq<real>, x1: seq<real>, x2: seq<real>)
    requires Positives(k) && k.b1 > 0.0 && k.b2 > 0.0 && !Feasible(k, y)
    requires LeveragePoint(k, y, x1) && DrawdownPoint(k, y, x2) && Dot(k.c, x1) > k.b2
    ensures |x1| == |y| == |x2| == |k.c| && Norm1(Finish(k, x1, y)) < k.b1
    ensures IsNearest(Region(k), y, Finish(k, x1, y)) <==> Finish(k, x1, y) == Signed(x2, y)
  {
    hide *;
    PointSizes(k, y, x1);
    PointLengths(k, y, x2);
    LeverageFails(k, y, x1);
    var th := LeverageThreshold(k, y, x1);
    ShrinkNonNeg(AbsOf(y), Const(|y|, th));
    FinishSound(k, x1, y);
    LeverageWindow(k, y, th, x1);
    var res := Finish(k, x1, y);
    LeverageSlack(k, y, res);
    FeasibleSize(k, res);
    DrawdownOnly(k, y, x2, res);
  }

  lemma PointLengths(k: Limits, y: seq<real>, x2: seq<real>)
    requires DrawdownPoint(k, y, x2)
    ensures |y| == |k.c| == |x2|
  {
  }

  lemma FeasibleSize(k: Limits, p: seq<real>)
    requires Feasible(k, p)
    ensures |p| == |k.c| && Norm1(p) <= k.b1 && Dot(k.c, AbsOf(p)) <= k.b2
  {
  }

  lemma ShrinkNonNeg(a: seq<real>, t: seq<real>)
    requires |a| == |t|
    ensures |AbsOf(a)| == |a| && NonNeg(Shrink(a, t))
  {
  }

  /** The clamp never adds magnitude. */
  lemma {:induction false} FinishBelow(k: Limits, x: seq<real>, y: seq<real>)
    requires |x| == |y| == |k.c| && k.b1 > 0.0 && k.b2 > 0.0 && Positives(k) && NonNeg(x)
    ensures Norm1(Finish(k, x, y)) <= Sum(x)
  {
    hide Sum, Mul, Dot, Signed, AbsOf, Scale, ScaleDown;
    var r := Signed(x, y);
    var r1 := ScaleDown(r, Dot(k.c, AbsOf(r)), k.b2);
    SignedBounds(k, y, x);
    ScaleDownLength(r, Dot(k.c, AbsOf(r)), k.b2);
    ScaleDownLength(r1, Norm1(r1), k.b1);
    Norm1AsDot(r);
    Norm1AsDot(r1);
    Norm1AsDot(Finish(k, x, y));
    ScaleDownSums(Ones(|r|), r, Dot(k.c, AbsOf(r)), k.b2);
    ScaleDownSums(Ones(|r1|), r1, Norm1(r1), k.b1);
  }

  lemma ScaleDownLength(r: seq<real>, have: real, limit: real)
    requires limit > 0.0
    ensures |ScaleDown(r, have, limit)| == |r|
  {
  }

  /** The parallel branch is never exact: its point leaves leverage unspent after the clamp. */
  lemma {:induction false} ParallelMisses(k: Limits, y: seq<real>, x1: seq<real>, x2: seq<real>, x: seq<real>)
    requires Positives(k) && k.b1 > 0.0 && k.b2 > 0.0 && !Feasible(k, y)
    requires LeveragePoint(k, y, x1) && DrawdownPoint(k, y, x2) && Dot(k.c, x1) > k.b2 && Sum(x2) > k.b1
    requires |x| == |y| && NonNeg(x) && (LeveragePoint(k, y, x) || Sum(x) < k.b1)
    ensures |y| == |k.c| && !IsNearest(Region(k), y, Finish(k, x, y))
  {
    hide IsNearest, Sum, Mul, Dot, AbsOf, LeveragePoint, DrawdownPoint, LeverageSuffices, Region, Finish, Signed;
    PointSizes(k, y, x1);
    if LeveragePoint(k, y, x) {
      PointsUnique(k, y, x1, x2, x, x2);
      LeverageWindowExact(k, y, x1, x2);
    } else {
      FinishBelow(k, x, y);
    }
    FinishSound(k, x, y);
    if IsNearest(Region(k), y, Finish(k, x, y)) {
      NearestSpendsBoth(k, y, x1, x2, Finish(k, x, y));
    }
  }

  /** What the alternation delivers: the last point of a full run of passes, finished, and
      the nearest point when its two half steps met. */
  ghost predicate AlternationResult(k: Limits, tol: Tolerances, y: seq<real>, res: seq<real>)
    requires |y| == |k.c| && k.b1 > 0.0 && k.b2 > 0.0
  {
    exists trace :: Swings(AbsOf(y), k, trace) && Exhausted(AbsOf(y), tol, trace)
      && EndsAt(k, y, trace[|trace| - 1], res)
  }

  ghost predicate EndsAt(k: Limits, y: seq<real>, last: Swing, res: seq<real>)
    requires |y| == |k.c| && k.b1 > 0.0 && k.b2 > 0.0
  {
    && |last.x| == |y| && Alternated(AbsOf(y), k, last.x, last.mid, last.p, last.q)
    && res == Finish(k, last.x, y) && (last.mid == last.x ==> IsNearest(Region(k), y, res))
  }

  /** The squared distance from the nearest point that an alternation leaves room for: twice
      what the gap of its half steps and the closing clamp can cost, and the clamp's move. */
  function AlternationBound(k: Limits, y: seq<real>, x: seq<real>, mid: seq<real>, p: seq<real>): real
    requires |y| == |k.c| == |x| == |mid| == |p| && k.b1 > 0.0 && k.b2 > 0.0
    requires |Finish(k, x, y)| == |y|
  {
    var xs, res := Signed(x, y), Finish(k, x, y);
    2.0 * (Dot(p, Minus(mid, x)) + Dot(Minus(y, xs), Minus(xs, res))) + Dist2(xs, res)
  }

  /** The point returned after an alternation is no farther from the nearest point than that,
      settled or not, whichever limit the last iterate kept. */
  lemma ReturnedDistance(k: Limits, y: seq<real>, x: seq<real>, mid: seq<real>, p: seq<real>, q: seq<real>,
                         n: seq<real>)
    requires |y| == |k.c| == |x| == |mid| == |p| && Positives(k) && k.b1 > 0.0 && k.b2 > 0.0
    requires Alternated(AbsOf(y), k, x, mid, p, q) && IsNearest(Region(k), y, n)
    ensures |Finish(k, x, y)| == |y| == |n|
    ensures Dist2(n, Finish(k, x, y)) <= AlternationBound(k, y, x, mid, p)
  {
    hide Sum, Mul, AbsOf, Finish, Signed, Alternated, IsNearest, Times;
    NearestFeasible(k, y, n);
    AlternatedBelow(AbsOf(y), k, x, mid, p, q);
    FinishSound(k, x, y);
    var xs, res := Signed(x, y), Finish(k, x, y);
    FeasibleSize(k, res);
    FeasibleSize(k, n);
    NearestAngle(k, y, n, res);
    SignedInequality(y, x, n);
    AlternationGap(AbsOf(y), k, x, mid, p, q, AbsOf(n));
    SplitAngle(y, xs, res, n);
  }

  lemma NearestAngle(k: Limits, y: seq<real>, n: seq<real>, z: seq<real>)
    requires Positives(k) && IsNearest(Region(k), y, n) && Feasible(k, z) && |z| == |y|
    ensures |n| == |y| && Dot(Minus(y, n), Minus(z, n)) <= 0.0
  {
    hide Sum, Mul, Dot, IsNearest, Feasible;
    RegionConvex(k);
    NearestIsVariational(Region(k), y, n);
    assert z in Region(k);
  }

  lemma AlternatedBelow(a: seq<real>, k: Limits, x: seq<real>, mid: seq<real>, p: seq<real>, q: seq<real>)
    requires Alternated(a, k, x, mid, p, q)
    ensures |x| == |a| && NonNeg(x) && AtMost(x, a)
  {
  }

  /** How far apart n and res are, taken by way of xs. */
  lemma SplitAngle(y: seq<real>, xs: seq<real>, res: seq<real>, n: seq<real>)
    requires |y| == |xs| == |res| == |n| && Dot(Minus(y, n), Minus(res, n)) <= 0.0
    ensures Dist2(n, res)
         <= 2.0 * (Dot(Minus(y, xs), Minus(n, xs)) + Dot(Minus(y, xs), Minus(xs, res))) + Dist2(xs, res)
  {
    hide Sum, Mul, Times;
    var v := Minus(n, res);
    DotNegated(Minus(y, n), res, n);
    DotAdd(Minus(y, n), v, Minus(y, res), v);
    DotAdd(Minus(y, xs), Minus(xs, res), Minus(y, res), v);
    DotAdd(Minus(n, xs), Minus(xs, res), v, Minus(y, xs));
    DotSym(Minus(n, xs), Minus(y, xs));
    DotSym(Minus(xs, res), Minus(y, xs));
    DotSym(v, Minus(y, xs));
    Cosine(xs, res, n);
    Dist2Positive(xs, n);
    Dist2Sym(n, res);
  }

  /** The exit an infeasible y leaves by, from its leverage point x1, its drawdown point x2
      and the outcome of the Newton iteration on y. */
  function ExitOf(k: Limits, tol: Tolerances, forceDykstra: bool, y: seq<real>, x1: seq<real>, x2: seq<real>): Exit
    requires |y| == |k.c| == |x1| == |x2| > 0 && Positives(k) && tol.Valid()
  {
    if Dot(k.c, x1) <= k.b2 + tol.exit then L1Only
    else if Sum(x2) <= k.b1 + tol.exit then WeightedOnly
    else if forceDykstra then Alternating
    else
      match NewtonOf(k, tol, y)
      case Solved(_, _) => BothActive
      case Flat(_) => Parallel
      case Failed => Alternating
  }

  /** The branch for nearly equal weights: the point of the one budget, finished. */
  ghost predicate FlatResult(k: Limits, y: seq<real>, budget: real, res: seq<real>)
    requires |y| == |k.c| && k.b1 > 0.0 && k.b2 > 0.0
  {
    exists x :: |x| == |y| && FlatPoint(y, budget, x) && res == Finish(k, x, y)
  }

  /** Which exit an infeasible y leaves by, what it returns, and when that is the nearest
      point, decided by functions of y alone: x1, x2 and the Newton outcome. */
  ghost predicate DispatchedBy(k: Limits, tol: Tolerances, forceDykstra: bool, y: seq<real>, res: seq<real>, exit: Exit,
                               x1: seq<real>, x2: seq<real>)
    requires |y| == |k.c| == |x1| == |x2| > 0 && Positives(k) && tol.Valid() && k.b1 > 0.0 && k.b2 > 0.0
  {
    && Feasible(k, res)
    && exit == ExitOf(k, tol, forceDykstra, y, x1, x2)
    && match exit
       case L1Only =>
         res == Finish(k, x1, y)
         && (IsNearest(Region(k), y, res) <==> Dot(k.c, x1) <= k.b2 || res == Signed(x2, y))
       case WeightedOnly =>
         res == Finish(k, x2, y) && (IsNearest(Region(k), y, res) <==> Sum(x2) <= k.b1)
       case BothActive => SolvedResult(k, tol, y, res)
       case Parallel =>
         && !IsNearest(Region(k), y, res) && 0.0 < Spread(k.c) < tol.det
         && FlatResult(k, y, NewtonOf(k, tol, y).budget, res)
       case Alternating =>
         AlternationResult(k, tol, y, res) && (IsNearest(Region(k), y, res) ==> Spends(k, res))
       case _ => false
  }

  /** The Newton point, finished: the nearest point exactly when no multiplier was clipped,
      and exactly when it spends both budgets.  At slack 0 none is clipped. */
  ghost predicate SolvedResult(k: Limits, tol: Tolerances, y: seq<real>, res: seq<real>)
    requires |y| == |k.c| == |res| > 0 && Positives(k) && tol.Valid() && k.b1 > 0.0 && k.b2 > 0.0
  {
    var o := NewtonOf(k, tol, y);
    && o.Solved? && |o.x| == |y| && res == Finish(k, o.x, y)
    && (IsNearest(Region(k), y, res) <==> !o.clipped)
    && (IsNearest(Region(k), y, res) <==> Spends(k, res))
    && (tol.exit == 0.0 ==> !o.clipped)
  }

  ghost predicate Dispatched(k: Limits, tol: Tolerances, forceDykstra: bool, y: seq<real>, res: seq<real>, exit: Exit)
    requires |y| == |k.c| > 0 && Positives(k) && tol.Valid() && k.b1 > 0.0 && k.b2 > 0.0
  {
    forall x1, x2 :: LeveragePoint(k, y, x1) && DrawdownPoint(k, y, x2) ==>
      DispatchedBy(k, tol, forceDykstra, y, res, exit, x1, x2)
  }

  /** Everything the projection promises of its result. */
  ghost predicate ProjectedBy(k: Limits, tol: Tolerances, forceDykstra: bool, y: seq<real>, res: seq<real>, exit: Exit)
    requires |y| == |k.c| && Positives(k) && tol.Valid()
  {
    if k.b1 <= 0.0 || k.b2 <= 0.0 then exit == Degenerate && res == Const(|y|, 0.0)
    else if Feasible(k, y) then exit == Inside && res == y
    else |y| > 0 && Dispatched(k, tol, forceDykstra, y, res, exit)
  }

  // ---- the regimes ----

  /** Steps 3 and 4: Newton on both multipliers, then alternating projections. */
  method BothBudgets(y: seq<real>, k: Limits, tol: Tolerances, forceDykstra: bool, ghost x1: seq<real>,
                     ghost x2: seq<real>)
    returns (res: seq<real>, ghost exit: Exit)
    requires |y| == |k.c| > 0 && Positives(k) && k.b1 > 0.0 && k.b2 > 0.0 && tol.Valid()
    requires !Feasible(k, y) && LeveragePoint(k, y, x1) && DrawdownPoint(k, y, x2)
    requires Dot(k.c, x1) > k.b2 + tol.exit && Sum(x2) > k.b1 + tol.exit
    ensures |x1| == |x2| == |y| && DispatchedBy(k, tol, forceDykstra, y, res, exit, x1, x2)
    ensures KeepsSigns(y, res)
    ensures exit == BothActive || exit == Parallel || exit == Alternating
  {
    hide IsNearest, Sum, Mul, Dot, AbsOf, LeveragePoint, DrawdownPoint, Region, Finish, Signed, Spread, Alternated,
         Norm1, FlatPoint, NewtonOf, AlternationResult, DispatchedBy, FlatResult, SolvedResult;
    PointSizes(k, y, x1);
    PointLengths(k, y, x2);
    var solved, x := false, [];
    if !forceDykstra {
      solved, x, exit := NewtonMultipliers(y, k, tol);
      OutcomeNonNeg(k, tol, y, x);
    }
    if !solved {
      ghost var trace;
      x, trace := Alternate(AbsOf(y), k, tol);
      exit := Alternating;
      AlternationDelivers(k, tol, y, x, trace);
    }
    res := Finish(k, x, y);
    FinishSound(k, x, y);
    BothBudgetsExact(k, tol, forceDykstra, y, x1, x2, x, exit);
  }

  lemma OutcomeNonNeg(k: Limits, tol: Tolerances, y: seq<real>, x: seq<real>)
    requires |y| == |k.c| > 0 && Positives(k) && k.b1 > 0.0 && k.b2 > 0.0 && tol.Valid()
    ensures var o := NewtonOf(k, tol, y);
      (o.Solved? && x == o.x) || (o.Flat? && FlatPoint(y, o.budget, x)) ==> |x| == |y| && NonNeg(x)
  {
    hide NewtonFrom, Sum, Mul, Dot, AbsOf, FlatPoint, IsNearest, Region, Signed, Spread;
    OutcomeWorth(y, k, tol, 0.0, 0.0, NEWTON_STEPS);
    var o := NewtonOf(k, tol, y);
    if o.Flat? && FlatPoint(y, o.budget, x) {
      FlatPointSpends(k, y, o.budget, x);
    }
  }

  /** The point of the one budget spends it, and is the leverage point when it is the
      leverage budget. */
  lemma {:induction false} FlatPointSpends(k: Limits, y: seq<real>, b: real, x: seq<real>)
    requires |y| == |k.c| && FlatPoint(y, b, x)
    ensures |x| == |y| && NonNeg(x) && Sum(x) == b
    ensures b == k.b1 ==> LeveragePoint(k, y, x)
  {
    hide Sum, Mul, Dot, AbsOf, Scale;
    var lam: real :| x == Shrink(AbsOf(y), Scale(lam, Ones(|y|))) && Dot(Ones(|y|), x) == b;
    ShrinkNonNeg(AbsOf(y), Scale(lam, Ones(|y|)));
    DotOnes(x);
  }

  lemma AlternationDelivers(k: Limits, tol: Tolerances, y: seq<real>, x: seq<real>, trace: seq<Swing>)
    requires |y| == |k.c| && Positives(k) && k.b1 > 0.0 && k.b2 > 0.0
    requires Swings(AbsOf(y), k, trace) && Exhausted(AbsOf(y), tol, trace) && x == trace[|trace| - 1].x
    requires var last := trace[|trace| - 1]; Alternated(AbsOf(y), k, x, last.mid, last.p, last.q)
    ensures |x| == |y| && NonNeg(x) && AlternationResult(k, tol, y, Finish(k, x, y))
  {
    hide IsNearest, Alternated, Region, Finish, Signed, AbsOf, Swings;
    var last := trace[|trace| - 1];
    AlternatedBelow(AbsOf(y), k, x, last.mid, last.p, last.q);
    assert |AbsOf(y)| == |y|;
    if last.mid == x {
      SettledIsNearest(y, k, x, last.p, last.q);
      NearestFeasible(k, y, Signed(x, y));
      FinishSound(k, x, y);
    }
  }

  lemma NearestFeasible(k: Limits, y: seq<real>, p: seq<real>)
    requires IsNearest(Region(k), y, p)
    ensures Feasible(k, p)
  {
  }

  lemma {:induction false} BothBudgetsExact(k: Limits, tol: Tolerances, forceDykstra: bool, y: seq<real>, x1: seq<real>,
                                            x2: seq<real>, x: seq<real>, exit: Exit)
    requires |y| == |k.c| == |x| == |x1| == |x2| > 0 && Positives(k) && k.b1 > 0.0 && k.b2 > 0.0 && tol.Valid()
    requires NonNeg(x)
    requires !Feasible(k, y) && LeveragePoint(k, y, x1) && DrawdownPoint(k, y, x2)
    requires Dot(k.c, x1) > k.b2 + tol.exit && Sum(x2) > k.b1 + tol.exit
    requires exit == ExitOf(k, tol, forceDykstra, y, x1, x2)
    requires exit == BothActive ==> x == NewtonOf(k, tol, y).x
    requires exit == Parallel ==> FlatPoint(y, NewtonOf(k, tol, y).budget, x)
    requires exit == Alternating ==> AlternationResult(k, tol, y, Finish(k, x, y))
    ensures DispatchedBy(k, tol, forceDykstra, y, Finish(k, x, y), exit, x1, x2)
  {
    hide IsNearest, Sum, Mul, Dot, AbsOf, LeveragePoint, DrawdownPoint, Region, Finish, Signed, Spread,
         AlternationResult, Norm1, NewtonFrom, FlatPoint;
    var res := Finish(k, x, y);
    FinishSound(k, x, y);
    FeasibleSize(k, res);
    if IsNearest(Region(k), y, res) {
      NearestSpendsBoth(k, y, x1, x2, res);
    }
    OutcomeWorth(y, k, tol, 0.0, 0.0, NEWTON_STEPS);
    var o := NewtonOf(k, tol, y);
    if exit == BothActive {
      if !o.clipped {
        NearestFeasible(k, y, Signed(x, y));
      } else {
        FinishBelow(k, x, y);
      }
    } else if exit == Parallel {
      FlatPointSpends(k, y, o.budget, x);
      ParallelMisses(k, y, x1, x2, x);
      PointsSpend(k, y, x1, x2);
      SpreadPositive(k, x1, x2);
    }
  }

  /** Both threshold points fail only for weights that differ. */
  lemma {:induction false} SpreadPositive(k: Limits, x1: seq<real>, x2: seq<real>)
    requires |x1| == |x2| == |k.c| > 0 && Positives(k)
    requires Sum(x1) == k.b1 && Dot(k.c, x2) == k.b2 && Dot(k.c, x1) > k.b2 && Sum(x2) > k.b1
    ensures Spread(k.c) > 0.0
  {
    hide Sum, Dot;
    if MaxEntry(k.c) <= MinEntry(k.c) {
      EntriesBetween(k.c);
      assert k.c == Const(|k.c|, MinEntry(k.c));
      UniformWeightsNeverBoth(k, x1, x2, MinEntry(k.c));
    }
  }

  /** Step 2, and the later steps when it is rejected. */
  method DrawdownRegime(y: seq<real>, k: Limits, tol: Tolerances, forceDykstra: bool, ghost x1: seq<real>)
    returns (res: seq<real>, ghost exit: Exit, ghost x2: seq<real>)
    requires |y| == |k.c| > 0 && Positives(k) && k.b1 > 0.0 && k.b2 > 0.0 && tol.Valid()
    requires !Feasible(k, y) && LeveragePoint(k, y, x1) && Dot(k.c, x1) > k.b2 + tol.exit
    ensures DrawdownPoint(k, y, x2) && |x1| == |x2| == |y| && DispatchedBy(k, tol, forceDykstra, y, res, exit, x1, x2)
    ensures KeepsSigns(y, res)
  {
    hide IsNearest, DrawdownSuffices, LeverageSuffices, Times, Mul, AbsOf, Const, Scale, Plus, Minus, Shrink, Dot, Sum,
         LeveragePoint, Finish, Signed, Region;
    PointSizes(k, y, x1);
    LeverageFails(k, y, x1);
    var a := AbsOf(y);
    var lam := RatioThreshold(a, k.c, k.b2);
    var point := Shrink(a, Scale(lam, k.c));
    x2 := point;
    DrawdownDispatch(k, y, lam, point);
    if Sum(point) <= k.b1 + tol.exit {
      res, exit := Finish(k, point, y), WeightedOnly;
      FinishSound(k, point, y);
      if Sum(point) > k.b1 {
        DrawdownWindow(k, y, point);
      }
    } else {
      res, exit := BothBudgets(y, k, tol, forceDykstra, x1, point);
    }
  }

  /** Step 1, and the later steps when it is rejected. */
  method LeverageRegime(y: seq<real>, k: Limits, tol: Tolerances, forceDykstra: bool)
    returns (res: seq<real>, ghost exit: Exit)
    requires |y| == |k.c| > 0 && Positives(k) && k.b1 > 0.0 && k.b2 > 0.0 && tol.Valid()
    requires !Feasible(k, y)
    ensures KeepsSigns(y, res) && Dispatched(k, tol, forceDykstra, y, res, exit)
  {
    hide LeverageSuffices, IsNearest, Times, Mul, AbsOf, Const, Scale, Shrink, Dot, Sum, LeveragePoint, DrawdownPoint,
         Finish, Signed, Region, DispatchedBy, Dispatched;
    var a := AbsOf(y);
    var th := L1Threshold(a, k.b1);
    var x1 := Shrink(a, Const(|y|, th));
    LeverageThresholdPoint(k, y, x1, th);
    ghost var x2;
    if Dot(k.c, x1) <= k.b2 + tol.exit {
      res, exit := Finish(k, x1, y), L1Only;
      FinishSound(k, x1, y);
      x2 := LeverageExit(k, tol, forceDykstra, y, x1, th);
    } else {
      res, exit, x2 := DrawdownRegime(y, k, tol, forceDykstra, x1);
    }
    DecidedOnce(k, tol, forceDykstra, y, res, exit, x1, x2);
  }

  /** The exit by the first test, exact or in its window. */
  lemma LeverageExit(k: Limits, tol: Tolerances, forceDykstra: bool, y: seq<real>, x1: seq<real>, th: real)
    returns (x2: seq<real>)
    requires |y| == |k.c| == |x1| > 0 && Positives(k) && k.b1 > 0.0 && k.b2 > 0.0 && tol.Valid() && !Feasible(k, y)
    requires x1 == Shrink(AbsOf(y), Const(|y|, th)) && Sum(x1) == k.b1
    requires LeveragePoint(k, y, x1) && Dot(k.c, x1) <= k.b2 + tol.exit && NonNeg(x1)
    ensures DrawdownPoint(k, y, x2) && |x2| == |y|
    ensures DispatchedBy(k, tol, forceDykstra, y, Finish(k, x1, y), L1Only, x1, x2)
  {
    hide LeverageSuffices, IsNearest, Times, Mul, AbsOf, Const, Scale, Shrink, Dot, Sum, LeveragePoint, DrawdownPoint,
         Finish, Signed, Region;
    var z1;
    z1, x2 := PointsExist(k, y);
    PointLengths(k, y, x2);
    LeverageDispatch(k, y, th, x1);
    FinishSound(k, x1, y);
    if Dot(k.c, x1) <= k.b2 {
      NearestFeasible(k, y, Signed(x1, y));
    } else {
      LeverageWindowExact(k, y, x1, x2);
    }
  }

  /** The two points are unique, so what one pair decides every pair decides. */
  lemma DecidedOnce(k: Limits, tol: Tolerances, forceDykstra: bool, y: seq<real>, res: seq<real>, exit: Exit,
                    x1: seq<real>, x2: seq<real>)
    requires |y| == |k.c| == |x1| == |x2| > 0 && Positives(k) && tol.Valid() && k.b1 > 0.0 && k.b2 > 0.0
    requires LeveragePoint(k, y, x1) && DrawdownPoint(k, y, x2)
    requires DispatchedBy(k, tol, forceDykstra, y, res, exit, x1, x2)
    ensures Dispatched(k, tol, forceDykstra, y, res, exit)
  {
    hide LeveragePoint, DrawdownPoint, DispatchedBy;
    forall z1, z2 | LeveragePoint(k, y, z1) && DrawdownPoint(k, y, z2)
      ensures |z1| == |z2| == |y| && DispatchedBy(k, tol, forceDykstra, y, res, exit, z1, z2)
    {
      PointsUnique(k, y, x1, x2, z1, z2);
    }
  }

  /** Projects y into the limits.  Exit and result are decided by functions of y: its leverage
      point, its drawdown point and the outcome of the Newton iteration.  So is whether the
      result is the nearest point, short of an alternation. */
  method Project(y: seq<real>, k: Limits, tol: Tolerances, forceDykstra: bool)
    returns (res: seq<real>, ghost exit: Exit)
    requires |y| == |k.c| && Positives(k) && tol.Valid()
    ensures KeepsSigns(y, res) && ProjectedBy(k, tol, forceDykstra, y, res, exit)
    ensures k.b1 >= 0.0 && k.b2 >= 0.0 ==> Feasible(k, res)
  {
    hide Dispatched, IsNearest, Norm1;
    if k.b1 <= 0.0 || k.b2 <= 0.0 {
      res, exit := Const(|y|, 0.0), Degenerate;
      if k.b1 >= 0.0 && k.b2 >= 0.0 {
        DegenerateNearest(k, y);
      }
    } else if Norm1(y) <= k.b1 && Dot(k.c, AbsOf(y)) <= k.b2 {
      res, exit := y, Inside;
    } else {
      EmptyIsFeasible(k, y);
      res, exit := LeverageRegime(y, k, tol, forceDykstra);
      DispatchedFeasible(k, tol, forceDykstra, y, res, exit);
    }
  }

  lemma EmptyIsFeasible(k: Limits, y: seq<real>)
    requires |y| == |k.c| && k.b1 > 0.0 && k.b2 > 0.0
    ensures !Feasible(k, y) ==> |y| > 0
  {
    if |y| == 0 {
      SumOfZeros(AbsOf(y));
      SumOfZeros(Mul(k.c, AbsOf(y)));
    }
  }

  lemma DispatchedFeasible(k: Limits, tol: Tolerances, forceDykstra: bool, y: seq<real>, res: seq<real>, exit: Exit)
    requires |y| == |k.c| > 0 && Positives(k) && tol.Valid() && k.b1 > 0.0 && k.b2 > 0.0
    requires Dispatched(k, tol, forceDykstra, y, res, exit)
    ensures Feasible(k, res)
  {
    hide LeveragePoint, DrawdownPoint, Feasible;
    var x1, x2 := PointsExist(k, y);
    PointLengths(k, y, x2);
    PointSizes(k, y, x1);
    assert DispatchedBy(k, tol, forceDykstra, y, res, exit, x1, x2);
  }

  // ---- what follows for a caller ----

  /** The nearest point is y itself or the nearest point of one ball alone. */
  ghost predicate OneBallSettles(k: Limits, y: seq<real>) {
    Feasible(k, y) || LeverageSuffices(k, y) || DrawdownSuffices(k, y)
  }

  /** What the projection asks of y to find its nearest point at slack 0: a single ball, or an
      iteration that reproduces its active set. */
  ghost predicate Solvable(k: Limits, tol: Tolerances, y: seq<real>)
    requires |y| == |k.c| && Positives(k) && tol.Valid()
  {
    OneBallSettles(k, y) || (|y| > 0 && NewtonOf(k, tol, y).Solved?)
  }

  /** The result is the nearest point whenever the leverage ball settles the matter, and at
      slack 0 for every solvable y.  Unless the iteration fails, only for those. */
  lemma ProjectionExact(k: Limits, tol: Tolerances, forceDykstra: bool, y: seq<real>, res: seq<real>, exit: Exit)
    requires |y| == |k.c| && Positives(k) && tol.Valid() && k.b1 >= 0.0 && k.b2 >= 0.0
    requires ProjectedBy(k, tol, forceDykstra, y, res, exit)
    ensures LeverageSuffices(k, y) || Feasible(k, y) ==> IsNearest(Region(k), y, res)
    ensures tol.exit == 0.0 && OneBallSettles(k, y) ==> IsNearest(Region(k), y, res)
    ensures tol.exit == 0.0 && !forceDykstra && Solvable(k, tol, y) ==> IsNearest(Region(k), y, res)
    ensures tol.exit == 0.0 && !forceDykstra && k.b1 > 0.0 && k.b2 > 0.0 && |y| > 0 && !NewtonOf(k, tol, y).Failed? ==>
      (IsNearest(Region(k), y, res) <==> Solvable(k, tol, y))
  {
    hide Dispatched, IsNearest, Norm1, Dot, Region, LeverageSuffices, DrawdownSuffices, NewtonOf;
    if k.b1 == 0.0 || k.b2 == 0.0 {
      DegenerateNearest(k, y);
    } else if Feasible(k, y) {
      SelfIsNearest(k, y);
    } else {
      InfeasibleExact(k, tol, forceDykstra, y, res, exit);
    }
  }

  lemma SelfIsNearest(k: Limits, y: seq<real>)
    requires Feasible(k, y)
    ensures IsNearest(Region(k), y, y)
  {
    hide IsNearest;
    SelfNearest(Region(k), y);
  }

  lemma InfeasibleExact(k: Limits, tol: Tolerances, forceDykstra: bool, y: seq<real>, res: seq<real>, exit: Exit)
    requires |y| == |k.c| > 0 && Positives(k) && tol.Valid() && k.b1 > 0.0 && k.b2 > 0.0
    requires !Feasible(k, y) && Dispatched(k, tol, forceDykstra, y, res, exit)
    ensures LeverageSuffices(k, y) ==> IsNearest(Region(k), y, res)
    ensures tol.exit == 0.0 && DrawdownSuffices(k, y) ==> IsNearest(Region(k), y, res)
    ensures tol.exit == 0.0 && !forceDykstra && Solvable(k, tol, y) ==> IsNearest(Region(k), y, res)
    ensures tol.exit == 0.0 && !forceDykstra && !NewtonOf(k, tol, y).Failed? ==>
      (IsNearest(Region(k), y, res) <==> Solvable(k, tol, y))
  {
    hide LeveragePoint, DrawdownPoint, IsNearest, Norm1, Dot, Sum, Region, LeverageSuffices, DrawdownSuffices, Finish,
         Signed, AbsOf, Feasible, Shrink, Const, Scale, AlternationResult, NewtonOf, FlatResult, Spread, Spends;
    var x1, x2 := Decided(k, tol, forceDykstra, y, res, exit);
    TestsSettle(k, y, x1, x2);
  }

  /** The two points of an infeasible y and what they decide. */
  lemma Decided(k: Limits, tol: Tolerances, forceDykstra: bool, y: seq<real>, res: seq<real>, exit: Exit)
    returns (x1: seq<real>, x2: seq<real>)
    requires |y| == |k.c| > 0 && Positives(k) && tol.Valid() && k.b1 > 0.0 && k.b2 > 0.0
    requires Dispatched(k, tol, forceDykstra, y, res, exit)
    ensures LeveragePoint(k, y, x1) && DrawdownPoint(k, y, x2) && |x1| == |x2| == |y|
    ensures DispatchedBy(k, tol, forceDykstra, y, res, exit, x1, x2)
  {
    hide LeveragePoint, DrawdownPoint, DispatchedBy;
    x1, x2 := PointsExist(k, y);
    PointSizes(k, y, x1);
    PointLengths(k, y, x2);
  }

  /** The two tests at slack 0 tell which single ball settles the matter. */
  lemma {:induction false} TestsSettle(k: Limits, y: seq<real>, x1: seq<real>, x2: seq<real>)
    requires |y| == |k.c| == |x1| == |x2| && Positives(k) && !Feasible(k, y)
    requires LeveragePoint(k, y, x1) && DrawdownPoint(k, y, x2)
    ensures LeverageSuffices(k, y) <==> Dot(k.c, x1) <= k.b2
    ensures Dot(k.c, x1) > k.b2 ==> (DrawdownSuffices(k, y) <==> Sum(x2) <= k.b1)
  {
    hide LeveragePoint, DrawdownPoint, IsNearest, Dot, Sum, Region, LeverageSuffices, DrawdownSuffices, Signed, AbsOf,
         Feasible, Shrink, Const, Scale;
    var th := LeverageThreshold(k, y, x1);
    LeverageDispatch(k, y, th, x1);
    if Dot(k.c, x1) > k.b2 {
      DrawdownSufficesIff(k, y, x2);
    }
  }

  lemma {:induction false} DrawdownSufficesIff(k: Limits, y: seq<real>, x2: seq<real>)
    requires Positives(k) && DrawdownPoint(k, y, x2) && Dot(k.c, AbsOf(y)) > k.b2
    ensures DrawdownSuffices(k, y) <==> Sum(x2) <= k.b1
  {
    hide Times, Mul, AbsOf, Scale, Shrink, Dot, Sum, DrawdownSuffices;
    var lam: real :| x2 == Shrink(AbsOf(y), Scale(lam, k.c)) && Dot(k.c, x2) == k.b2;
    DrawdownDispatch(k, y, lam, x2);
  }

  /** When neither point passes its test, the parallel branch is taken exactly for weights
      whose spread is below the slack, on any portfolio of up to a million assets. */
  lemma {:induction false} ParallelIff(k: Limits, tol: Tolerances, forceDykstra: bool, y: seq<real>, res: seq<real>,
                                       exit: Exit, x1: seq<real>, x2: seq<real>)
    requires |y| == |k.c| == |x1| == |x2| && Positives(k) && tol.Valid() && k.b1 > 0.0 && k.b2 > 0.0
    requires FewAssets(k, tol)
    requires !Feasible(k, y) && LeveragePoint(k, y, x1) && DrawdownPoint(k, y, x2)
    requires ProjectedBy(k, tol, forceDykstra, y, res, exit)
    ensures exit == Parallel <==>
      !forceDykstra && Spread(k.c) < tol.det && Dot(k.c, x1) > k.b2 + tol.exit && Sum(x2) > k.b1 + tol.exit
    ensures exit == Parallel ==> !IsNearest(Region(k), y, res)
  {
    hide LeveragePoint, DrawdownPoint, IsNearest, Dot, Sum, Region, Finish, Signed, Feasible, NewtonOf, Spread,
         FewAssets, AlternationResult, FlatResult, SolvedResult;
    assert DispatchedBy(k, tol, forceDykstra, y, res, exit, x1, x2);
    InfeasibleHolds(k, y);
    FlatIff(k, tol, y);
  }

  lemma InfeasibleHolds(k: Limits, y: seq<real>)
    requires |y| == |k.c| && !Feasible(k, y) && k.b1 > 0.0 && k.b2 > 0.0
    ensures exists i :: 0 <= i < |y| && y[i] != 0.0
  {
    hide Sum;
    if forall i :: 0 <= i < |y| ==> y[i] == 0.0 {
      SumOfZeros(AbsOf(y));
      SumOfZeros(Mul(k.c, AbsOf(y)));
    }
  }

  /** So for such weights the result at slack 0 is the nearest point exactly when a single
      ball settles the matter. */
  lemma NearlyEqualWeights(k: Limits, tol: Tolerances, y: seq<real>, res: seq<real>, exit: Exit)
    requires |y| == |k.c| > 0 && Positives(k) && tol.Valid() && k.b1 > 0.0 && k.b2 > 0.0 && FewAssets(k, tol)
    requires tol.exit == 0.0 && Spread(k.c) < tol.det && ProjectedBy(k, tol, false, y, res, exit)
    ensures IsNearest(Region(k), y, res) <==> OneBallSettles(k, y)
  {
    hide IsNearest, Region, Feasible, NewtonOf, Spread, FewAssets, LeverageSuffices, DrawdownSuffices, ProjectedBy;
    ProjectionExact(k, tol, false, y, res, exit);
    if !Feasible(k, y) {
      InfeasibleHolds(k, y);
      FlatIff(k, tol, y);
    }
  }

  /** When the assets y holds carry the solution, both budgets bind beyond the slack and the
      fallback is not forced, the result is the nearest point, at any slack. */
  lemma {:induction false} SolvedAtOnceExact(k: Limits, tol: Tolerances, y: seq<real>, res: seq<real>, exit: Exit,
                                             x1: seq<real>, x2: seq<real>)
    requires |y| == |k.c| == |x1| == |x2| > 0 && Positives(k) && tol.Valid() && k.b1 > 0.0 && k.b2 > 0.0
    requires !Feasible(k, y) && LeveragePoint(k, y, x1) && DrawdownPoint(k, y, x2)
    requires Dot(k.c, x1) > k.b2 + tol.exit && Sum(x2) > k.b1 + tol.exit && SolvedAtOnce(k, tol, y)
    requires ProjectedBy(k, tol, false, y, res, exit)
    ensures exit == BothActive && IsNearest(Region(k), y, res)
  {
    hide LeveragePoint, DrawdownPoint, IsNearest, Dot, Sum, Region, Finish, Signed, Feasible, NewtonOf, Spread,
         AlternationResult, FlatResult, SolvedAtOnce;
    assert DispatchedBy(k, tol, false, y, res, exit, x1, x2);
    FirstStepSolves(k, tol, y);
  }

  /** When both tests fail and the iterates of the Newton loop reach, within 15 steps, an
      active set whose own solution has non-negative multipliers and keeps it, the result is
      the nearest point, and the point of those multipliers. */
  lemma {:induction false} PathSolvedExact(k: Limits, tol: Tolerances, y: seq<real>, res: seq<real>, exit: Exit,
                                           x1: seq<real>, x2: seq<real>, path: seq<Multipliers>, m: Multipliers)
    requires |y| == |k.c| == |x1| == |x2| > 0 && Positives(k) && tol.Valid() && k.b1 > 0.0 && k.b2 > 0.0
    requires !Feasible(k, y) && LeveragePoint(k, y, x1) && DrawdownPoint(k, y, x2)
    requires Dot(k.c, x1) > k.b2 + tol.exit && Sum(x2) > k.b1 + tol.exit
    requires AcceptedWithin(AbsOf(y), k, tol, path, m) && m.0 >= 0.0 && m.1 >= 0.0
    requires ProjectedBy(k, tol, false, y, res, exit)
    ensures exit == BothActive && IsNearest(Region(k), y, res) && Spends(k, res)
    ensures res == Signed(Shrink(AbsOf(y), Prices(k.c, m.0, m.1)), y)
  {
    hide LeveragePoint, DrawdownPoint, IsNearest, Dot, Sum, Region, Finish, Signed, Feasible, Spread, AlternationResult,
         FlatResult, AcceptedWithin, NewtonFrom, Shrink, Prices;
    assert DispatchedBy(k, tol, false, y, res, exit, x1, x2);
    PathSolves(k, tol, y, path, m);
    OutcomeWorth(y, k, tol, 0.0, 0.0, NEWTON_STEPS);
    var x := NewtonOf(k, tol, y).x;
    NearestFeasible(k, y, Signed(x, y));
    FinishSound(k, x, y);
  }

  /** Assets with one common weight leave by a single-ball exit: one ball always settles the
      matter. */
  lemma UniformLeavesEarly(k: Limits, tol: Tolerances, forceDykstra: bool, y: seq<real>, res: seq<real>, exit: Exit)
    requires |y| == |k.c| && Positives(k) && tol.Valid() && ProjectedBy(k, tol, forceDykstra, y, res, exit)
    requires Uniform(k.c)
    ensures exit != BothActive && exit != Parallel && exit != Alternating
    ensures k.b1 > 0.0 && k.b2 > 0.0 ==> OneBallSettles(k, y)
  {
    hide LeveragePoint, DrawdownPoint, IsNearest, Norm1, Dot, Sum, Region, Finish, Signed, AbsOf, Uniform, Feasible,
         AlternationResult, NewtonOf, FlatResult, SolvedResult, Spread, LeverageSuffices, DrawdownSuffices;
    if k.b1 > 0.0 && k.b2 > 0.0 && !Feasible(k, y) {
      var x1, x2 := Decided(k, tol, forceDykstra, y, res, exit);
      PointsSpend(k, y, x1, x2);
      TestsSettle(k, y, x1, x2);
      if Dot(k.c, x1) > k.b2 && Sum(x2) > k.b1 {
        UniformExcluded(k, x1, x2);
      }
    }
  }

  lemma {:induction false} PointsSpend(k: Limits, y: seq<real>, x1: seq<real>, x2: seq<real>)
    requires LeveragePoint(k, y, x1) && DrawdownPoint(k, y, x2)
    ensures Sum(x1) == k.b1 && Dot(k.c, x2) == k.b2
  {
    hide Dot, Sum, AbsOf, Shrink, Const, Scale;
    var th := LeverageThreshold(k, y, x1);
  }

  /** Projecting a second time changes nothing. */
  lemma ProjectionIdempotent(k: Limits, tol: Tolerances, forceDykstra: bool, y: seq<real>, res: seq<real>, exit: Exit,
                             again: seq<real>, exit2: Exit)
    requires Positives(k) && tol.Valid() && |y| == |k.c| == |res| && k.b1 >= 0.0 && k.b2 >= 0.0 && Feasible(k, res)
    requires ProjectedBy(k, tol, forceDykstra, y, res, exit) && ProjectedBy(k, tol, forceDykstra, res, again, exit2)
    ensures again == res
  {
    hide Dispatched;
  }

  lemma {:induction false} UniformExcluded(k: Limits, x1: seq<real>, x2: seq<real>)
    requires |x1| == |x2| == |k.c| && Sum(x1) == k.b1 && Dot(k.c, x2) == k.b2
    requires Dot(k.c, x1) > k.b2 && Sum(x2) > k.b1
    ensures !Uniform(k.c)
  {
    if Uniform(k.c) {
      var c0 :| c0 > 0.0 && k.c == Const(|k.c|, c0);
      UniformWeightsNeverBoth(k, x1, x2, c0);
    }
  }

  /** Between inputs that leave by an exact exit the projection never moves points apart. */
  lemma ExactProjectionsNonExpansive(k: Limits, y1: seq<real>, y2: seq<real>, r1: seq<real>, r2: seq<real>)
    requires |y1| == |y2| == |k.c| && Positives(k)
    requires IsNearest(Region(k), y1, r1) && IsNearest(Region(k), y2, r2)
    ensures Dist2(r1, r2) <= Dist2(y1, y2)
  {
    RegionConvex(k);
    NonExpansive(Region(k), y1, y2, r1, r2);
  }
}
