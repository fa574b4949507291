/** The projection of a candidate allocation onto the leverage and drawdown limits:
    five regimes tried in order, and a final rescaling into the limits. */
module Projection {
  import opened Vectors
  import opened Geometry

  /** The source's numerical slacks, kept as parameters: `exit` widens the acceptance
      tests, `det` guards the division by the determinant, `conv` stops the alternation. */
  datatype Tolerances = Tolerances(exit: real, det: real, conv: real) {
    predicate Valid() { exit >= 0.0 && det > 0.0 && conv > 0.0 }
  }

  const SOURCE_TOLERANCES := Tolerances(0.000000000001, 0.000000000001, 0.0000001)
  const NEWTON_STEPS := 15
  const DYKSTRA_PASSES := 40

  datatype Exit = Degenerate | Inside | L1Only | WeightedOnly | BothActive | Parallel | Alternating

  ghost predicate Positives(k: Limits) { Positive(k.c) }

  /** The nearest point of the leverage ball alone already respects the drawdown budget. */
  ghost predicate LeverageSuffices(k: Limits, y: seq<real>) {
    exists p :: IsNearest(Ball(Ones(|k.c|), k.b1), y, p) && Feasible(k, p)
  }

  /** The nearest point of the drawdown ball alone already respects the leverage bound. */
  ghost predicate DrawdownSuffices(k: Limits, y: seq<real>) {
    exists p :: IsNearest(Ball(k.c, k.b2), y, p) && Feasible(k, p)
  }

  // ---- scaling into the limits ----

  function ScaleDown(r: seq<real>, have: real, limit: real): seq<real>
    requires limit > 0.0
  {
    if have > limit then Scale(Over(limit, have), r) else r
  }

  /** The hard clamp at the end of every branch: drawdown first, leverage second. */
  function ClampInto(k: Limits, r: seq<real>): seq<real>
    requires |r| == |k.c| && k.b1 > 0.0 && k.b2 > 0.0
  {
    var r1 := ScaleDown(r, Dot(k.c, AbsOf(r)), k.b2);
    ScaleDown(r1, Norm1(r1), k.b1)
  }

  lemma ShrinkFactor(have: real, limit: real)
    requires 0.0 < limit < have
    ensures 0.0 < Over(limit, have) < 1.0 && Times(Over(limit, have), have) == limit
  {
    Fraction(limit, have);
  }

  lemma AbsScale(f: real, r: seq<real>)
    requires f >= 0.0
    ensures AbsOf(Scale(f, r)) == Scale(f, AbsOf(r))
  {
    forall i | 0 <= i < |r| ensures Abs(Times(f, r[i])) == Times(f, Abs(r[i])) {
      if r[i] < 0.0 {
        NonNegProduct(f, -r[i]);
        assert Times(f, -r[i]) == -Times(f, r[i]);
      } else {
        NonNegProduct(f, r[i]);
      }
    }
  }

  /** Scaling by limit/have brings a weighted absolute sum from have to limit and
      shrinks every other one. */
  lemma ScaleDownSums(w: seq<real>, r: seq<real>, have: real, limit: real)
    requires |w| == |r| && NonNeg(w) && limit > 0.0
    ensures Dot(w, AbsOf(ScaleDown(r, have, limit))) <= Dot(w, AbsOf(r))
    ensures have == Dot(w, AbsOf(r)) ==> Dot(w, AbsOf(ScaleDown(r, have, limit))) <= limit
  {
    if have > limit {
      ShrinkFactor(have, limit);
      var f := Over(limit, have);
      AbsScale(f, r);
      DotSym(w, AbsOf(r));
      DotSym(w, Scale(f, AbsOf(r)));
      DotScale(f, AbsOf(r), Scale(f, AbsOf(r)), w);
      DotNonNeg(w, AbsOf(r));
      TimesMonotone(Dot(w, AbsOf(r)), f, 1.0);
      TimesSym(f, Dot(w, AbsOf(r)));
    }
  }

  lemma ScaleDownKeepsSigns(y: seq<real>, r: seq<real>, have: real, limit: real)
    requires KeepsSigns(y, r) && limit > 0.0
    ensures KeepsSigns(y, ScaleDown(r, have, limit))
  {
    if have > limit {
      ShrinkFactor(have, limit);
      var f := Over(limit, have);
      forall i | 0 <= i < |r|
        ensures r[i] >= 0.0 ==> Times(f, r[i]) >= 0.0
        ensures r[i] <= 0.0 ==> Times(f, r[i]) <= 0.0
      {
        TimesMonotone(f, 0.0, Max(0.0, r[i]));
        TimesMonotone(f, Min(0.0, r[i]), 0.0);
      }
    }
  }

  lemma ClampFeasible(k: Limits, r: seq<real>, y: seq<real>)
    requires |r| == |k.c| && Positives(k) && k.b1 > 0.0 && k.b2 > 0.0
    ensures Feasible(k, ClampInto(k, r))
    ensures Feasible(k, r) ==> ClampInto(k, r) == r
    ensures KeepsSigns(y, r) ==> KeepsSigns(y, ClampInto(k, r))
  {
    var r1 := ScaleDown(r, Dot(k.c, AbsOf(r)), k.b2);
    var r2 := ScaleDown(r1, Norm1(r1), k.b1);
    ScaleDownSums(k.c, r, Dot(k.c, AbsOf(r)), k.b2);
    Norm1AsDot(r1);
    Norm1AsDot(r2);
    ScaleDownSums(Ones(|r1|), r1, Norm1(r1), k.b1);
    ScaleDownSums(k.c, r1, Norm1(r1), k.b1);
    if KeepsSigns(y, r) {
      ScaleDownKeepsSigns(y, r, Dot(k.c, AbsOf(r)), k.b2);
      ScaleDownKeepsSigns(y, r1, Norm1(r1), k.b1);
    }
  }

  /** Scaling down is one multiple, and one that spends its limit when it acts. */
  lemma ScaleDownSpends(w: seq<real>, r: seq<real>, limit: real) returns (t: real)
    requires |w| == |r| && NonNeg(w) && limit > 0.0
    ensures 0.0 < t <= 1.0 && ScaleDown(r, Dot(w, AbsOf(r)), limit) == Scale(t, r)
    ensures t == 1.0 ==> ScaleDown(r, Dot(w, AbsOf(r)), limit) == r
    ensures t < 1.0 ==> Dot(w, AbsOf(Scale(t, r))) == limit
  {
    hide Dot, Sum, Mul, Times, Over;
    var have := Dot(w, AbsOf(r));
    if have > limit {
      t := Over(limit, have);
      ShrinkFactor(have, limit);
      AbsScale(t, r);
      DotSym(w, AbsOf(r));
      DotSym(w, Scale(t, AbsOf(r)));
      DotScale(t, AbsOf(r), Scale(t, AbsOf(r)), w);
    } else {
      t := 1.0;
      forall i | 0 <= i < |r| ensures Times(1.0, r[i]) == r[i] {
        TimesOne(r[i]);
      }
      assert Scale(1.0, r) == r;
    }
  }

  /** The clamp takes the largest multiple that fits: all of r, or one that uses up a limit. */
  lemma ClampIsLargest(k: Limits, r: seq<real>) returns (t: real)
    requires |r| == |k.c| && Positives(k) && k.b1 > 0.0 && k.b2 > 0.0
    ensures 0.0 < t <= 1.0 && ClampInto(k, r) == Scale(t, r)
    ensures t == 1.0 || Norm1(ClampInto(k, r)) == k.b1 || Dot(k.c, AbsOf(ClampInto(k, r))) == k.b2
  {
    hide Dot, Sum, Mul, Times, Over, ScaleDown;
    var u := ScaleDownSpends(k.c, r, k.b2);
    var r1 := Scale(u, r);
    Norm1AsDot(r1);
    var v := ScaleDownSpends(Ones(|r|), r1, k.b1);
    Norm1AsDot(Scale(v, r1));
    t := Times(v, u);
    PositiveProduct(v, u);
    TimesMonotone(v, u, 1.0);
    TimesOne(v);
    forall i | 0 <= i < |r| ensures Times(t, r[i]) == Times(v, r1[i]) {
      TimesAssoc(v, u, r[i]);
    }
    assert Scale(t, r) == Scale(v, r1);
    if v == 1.0 && u == 1.0 {
      TimesOne(1.0);
    }
  }

  lemma SignedKeepsSigns(x: seq<real>, y: seq<real>)
    requires |x| == |y| && NonNeg(x)
    ensures KeepsSigns(y, Signed(x, y))
  {
  }

  // ---- the single-budget regimes ----

  /** A threshold that spends less than the whole vector is positive. */
  lemma ThresholdPositive(w: seq<real>, a: seq<real>, lam: real, b: real)
    requires |w| == |a| && Positive(w) && NonNeg(a)
    requires Dot(w, Shrink(a, Scale(lam, w))) == b
    ensures lam <= 0.0 ==> Dot(w, a) <= b
    ensures lam <= 0.0 ==> AtMost(a, Shrink(a, Scale(lam, w)))
    ensures lam >= 0.0 ==> AtMost(Shrink(a, Scale(lam, w)), a)
  {
    var x := Shrink(a, Scale(lam, w));
    if lam <= 0.0 {
      forall i | 0 <= i < |a| ensures a[i] <= x[i] {
        NonNegProduct(-lam, w[i]);
        assert Times(-lam, w[i]) == -Times(lam, w[i]);
      }
      DotMonotone(w, a, x);
    }
    if lam >= 0.0 {
      forall i | 0 <= i < |a| ensures x[i] <= a[i] {
        NonNegProduct(lam, w[i]);
      }
    }
  }

  /** The only candidates for the nearest point of one ball: y itself, or the threshold point. */
  lemma NearestInBall(w: seq<real>, b: real, y: seq<real>, lam: real, x: seq<real>)
    requires |y| == |w| == |x| && Positive(w)
    requires x == Shrink(AbsOf(y), Scale(lam, w)) && Dot(w, x) == b
    ensures Dot(w, AbsOf(y)) > b ==> lam > 0.0 && IsNearest(Ball(w, b), y, Signed(x, y))
    ensures Dot(w, AbsOf(y)) > b ==> AbsOf(Signed(x, y)) == x
    ensures Dot(w, AbsOf(y)) <= b ==> IsNearest(Ball(w, b), y, y)
  {
    hide Times, Mul, AbsOf, Const, Scale, Plus, Minus, Shrink, Signed, IsNearest, Sum;
    ThresholdPositive(w, AbsOf(y), lam, b);
    if Dot(w, AbsOf(y)) > b {
      BallCertificate(w, b, y, lam, x);
      BallInequality(w, b, y, lam, x, y);
    } else {
      SelfNearest(Ball(w, b), y);
    }
  }

  lemma SelfNearest(S: iset<seq<real>>, y: seq<real>)
    requires y in S
    ensures IsNearest(S, y, y)
  {
    SumOfZeros(Mul(Minus(y, y), Minus(y, y)));
    forall z | z in S && |z| == |y| && z != y ensures Dist2(y, y) < Dist2(y, z) {
      Dist2Positive(y, z);
    }
  }

  lemma OnlyNearest(S: iset<seq<real>>, k: Limits, y: seq<real>, q: seq<real>)
    requires IsNearest(S, y, q)
    ensures (exists p :: IsNearest(S, y, p) && Feasible(k, p)) <==> Feasible(k, q)
  {
    forall p | IsNearest(S, y, p) ensures p == q {
      NearestUnique(S, y, p, q);
    }
  }

  lemma ConstAsScale(n: nat, th: real)
    ensures Const(n, th) == Scale(th, Ones(n))
  {
  }

  lemma NearestInRegion(k: Limits, y: seq<real>, p: seq<real>)
    requires Feasible(k, p)
    requires IsNearest(Ball(Ones(|k.c|), k.b1), y, p) || IsNearest(Ball(k.c, k.b2), y, p)
    ensures IsNearest(Region(k), y, p)
  {
    RegionInBalls(k);
    if IsNearest(Ball(Ones(|k.c|), k.b1), y, p) {
      NearestInSubset(Ball(Ones(|k.c|), k.b1), Region(k), y, p);
    } else {
      NearestInSubset(Ball(k.c, k.b2), Region(k), y, p);
    }
  }

  /** The leverage scan, seen as the scan of the ball with unit weights. */
  lemma {:induction false} LeverageNearest(b1: real, y: seq<real>, th: real, x: seq<real>)
    requires |y| == |x|
    requires x == Shrink(AbsOf(y), Const(|y|, th)) && Sum(x) == b1
    ensures Norm1(y) > b1 ==> IsNearest(Ball(Ones(|y|), b1), y, Signed(x, y)) && AbsOf(Signed(x, y)) == x
    ensures Norm1(y) <= b1 ==> IsNearest(Ball(Ones(|y|), b1), y, y)
  {
    ConstAsScale(|y|, th);
    DotOnes(x);
    Norm1AsDot(y);
    NearestInBall(Ones(|y|), b1, y, th, x);
  }

  lemma {:induction false} LeverageOrder(b1: real, a: seq<real>, th: real, x: seq<real>)
    requires |a| == |x| && NonNeg(a)
    requires x == Shrink(a, Const(|a|, th)) && Sum(x) == b1
    ensures Sum(a) > b1 ==> th > 0.0 && AtMost(x, a)
    ensures Sum(a) <= b1 ==> AtMost(a, x)
  {
    if th <= 0.0 {
      SumLe(a, x);
    } else if Sum(a) <= b1 {
      EqualSums(x, a);
    }
  }

  /** The soundness of the first regime: for an infeasible y its test succeeds exactly when
      the leverage ball suffices, and when it fails the drawdown budget is truly exceeded. */
  lemma {:induction false} LeverageDispatch(k: Limits, y: seq<real>, th: real, x: seq<real>)
    requires |y| == |k.c| == |x| && Positives(k) && !Feasible(k, y)
    requires x == Shrink(AbsOf(y), Const(|y|, th)) && Sum(x) == k.b1
    ensures LeverageSuffices(k, y) <==> Dot(k.c, x) <= k.b2
    ensures Dot(k.c, x) <= k.b2 ==> IsNearest(Region(k), y, Signed(x, y)) && AbsOf(Signed(x, y)) == x
    ensures Dot(k.c, x) > k.b2 ==> Dot(k.c, AbsOf(y)) > k.b2
  {
    hide Times, Mul, AbsOf, Const, Scale, Plus, Minus, Sum, Signed, IsNearest, LeverageSuffices, Shrink, Dot;
    LeverageNearest(k.b1, y, th, x);
    LeverageOrder(k.b1, AbsOf(y), th, x);
    if Norm1(y) <= k.b1 {
      LeverageBallHolds(k, y, x);
    } else {
      LeverageBallExceeded(k, y, x);
    }
  }

  lemma LeverageBallHolds(k: Limits, y: seq<real>, x: seq<real>)
    requires |y| == |k.c| == |x| && Positives(k) && !Feasible(k, y) && Norm1(y) <= k.b1
    requires AtMost(AbsOf(y), x) && IsNearest(Ball(Ones(|y|), k.b1), y, y)
    ensures !LeverageSuffices(k, y) && Dot(k.c, AbsOf(y)) > k.b2 && Dot(k.c, x) > k.b2
  {
    hide Times, Mul, AbsOf, Const, Scale, Plus, Minus, Sum, IsNearest;
    DotMonotone(k.c, AbsOf(y), x);
    OnlyNearest(Ball(Ones(|y|), k.b1), k, y, y);
  }

  lemma {:induction false} LeverageBallExceeded(k: Limits, y: seq<real>, x: seq<real>)
    requires |y| == |k.c| == |x| && Positives(k) && Sum(x) == k.b1
    requires AtMost(x, AbsOf(y)) && AbsOf(Signed(x, y)) == x
    requires IsNearest(Ball(Ones(|y|), k.b1), y, Signed(x, y))
    ensures LeverageSuffices(k, y) <==> Dot(k.c, x) <= k.b2
    ensures Dot(k.c, x) <= k.b2 ==> IsNearest(Region(k), y, Signed(x, y))
    ensures Dot(k.c, x) > k.b2 ==> Dot(k.c, AbsOf(y)) > k.b2
  {
    hide Times, Mul, AbsOf, Const, Scale, Plus, Minus, Sum, Signed, IsNearest;
    DotMonotone(k.c, x, AbsOf(y));
    OnlyNearest(Ball(Ones(|y|), k.b1), k, y, Signed(x, y));
    if Dot(k.c, x) <= k.b2 {
      NearestInRegion(k, y, Signed(x, y));
    }
  }

  lemma {:induction false} EqualSums(x: seq<real>, a: seq<real>)
    requires |x| == |a| && AtMost(x, a) && Sum(a) <= Sum(x)
    ensures x == a
  {
    forall i | 0 <= i < |x| ensures x[i] == a[i] {
      if x[i] < a[i] {
        SumLeStrict(x, a, i);
      }
    }
  }

  lemma {:induction false} DrawdownDispatch(k: Limits, y: seq<real>, lam: real, x: seq<real>)
    requires |y| == |k.c| == |x| && Positives(k) && Dot(k.c, AbsOf(y)) > k.b2
    requires x == Shrink(AbsOf(y), Scale(lam, k.c)) && Dot(k.c, x) == k.b2
    ensures lam > 0.0 && AbsOf(Signed(x, y)) == x
    ensures DrawdownSuffices(k, y) <==> Sum(x) <= k.b1
    ensures Sum(x) <= k.b1 ==> IsNearest(Region(k), y, Signed(x, y)) && Feasible(k, Signed(x, y))
  {
    hide Times, Mul, AbsOf, Const, Scale, Plus, Minus, IsNearest, Shrink, Signed;
    NearestInBall(k.c, k.b2, y, lam, x);
    OnlyNearest(Ball(k.c, k.b2), k, y, Signed(x, y));
    if Sum(x) <= k.b1 {
      NearestInRegion(k, y, Signed(x, y));
    }
  }

  /** With one common weight the two balls are nested, so one of them always suffices. */
  lemma {:induction false} UniformWeightsNeverBoth(k: Limits, x1: seq<real>, x2: seq<real>, c0: real)
    requires |x1| == |x2| == |k.c| && c0 > 0.0 && k.c == Const(|k.c|, c0)
    requires Sum(x1) == k.b1 && Dot(k.c, x2) == k.b2
    ensures Dot(k.c, x1) <= k.b2 || Sum(x2) <= k.b1
  {
    SumScale(c0, x1, Mul(k.c, x1));
    SumScale(c0, x2, Mul(k.c, x2));
    if Sum(x1) < Sum(x2) {
      TimesStrict(c0, Sum(x1), Sum(x2));
    }
  }
}
