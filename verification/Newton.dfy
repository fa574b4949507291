/** The regime in which both limits bind: a Newton iteration on the two multipliers. */
module Newton {
  import opened Vectors
  import opened Geometry
  import opened Thresholds
  import opened Projection
  import opened ThresholdPoints

  /** 1 where x is positive, 0 elsewhere: the active set as weights. */
  function Indicator(x: seq<real>): (m: seq<real>)
    ensures |m| == |x| && forall i :: 0 <= i < |x| ==> m[i] == if x[i] > 0.0 then 1.0 else 0.0
  {
    seq(|x|, i requires 0 <= i < |x| => if x[i] > 0.0 then 1.0 else 0.0)
  }

  /** Sums over the active set: its size, and the sums of a, c, c*a and c*c. */
  datatype Moments = Moments(n: real, a: real, c: real, ca: real, cc: real)

  function ActiveMoments(m: seq<real>, a: seq<real>, c: seq<real>): Moments
    requires |m| == |a| == |c|
  {
    Moments(Sum(m), Dot(m, a), Dot(m, c), Dot(m, Mul(c, a)), Dot(m, Mul(c, c)))
  }

  function Det(s: Moments): real { Times(s.n, s.cc) - Times(s.c, s.c) }

  /** Cramer's rule for the pair of budget equations on a fixed active set. */
  function Lam1(s: Moments, k: Limits): real
    requires Det(s) != 0.0
  {
    Over(Times(s.cc, s.a - k.b1) - Times(s.c, s.ca - k.b2), Det(s))
  }

  function Lam2(s: Moments, k: Limits): real
    requires Det(s) != 0.0
  {
    Over(Times(s.n, s.ca - k.b2) - Times(s.c, s.a - k.b1), Det(s))
  }

  function MaxEntry(c: seq<real>): real
    requires c != []
  {
    if |c| == 1 then c[0] else Max(MaxEntry(c[..|c| - 1]), c[|c| - 1])
  }

  function MinEntry(c: seq<real>): real
    requires c != []
  {
    if |c| == 1 then c[0] else Min(MinEntry(c[..|c| - 1]), c[|c| - 1])
  }

  lemma {:induction false} EntriesBetween(c: seq<real>)
    requires c != []
    ensures forall i :: 0 <= i < |c| ==> MinEntry(c) <= c[i] <= MaxEntry(c)
    ensures MaxEntry(c) in c && MinEntry(c) in c
  {
    if |c| > 1 {
      EntriesBetween(c[..|c| - 1]);
    }
  }

  // ---- the linear system ----

  /** The determinant is never negative: Cauchy-Schwarz on the active set. */
  lemma DetNonNegative(x: seq<real>, a: seq<real>, c: seq<real>)
    requires |x| == |a| == |c|
    ensures Det(ActiveMoments(Indicator(x), a, c)) >= 0.0
  {
    WeightedCauchySchwarz(Indicator(x), c);
  }

  lemma CramerSolves(s: Moments, k: Limits)
    requires Det(s) > 0.0
    ensures Times(s.n, Lam1(s, k)) + Times(s.c, Lam2(s, k)) == s.a - k.b1
    ensures Times(s.c, Lam1(s, k)) + Times(s.cc, Lam2(s, k)) == s.ca - k.b2
  {
    var d := Det(s);
    Quotient(Times(s.cc, s.a - k.b1) - Times(s.c, s.ca - k.b2), d);
    Quotient(Times(s.n, s.ca - k.b2) - Times(s.c, s.a - k.b1), d);
  }

  /** A point's sum is affine in the multipliers that made it, on its own active set. */
  lemma {:induction false} ActiveSum(a: seq<real>, c: seq<real>, l1: real, l2: real, x: seq<real>)
    requires |a| == |c| == |x| && x == Shrink(a, Prices(c, l1, l2))
    ensures var s := ActiveMoments(Indicator(x), a, c);
      Sum(x) == s.a - Times(l1, s.n) - Times(l2, s.c)
  {
    hide Times, Mul, Indicator, Shrink, Prices, Sum;
    var m := Indicator(x);
    ActiveTerms(a, c, l1, l2, x);
    SumOfThree(x, l1, m, l2, Mul(m, c), Mul(m, a));
  }

  lemma ActiveTerms(a: seq<real>, c: seq<real>, l1: real, l2: real, x: seq<real>)
    requires |a| == |c| == |x| && x == Shrink(a, Prices(c, l1, l2))
    ensures var m := Indicator(x);
      forall i :: 0 <= i < |x| ==> Mul(m, a)[i] == x[i] + (Times(l1, m[i]) + Times(l2, Mul(m, c)[i]))
  {
    hide Times, Mul, Indicator, Shrink, Prices;
    var m := Indicator(x);
    forall i | 0 <= i < |x|
      ensures Mul(m, a)[i] == x[i] + (Times(l1, m[i]) + Times(l2, Mul(m, c)[i]))
    {
      ActiveTerm(a[i], c[i], l1, l2, m[i], x[i]);
    }
  }

  lemma ActiveWeightedSum(a: seq<real>, c: seq<real>, l1: real, l2: real, x: seq<real>)
    requires |a| == |c| == |x| && x == Shrink(a, Prices(c, l1, l2))
    ensures var s := ActiveMoments(Indicator(x), a, c);
      Dot(c, x) == s.ca - Times(l1, s.c) - Times(l2, s.cc)
  {
    var m := Indicator(x);
    var mc, mca, mcc, cx := Mul(m, c), Mul(m, Mul(c, a)), Mul(m, Mul(c, c)), Mul(c, x);
    forall i | 0 <= i < |x| ensures mca[i] == cx[i] + (Times(l1, mc[i]) + Times(l2, mcc[i])) {
    }
    SumOfThree(cx, l1, mc, l2, mcc, mca);
  }

  lemma {:induction false} SumOfThree(x: seq<real>, l1: real, u: seq<real>, l2: real, v: seq<real>, w: seq<real>)
    requires |x| == |u| == |v| == |w|
    requires forall i :: 0 <= i < |x| ==> w[i] == x[i] + (Times(l1, u[i]) + Times(l2, v[i]))
    ensures Sum(w) == Sum(x) + (Times(l1, Sum(u)) + Times(l2, Sum(v)))
  {
    var paid := Minus(w, x);
    SumLinear(l1, u, l2, v, paid);
    SumAdd(x, paid, w);
  }

  lemma ActiveTerm(a: real, c: real, l1: real, l2: real, m: real, x: real)
    requires x == Max(0.0, a - (l1 + Times(l2, c))) && m == if x > 0.0 then 1.0 else 0.0
    ensures Times(m, a) == x + (Times(l1, m) + Times(l2, Times(m, c)))
  {
  }

  /** When the new point keeps the active set the system was solved on, it spends both budgets. */
  lemma {:induction false} NewtonHit(a: seq<real>, k: Limits, x: seq<real>, m: seq<real>)
    requires |a| == |k.c| == |x| == |m|
    requires var s := ActiveMoments(m, a, k.c);
      && Det(s) > 0.0
      && x == Shrink(a, Prices(k.c, Lam1(s, k), Lam2(s, k)))
    requires Indicator(x) == m
    ensures Sum(x) == k.b1 && Dot(k.c, x) == k.b2
  {
    var s := ActiveMoments(m, a, k.c);
    CramerSolves(s, k);
    ActiveSum(a, k.c, Lam1(s, k), Lam2(s, k), x);
    ActiveWeightedSum(a, k.c, Lam1(s, k), Lam2(s, k), x);
    TimesSym(Lam1(s, k), s.n);
    TimesSym(Lam1(s, k), s.c);
    TimesSym(Lam2(s, k), s.c);
    TimesSym(Lam2(s, k), s.cc);
  }

  lemma NewtonNearest(k: Limits, y: seq<real>, x: seq<real>, m: seq<real>)
    requires |y| == |k.c| == |x| == |m| && Positives(k)
    requires var s := ActiveMoments(m, AbsOf(y), k.c);
      && Det(s) > 0.0 && Lam1(s, k) >= 0.0 && Lam2(s, k) >= 0.0
      && x == Shrink(AbsOf(y), Prices(k.c, Lam1(s, k), Lam2(s, k)))
    requires Indicator(x) == m
    ensures IsNearest(Region(k), y, Signed(x, y)) && AbsOf(Signed(x, y)) == x
  {
    var s := ActiveMoments(m, AbsOf(y), k.c);
    NewtonHit(AbsOf(y), k, x, m);
    RegionCertificate(k, y, Lam1(s, k), Lam2(s, k), x);
    RegionInequality(k, y, Lam1(s, k), Lam2(s, k), x, y);
  }

  /** Raising a slightly negative multiplier to zero leaves both budgets underspent. */
  lemma {:induction false} NewtonClipped(a: seq<real>, k: Limits, x: seq<real>, m: seq<real>)
    requires |a| == |k.c| == |x| == |m|
    requires var s := ActiveMoments(m, a, k.c);
      && Det(s) > 0.0 && s.n > 0.0 && s.c > 0.0 && s.cc > 0.0
      && (Lam1(s, k) < 0.0 || Lam2(s, k) < 0.0)
      && x == Shrink(a, Prices(k.c, Max(0.0, Lam1(s, k)), Max(0.0, Lam2(s, k))))
    requires Indicator(x) == m
    ensures Sum(x) < k.b1 && Dot(k.c, x) < k.b2
  {
    hide Times, Lam1, Lam2, Det, Mul, Shrink, Prices, Indicator, Sum, Dot;
    var s := ActiveMoments(m, a, k.c);
    var l1, l2 := Lam1(s, k), Lam2(s, k);
    CramerSolves(s, k);
    ActiveSum(a, k.c, Max(0.0, l1), Max(0.0, l2), x);
    ActiveWeightedSum(a, k.c, Max(0.0, l1), Max(0.0, l2), x);
    ClippedDrop(l1, s.n);
    ClippedDrop(l1, s.c);
    ClippedDrop(l2, s.c);
    ClippedDrop(l2, s.cc);
  }

  lemma ClippedDrop(l: real, v: real)
    requires v > 0.0
    ensures l >= 0.0 ==> Times(Max(0.0, l), v) == Times(v, l)
    ensures l < 0.0 ==> Times(Max(0.0, l), v) > Times(v, l)
  {
    if l < 0.0 {
      PositiveProduct(v, -l);
      assert Times(v, -l) == -Times(v, l);
    }
  }

  lemma {:induction false} ActiveSetHasWeight(m: seq<real>, c: seq<real>, x: seq<real>)
    requires |m| == |c| == |x| && m == Indicator(x) && Positive(c) && Sum(m) != 0.0
    ensures Sum(m) > 0.0 && Dot(m, c) > 0.0 && Dot(m, Mul(c, c)) > 0.0
  {
    SumNonNeg(m);
    if forall i :: 0 <= i < |m| ==> m[i] == 0.0 {
      SumOfZeros(m);
    }
    var i :| 0 <= i < |m| && m[i] != 0.0;
    forall j | 0 <= j < |m| ensures Mul(m, c)[j] >= 0.0 {
      NonNegProduct(m[j], c[j]);
    }
    PositiveProduct(m[i], c[i]);
    EntryAtMostSum(Mul(m, c), i);
    forall j | 0 <= j < |m| ensures Mul(m, Mul(c, c))[j] >= 0.0 {
      PositiveProduct(c[j], c[j]);
      NonNegProduct(m[j], Mul(c, c)[j]);
    }
    PositiveProduct(c[i], c[i]);
    PositiveProduct(m[i], Mul(c, c)[i]);
    EntryAtMostSum(Mul(m, Mul(c, c)), i);
  }

  // ---- the iteration as a function of its inputs ----

  /** How the iteration ends: on a point that keeps its active set, by treating the two
      constraints as one with the given budget, or without a result. */
  datatype Outcome = Solved(x: seq<real>, clipped: bool) | Flat(budget: real) | Failed

  /** How far the drawdown weights lie apart. */
  function Spread(c: seq<real>): real
    requires c != []
  {
    MaxEntry(c) - MinEntry(c)
  }

  /** The one budget that stands for both on an active set of nearly equal weights. */
  function FlatBudget(s: Moments, k: Limits): real
    requires s.n > 0.0 && s.c > 0.0
  {
    OverSignPositive(s.c, s.n);
    Min(k.b1, Over(k.b2, Over(s.c, s.n)))
  }

  lemma OverSignPositive(a: real, b: real)
    requires a > 0.0 && b > 0.0
    ensures Over(a, b) > 0.0
  {
  }

  /** The rest of the iteration from multipliers l1 and l2. */
  function NewtonFrom(a: seq<real>, k: Limits, tol: Tolerances, l1: real, l2: real, steps: nat): Outcome
    requires |a| == |k.c| > 0 && Positives(k) && tol.Valid()
    decreases steps
  {
    if steps == 0 then Failed
    else
      var cur := Shrink(a, Prices(k.c, l1, l2));
      var m := Indicator(cur);
      var s := ActiveMoments(m, a, k.c);
      if s.n == 0.0 then Failed
      else
        ActiveSetHasWeight(m, k.c, cur);
        if Det(s) < tol.det then
          if Spread(k.c) < tol.det then Flat(FlatBudget(s, k)) else Failed
        else
          var up1, up2 := Max(0.0, Lam1(s, k)), Max(0.0, Lam2(s, k));
          var next := Shrink(a, Prices(k.c, up1, up2));
          if Lam1(s, k) >= -tol.exit && Lam2(s, k) >= -tol.exit && Indicator(next) == m
          then Solved(next, Lam1(s, k) < 0.0 || Lam2(s, k) < 0.0)
          else NewtonFrom(a, k, tol, up1, up2, steps - 1)
  }

  /** The whole iteration on the magnitudes of y. */
  function NewtonOf(k: Limits, tol: Tolerances, y: seq<real>): Outcome
    requires |y| == |k.c| > 0 && Positives(k) && tol.Valid()
  {
    NewtonFrom(AbsOf(y), k, tol, 0.0, 0.0, NEWTON_STEPS)
  }

  /** Semismooth Newton on the two multipliers, at most 15 steps. */
  method NewtonMultipliers(y: seq<real>, k: Limits, tol: Tolerances)
    returns (solved: bool, x: seq<real>, ghost exit: Exit)
    requires |y| == |k.c| > 0 && Positives(k) && k.b1 > 0.0 && k.b2 > 0.0 && tol.Valid()
    ensures solved <==> !NewtonOf(k, tol, y).Failed?
    ensures solved ==> |x| == |y|
    ensures NewtonOf(k, tol, y).Solved? ==> exit == BothActive && x == NewtonOf(k, tol, y).x
    ensures NewtonOf(k, tol, y).Flat? ==> exit == Parallel && FlatPoint(y, NewtonOf(k, tol, y).budget, x)
  {
    hide Sum, Dot, Mul, Times, Over, Det, Lam1, Lam2, Shrink, Prices, Indicator, Spread, ThresholdPoint, MaxEntry,
         MinEntry;
    var a := AbsOf(y);
    var lam1, lam2 := 0.0, 0.0;
    solved, x, exit := false, [], BothActive;
    for step := 0 to NEWTON_STEPS
      invariant !solved && NewtonOf(k, tol, y) == NewtonFrom(a, k, tol, lam1, lam2, NEWTON_STEPS - step)
    {
      var cur := Shrink(a, Prices(k.c, lam1, lam2));
      var m := Indicator(cur);
      var s := ActiveMoments(m, a, k.c);
      if s.n == 0.0 {
        return;
      }
      ActiveSetHasWeight(m, k.c, cur);
      var det := Det(s);
      if det < tol.det {
        if Spread(k.c) < tol.det {
          OverSignPositive(s.c, s.n);
          var meanC := Over(s.c, s.n);
          OverSignPositive(k.b2, meanC);
          var bEff := Min(k.b1, Over(k.b2, meanC));
          var th := L1Threshold(a, bEff);
          x := Shrink(a, Const(|a|, th));
          FlatThreshold(y, bEff, th, x);
          return true, x, Parallel;
        }
        return;
      }
      var l1, l2 := Lam1(s, k), Lam2(s, k);
      if l1 >= -tol.exit && l2 >= -tol.exit {
        var next := Shrink(a, Prices(k.c, Max(0.0, l1), Max(0.0, l2)));
        if Indicator(next) == m {
          return true, next, BothActive;
        }
      }
      lam1, lam2 := Max(0.0, l1), Max(0.0, l2);
    }
  }

  /** The point that spends one budget on the bare magnitudes. */
  ghost predicate FlatPoint(y: seq<real>, b: real, x: seq<real>) { ThresholdPoint(Ones(|y|), b, y, x) }

  lemma {:induction false} FlatThreshold(y: seq<real>, b: real, th: real, x: seq<real>)
    requires |x| == |y| && x == Shrink(AbsOf(y), Const(|y|, th)) && Sum(x) == b
    ensures FlatPoint(y, b, x)
  {
    LeverageThresholdPoint(Limits(Const(|y|, 1.0), b, b), y, x, th);
  }

  // ---- what each outcome is worth ----

  /** A point the iteration accepts is the nearest one when no multiplier was clipped, which
      at slack 0 none is, and otherwise underspends both budgets.  The outcome for nearly
      equal weights spends no more than the leverage budget. */
  lemma {:induction false} OutcomeWorth(y: seq<real>, k: Limits, tol: Tolerances, l1: real, l2: real, steps: nat)
    requires |y| == |k.c| > 0 && Positives(k) && k.b1 > 0.0 && k.b2 > 0.0 && tol.Valid()
    ensures var o := NewtonFrom(AbsOf(y), k, tol, l1, l2, steps);
      && (o.Solved? ==> |o.x| == |y| && NonNeg(o.x))
      && (o.Solved? && !o.clipped ==> IsNearest(Region(k), y, Signed(o.x, y)) && AbsOf(Signed(o.x, y)) == o.x)
      && (o.Solved? && o.clipped ==> tol.exit > 0.0 && Sum(o.x) < k.b1 && Dot(k.c, o.x) < k.b2)
      && (o.Flat? ==> Spread(k.c) < tol.det && 0.0 < o.budget <= k.b1)
    decreases steps
  {
    hide Sum, Dot, Mul, Times, Over, Det, Lam1, Lam2, Prices, Indicator, IsNearest, Region, Signed, MaxEntry, MinEntry;
    if steps > 0 {
      var a := AbsOf(y);
      var cur := Shrink(a, Prices(k.c, l1, l2));
      var m := Indicator(cur);
      var s := ActiveMoments(m, a, k.c);
      if s.n != 0.0 {
        ActiveSetHasWeight(m, k.c, cur);
        if Det(s) < tol.det {
          OverSignPositive(s.c, s.n);
          OverSignPositive(k.b2, Over(s.c, s.n));
        } else {
          var up1, up2 := Max(0.0, Lam1(s, k)), Max(0.0, Lam2(s, k));
          var next := Shrink(a, Prices(k.c, up1, up2));
          OutcomeWorth(y, k, tol, up1, up2, steps - 1);
          if Indicator(next) == m {
            if Lam1(s, k) < 0.0 || Lam2(s, k) < 0.0 {
              NewtonClipped(a, k, next, m);
            } else {
              NewtonNearest(k, y, next, m);
            }
          }
        }
      }
    }
  }

  // ---- which outcome it is ----

  /** The determinant of an active set is at most the squared number of assets times the
      squared spread of the weights. */
  lemma DetBound(m: seq<real>, a: seq<real>, c: seq<real>, d: real)
    requires |m| == |a| == |c| > 0 && Spread(c) <= d && forall i :: 0 <= i < |m| ==> 0.0 <= m[i] <= 1.0
    ensures Det(ActiveMoments(m, a, c)) <= Times(Times(|c| as real, |c| as real), Times(d, d))
  {
    hide Sum, Mul, Times, MaxEntry, MinEntry;
    var n, lo := |c| as real, MinEntry(c);
    var u := Minus(c, Const(|c|, lo));
    var uu := Mul(m, Mul(u, u));
    EntriesBetween(c);
    ShiftedMoments(m, c, lo, u);
    forall i | 0 <= i < |c| ensures uu[i] <= Times(d, d) {
      assert 0.0 <= u[i] <= d;
      SquareWithin(m[i], u[i], d);
    }
    SumLe(uu, Const(|c|, Times(d, d)));
    SumConst(|c|, Times(d, d));
    SumLe(m, Const(|c|, 1.0));
    SumConst(|c|, 1.0);
    TimesOne(n);
    SumNonNeg(m);
    SquarePositive(d);
    SquarePositive(Dot(m, u));
    ShiftedDet(Sum(m), Dot(m, u), Sum(uu), lo);
    TimesMonotone(Sum(m), Sum(uu), Times(n, Times(d, d)));
    NonNegProduct(n, Times(d, d));
    TimesMonotone(Times(n, Times(d, d)), Sum(m), n);
    TimesSym(Times(n, Times(d, d)), Sum(m));
    TimesSym(Times(n, Times(d, d)), n);
    TimesAssoc(n, n, Times(d, d));
  }

  lemma SquareWithin(m: real, u: real, d: real)
    requires 0.0 <= m <= 1.0 && 0.0 <= u <= d
    ensures Times(m, Times(u, u)) <= Times(d, d)
  {
    hide Times;
    TimesMonotone(u, u, d);
    TimesMonotone(d, u, d);
    TimesSym(u, d);
    SquarePositive(u);
    TimesMonotone(Times(u, u), m, 1.0);
    TimesSym(Times(u, u), m);
    TimesOne(Times(u, u));
  }

  lemma {:induction false} ShiftedMoments(m: seq<real>, c: seq<real>, lo: real, u: seq<real>)
    requires |m| == |c| == |u| && forall i :: 0 <= i < |c| ==> u[i] == c[i] - lo
    ensures Dot(m, c) == Dot(m, u) + Times(lo, Sum(m))
    ensures Dot(m, Mul(c, c)) == Dot(m, Mul(u, u)) + Times(2.0 * lo, Dot(m, u)) + Times(Times(lo, lo), Sum(m))
  {
    hide Sum, Times, Mul, Scale;
    var mu, muu := Mul(m, u), Mul(m, Mul(u, u));
    var mc, mcc := Mul(m, c), Mul(m, Mul(c, c));
    var shift := Scale(lo, m);
    forall i | 0 <= i < |c|
      ensures mc[i] == mu[i] + shift[i]
      ensures mcc[i] == muu[i] + (Times(2.0 * lo, mu[i]) + Times(Times(lo, lo), m[i]))
    {
      ShiftedTerm(m[i], c[i], lo);
    }
    SumScale(lo, m, shift);
    SumAdd(mu, shift, mc);
    SumOfThree(muu, 2.0 * lo, mu, Times(lo, lo), m, mcc);
  }

  lemma ShiftedTerm(m: real, c: real, lo: real)
    ensures Times(m, c) == Times(m, c - lo) + Times(lo, m)
    ensures Times(m, Times(c, c))
         == Times(m, Times(c - lo, c - lo)) + (Times(2.0 * lo, Times(m, c - lo)) + Times(Times(lo, lo), m))
  {
  }

  lemma ShiftedDet(n: real, u: real, q: real, lo: real)
    ensures Times(n, q + Times(2.0 * lo, u) + Times(Times(lo, lo), n)) - Times(u + Times(lo, n), u + Times(lo, n))
         == Times(n, q) - Times(u, u)
  {
  }

  /** The squared differences of all weights from t. */
  function SquaredGaps(c: seq<real>, t: real): (r: seq<real>)
    ensures |r| == |c| && forall j :: 0 <= j < |c| ==> r[j] == (c[j] - t) * (c[j] - t)
  {
    seq(|c|, j requires 0 <= j < |c| => (c[j] - t) * (c[j] - t))
  }

  /** What the determinant measures: summed over all ordered pairs of active assets, the squared
      differences of their weights make up twice the determinant. */
  lemma DetIsPairwise(m: seq<real>, a: seq<real>, c: seq<real>, sums: seq<real>)
    requires |m| == |a| == |c| == |sums| && forall i :: 0 <= i < |c| ==> sums[i] == Dot(m, SquaredGaps(c, c[i]))
    ensures Dot(m, sums) == 2.0 * Det(ActiveMoments(m, a, c))
  {
    hide Sum, Dot, Mul, Times;
    var n, s, q := Sum(m), Dot(m, c), Dot(m, Mul(c, c));
    var flat := Const(|c|, q);
    var tilt, square := Scale(-2.0 * s, c), Scale(n, Mul(c, c));
    forall i | 0 <= i < |c| ensures sums[i] == Plus(flat, Plus(tilt, square))[i] {
      GapSum(m, c, c[i]);
    }
    assert sums == Plus(flat, Plus(tilt, square));
    DotOfThree(m, flat, tilt, square);
    DotConst(m, flat, q);
    DotScale(-2.0 * s, c, tilt, m);
    DotScale(n, Mul(c, c), square, m);
    DotSym(m, c);
    DotSym(m, tilt);
    DotSym(m, square);
    DotSym(m, Mul(c, c));
    PairTotal(n, s, q);
  }

  lemma PairTotal(n: real, s: real, q: real)
    ensures Times(q, n) + Times(-2.0 * s, s) + Times(n, q) == 2.0 * (Times(n, q) - Times(s, s))
  {
  }

  lemma DotOfThree(m: seq<real>, u: seq<real>, v: seq<real>, w: seq<real>)
    requires |m| == |u| == |v| == |w|
    ensures Dot(m, Plus(u, Plus(v, w))) == Dot(m, u) + Dot(m, v) + Dot(m, w)
  {
    hide Sum, Mul, Times;
    DotAdd(v, w, Plus(v, w), m);
    DotAdd(u, Plus(v, w), Plus(u, Plus(v, w)), m);
    DotSym(m, u);
    DotSym(m, v);
    DotSym(m, w);
    DotSym(m, Plus(u, Plus(v, w)));
  }

  lemma {:induction false} DotConst(m: seq<real>, u: seq<real>, q: real)
    requires |m| == |u| && forall i :: 0 <= i < |u| ==> u[i] == q
    ensures Dot(m, u) == Times(q, Sum(m))
  {
    hide Sum, Times;
    forall i | 0 <= i < |m| ensures Mul(m, u)[i] == Times(q, m[i]) {
      TimesSym(q, m[i]);
    }
    SumScale(q, m, Mul(m, u));
  }

  /** The gaps from t expand into the moments. */
  lemma {:induction false} GapSum(m: seq<real>, c: seq<real>, t: real)
    requires |m| == |c|
    ensures Dot(m, SquaredGaps(c, t))
         == Dot(m, Mul(c, c)) + (Times(-2.0 * Dot(m, c), t) + Times(Sum(m), Times(t, t)))
  {
    hide Sum, Times, Mul, SquaredGaps;
    var gaps, mc, mcc := Mul(m, SquaredGaps(c, t)), Mul(m, c), Mul(m, Mul(c, c));
    forall i | 0 <= i < |c| ensures gaps[i] == mcc[i] + (Times(-2.0 * t, mc[i]) + Times(Times(t, t), m[i])) {
      GapTerm(m[i], c[i], t, SquaredGaps(c, t)[i]);
    }
    SumOfThree(mcc, -2.0 * t, mc, Times(t, t), m, gaps);
    TwiceOver(t, Dot(m, c));
    TimesSym(Times(t, t), Sum(m));
  }

  lemma TwiceOver(t: real, s: real)
    ensures Times(-2.0 * t, s) == Times(-2.0 * s, t)
  {
  }

  lemma GapTerm(m: real, c: real, t: real, gap: real)
    requires gap == (c - t) * (c - t)
    ensures Times(m, gap) == Times(m, Times(c, c)) + (Times(-2.0 * t, Times(m, c)) + Times(Times(t, t), m))
  {
  }

  /** Few enough assets that a spread below the slack makes every determinant fall below it:
      at the source's slack, a million of them. */
  predicate FewAssets(k: Limits, tol: Tolerances) {
    Times(Times(|k.c| as real, |k.c| as real), tol.det) <= 1.0
  }

  /** For a portfolio of that size the iteration takes the constraints for parallel exactly
      when the spread of the weights is below the slack, unless y is zero. */
  lemma FlatIff(k: Limits, tol: Tolerances, y: seq<real>)
    requires |y| == |k.c| > 0 && Positives(k) && k.b1 > 0.0 && k.b2 > 0.0 && tol.Valid()
    requires FewAssets(k, tol) && exists i :: 0 <= i < |y| && y[i] != 0.0
    ensures NewtonOf(k, tol, y).Flat? <==> Spread(k.c) < tol.det
  {
    hide Sum, Dot, Mul, Times, Over, Det, Lam1, Lam2, Prices, MaxEntry, MinEntry, NewtonFrom;
    OutcomeWorth(y, k, tol, 0.0, 0.0, NEWTON_STEPS);
    if Spread(k.c) < tol.det {
      var a := AbsOf(y);
      StartsAtMagnitudes(a, k.c);
      var i :| 0 <= i < |y| && y[i] != 0.0;
      var m := Indicator(a);
      var s := ActiveMoments(m, a, k.c);
      EntryAtMostSum(m, i);
      EntriesBetween(k.c);
      DetBound(m, a, k.c, Spread(k.c));
      SmallSquare(|k.c| as real, Spread(k.c), tol.det);
      FlatAtOnce(a, k, tol, m, s);
    }
  }

  lemma SmallSquare(n: real, d: real, slack: real)
    requires 0.0 <= d < slack && Times(Times(n, n), slack) <= 1.0
    ensures Times(Times(n, n), Times(d, d)) < slack
  {
    hide Times;
    var nn := Times(n, n);
    SquarePositive(n);
    TimesMonotone(d, d, slack);
    TimesMonotone(nn, Times(d, d), Times(d, slack));
    TimesSym(d, slack);
    TimesAssoc(nn, slack, d);
    TimesSym(Times(nn, slack), d);
    TimesMonotone(d, Times(nn, slack), 1.0);
    TimesOne(d);
  }

  /** The iteration starts on the assets y holds. */
  lemma StartsAtMagnitudes(a: seq<real>, c: seq<real>)
    requires |a| == |c| && NonNeg(a)
    ensures Shrink(a, Prices(c, 0.0, 0.0)) == a
  {
  }

  lemma {:induction false} FlatAtOnce(a: seq<real>, k: Limits, tol: Tolerances, m: seq<real>, s: Moments)
    requires |a| == |k.c| > 0 && Positives(k) && tol.Valid() && NonNeg(a)
    requires m == Indicator(a) && s == ActiveMoments(m, a, k.c) && s.n > 0.0
    requires Det(s) < tol.det && Spread(k.c) < tol.det
    ensures NewtonFrom(a, k, tol, 0.0, 0.0, NEWTON_STEPS).Flat?
  {
    hide Sum, Dot, Mul, Times, Over, Det, Lam1, Lam2, Prices, Shrink, Spread;
    StartsAtMagnitudes(a, k.c);
  }

  /** The assets y holds carry the solution themselves: the system on them is regular, has
      non-negative multipliers, and its point drops none of them. */
  ghost predicate SolvedAtOnce(k: Limits, tol: Tolerances, y: seq<real>)
    requires |y| == |k.c| > 0 && tol.Valid()
  {
    var m := Indicator(AbsOf(y));
    var s := ActiveMoments(m, AbsOf(y), k.c);
    && Det(s) >= tol.det && Lam1(s, k) >= 0.0 && Lam2(s, k) >= 0.0
    && Indicator(Shrink(AbsOf(y), Prices(k.c, Lam1(s, k), Lam2(s, k)))) == m
  }

  /** Then the first step already returns it. */
  lemma FirstStepSolves(k: Limits, tol: Tolerances, y: seq<real>)
    requires |y| == |k.c| > 0 && Positives(k) && tol.Valid() && SolvedAtOnce(k, tol, y)
    ensures NewtonOf(k, tol, y).Solved? && !NewtonOf(k, tol, y).clipped
  {
    hide Sum, Dot, Mul, Times, Over, Det, Lam1, Lam2, Prices, Shrink, Spread, Indicator;
    var a := AbsOf(y);
    var s := ActiveMoments(Indicator(a), a, k.c);
    StartsAtMagnitudes(a, k.c);
    if s.n == 0.0 {
      EmptyActiveSet(Indicator(a), a, k.c);
    }
    assert Max(0.0, Lam1(s, k)) == Lam1(s, k) && Max(0.0, Lam2(s, k)) == Lam2(s, k);
  }

  lemma {:induction false} EmptyActiveSet(m: seq<real>, a: seq<real>, c: seq<real>)
    requires |m| == |a| == |c| && Sum(m) == 0.0 && NonNeg(m)
    ensures Det(ActiveMoments(m, a, c)) == 0.0
  {
    hide Sum;
    WeightlessDot(m, c);
    TimesZero(Dot(m, Mul(c, c)));
    TimesZero(0.0);
  }
}
