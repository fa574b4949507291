/** The Newton iteration told by its iterates: each pair of multipliers is the clipped
    solution of the two budget equations on the active set of the pair before. */
module NewtonPaths {
  import opened Vectors
  import opened Geometry
  import opened Projection
  import opened Newton

  type Multipliers = (real, real)

  /** The magnitudes left by the prices m on the assets that the prices l leave positive. */
  function OnActive(a: seq<real>, c: seq<real>, l: Multipliers, m: Multipliers): (r: seq<real>)
    requires |a| == |c|
    ensures |r| == |a|
    ensures forall i :: 0 <= i < |a| ==>
      r[i] == if Kept(a, c, l, i) then a[i] - m.0 - Times(m.1, c[i]) else 0.0
  {
    seq(|a|, i requires 0 <= i < |a| => if Kept(a, c, l, i) then a[i] - m.0 - Times(m.1, c[i]) else 0.0)
  }

  /** Asset i is active at l. */
  predicate Kept(a: seq<real>, c: seq<real>, l: Multipliers, i: nat)
    requires |a| == |c| && i < |a|
  {
    a[i] > l.0 + Times(l.1, c[i])
  }

  /** On the active set of l the prices m use up both budgets. */
  ghost predicate Balances(a: seq<real>, k: Limits, l: Multipliers, m: Multipliers)
    requires |a| == |k.c|
  {
    Sum(OnActive(a, k.c, l, m)) == k.b1 && Dot(k.c, OnActive(a, k.c, l, m)) == k.b2
  }

  function Clipped(m: Multipliers): Multipliers { (Max(0.0, m.0), Max(0.0, m.1)) }

  /** l and m have the same active assets. */
  ghost predicate SameAssets(a: seq<real>, c: seq<real>, l: Multipliers, m: Multipliers)
    requires |a| == |c|
  {
    forall i :: 0 <= i < |a| ==> (Kept(a, c, l, i) <==> Kept(a, c, m, i))
  }

  /** The determinant of the two equations on the active set of l. */
  function DetAt(a: seq<real>, c: seq<real>, l: Multipliers): real
    requires |a| == |c|
  {
    Det(ActiveMoments(Indicator(Shrink(a, Prices(c, l.0, l.1))), a, c))
  }

  ghost predicate Regular(a: seq<real>, c: seq<real>, tol: Tolerances, l: Multipliers)
    requires |a| == |c|
  {
    DetAt(a, c, l) >= tol.det && exists i :: 0 <= i < |a| && Kept(a, c, l, i)
  }

  /** The solution m of the equations at l is accepted: neither multiplier is below the slack
      and clipping keeps the active set. */
  ghost predicate Accepts(a: seq<real>, c: seq<real>, tol: Tolerances, l: Multipliers, m: Multipliers)
    requires |a| == |c|
  {
    m.0 >= -tol.exit && m.1 >= -tol.exit && SameAssets(a, c, l, Clipped(m))
  }

  /** From l to n: the equations at l are regular, and n is their clipped solution, which was
      not accepted. */
  ghost predicate Advances(a: seq<real>, k: Limits, tol: Tolerances, l: Multipliers, n: Multipliers)
    requires |a| == |k.c|
  {
    && Regular(a, k.c, tol, l)
    && exists m: Multipliers {:trigger Clipped(m)} ::
         Balances(a, k, l, m) && n == Clipped(m) && !Accepts(a, k.c, tol, l, m)
  }

  /** A run of iterates, none of which stopped the loop. */
  ghost predicate Path(a: seq<real>, k: Limits, tol: Tolerances, path: seq<Multipliers>)
    requires |a| == |k.c|
  {
    && path != [] && forall i :: 0 < i < |path| ==> Advances(a, k, tol, path[i - 1], path[i])
  }

  // ---- the equations and the update formulas ----

  lemma KeptIsIndicated(a: seq<real>, c: seq<real>, l: Multipliers, i: nat)
    requires |a| == |c| && i < |a|
    ensures Indicator(Shrink(a, Prices(c, l.0, l.1)))[i] == if Kept(a, c, l, i) then 1.0 else 0.0
  {
  }

  /** The two sums of the equations are affine in the prices. */
  lemma EquationSums(a: seq<real>, k: Limits, l: Multipliers, m: Multipliers)
    requires |a| == |k.c|
    ensures var s := ActiveMoments(Indicator(Shrink(a, Prices(k.c, l.0, l.1))), a, k.c);
      && Sum(OnActive(a, k.c, l, m)) == s.a - (Times(m.0, s.n) + Times(m.1, s.c))
      && Dot(k.c, OnActive(a, k.c, l, m)) == s.ca - (Times(m.0, s.c) + Times(m.1, s.cc))
  {
    hide Times, Mul, Shrink, Prices, Sum, Kept, Indicator;
    var c, ind := k.c, Indicator(Shrink(a, Prices(k.c, l.0, l.1)));
    var x := OnActive(a, c, l, m);
    var ma, mc, mca, mcc := Mul(ind, a), Mul(ind, c), Mul(ind, Mul(c, a)), Mul(ind, Mul(c, c));
    var cx := Mul(c, x);
    forall i | 0 <= i < |a|
      ensures ma[i] == x[i] + (Times(m.0, ind[i]) + Times(m.1, mc[i]))
      ensures mca[i] == cx[i] + (Times(m.0, mc[i]) + Times(m.1, mcc[i]))
    {
      KeptIsIndicated(a, c, l, i);
      EquationTerm(a[i], c[i], ind[i], m, x[i]);
    }
    SumOfThree(x, m.0, ind, m.1, mc, ma);
    SumOfThree(cx, m.0, mc, m.1, mcc, mca);
  }

  lemma EquationTerm(a: real, c: real, ind: real, m: Multipliers, x: real)
    requires (ind == 1.0 && x == a - m.0 - Times(m.1, c)) || (ind == 0.0 && x == 0.0)
    ensures Times(ind, a) == x + (Times(m.0, ind) + Times(m.1, Times(ind, c)))
    ensures Times(ind, Times(c, a)) == Times(c, x) + (Times(m.0, Times(ind, c)) + Times(m.1, Times(ind, Times(c, c))))
  {
  }

  /** On a regular active set the update formulas give the one solution. */
  lemma BalancesIff(a: seq<real>, k: Limits, l: Multipliers, m: Multipliers)
    requires |a| == |k.c| && DetAt(a, k.c, l) > 0.0
    ensures var s := ActiveMoments(Indicator(Shrink(a, Prices(k.c, l.0, l.1))), a, k.c);
      Det(s) > 0.0 && (Balances(a, k, l, m) <==> m == (Lam1(s, k), Lam2(s, k)))
  {
    hide Times, Mul, Shrink, Prices, Sum, Dot, Indicator, Det, Lam1, Lam2, OnActive;
    var s := ActiveMoments(Indicator(Shrink(a, Prices(k.c, l.0, l.1))), a, k.c);
    EquationSums(a, k, l, m);
    CramerSolves(s, k);
    TimesSym(m.0, s.n);
    TimesSym(m.0, s.c);
    TimesSym(m.1, s.c);
    TimesSym(m.1, s.cc);
    if Balances(a, k, l, m) {
      OneSolution(s, m.0 - Lam1(s, k), m.1 - Lam2(s, k));
      Distribute(s.n, m.0, -Lam1(s, k));
      Distribute(s.c, m.0, -Lam1(s, k));
      Distribute(s.c, m.1, -Lam2(s, k));
      Distribute(s.cc, m.1, -Lam2(s, k));
      NegatedRight(s.n, Lam1(s, k));
      NegatedRight(s.c, Lam1(s, k));
      NegatedRight(s.c, Lam2(s, k));
      NegatedRight(s.cc, Lam2(s, k));
    }
  }

  lemma NegatedRight(a: real, b: real)
    ensures Times(a, -b) == -Times(a, b)
  {
  }

  lemma OneSolution(s: Moments, x: real, y: real)
    requires Det(s) > 0.0
    ensures Times(s.n, x) + Times(s.c, y) == 0.0 && Times(s.c, x) + Times(s.cc, y) == 0.0 ==> x == 0.0 && y == 0.0
  {
    assert s.cc * (s.n * x + s.c * y) - s.c * (s.c * x + s.cc * y) == Det(s) * x;
    assert s.n * (s.c * x + s.cc * y) - s.c * (s.n * x + s.c * y) == Det(s) * y;
    NoZeroFactor(Det(s), x);
    NoZeroFactor(Det(s), y);
  }

  lemma NoZeroFactor(d: real, x: real)
    requires d > 0.0
    ensures d * x == 0.0 ==> x == 0.0
  {
  }

  lemma SameAssetsIff(a: seq<real>, c: seq<real>, l: Multipliers, m: Multipliers)
    requires |a| == |c|
    ensures SameAssets(a, c, l, m)
       <==> Indicator(Shrink(a, Prices(c, m.0, m.1))) == Indicator(Shrink(a, Prices(c, l.0, l.1)))
  {
    hide Times, Shrink, Prices, Kept, Indicator;
    var u, v := Indicator(Shrink(a, Prices(c, m.0, m.1))), Indicator(Shrink(a, Prices(c, l.0, l.1)));
    forall i | 0 <= i < |a| ensures u[i] == v[i] <==> (Kept(a, c, l, i) <==> Kept(a, c, m, i)) {
      KeptIsIndicated(a, c, l, i);
      KeptIsIndicated(a, c, m, i);
    }
  }

  // ---- one step of the iteration ----

  lemma ActiveCount(a: seq<real>, c: seq<real>, l: Multipliers)
    requires |a| == |c|
    ensures Sum(Indicator(Shrink(a, Prices(c, l.0, l.1)))) >= 0.0
    ensures Sum(Indicator(Shrink(a, Prices(c, l.0, l.1)))) > 0.0 <==> exists i :: 0 <= i < |a| && Kept(a, c, l, i)
  {
    hide Times, Shrink, Prices, Kept, Sum, Indicator;
    var ind := Indicator(Shrink(a, Prices(c, l.0, l.1)));
    forall i | 0 <= i < |a| ensures ind[i] == if Kept(a, c, l, i) then 1.0 else 0.0 {
      KeptIsIndicated(a, c, l, i);
    }
    SumNonNeg(ind);
    if i :| 0 <= i < |a| && Kept(a, c, l, i) {
      EntryAtMostSum(ind, i);
    } else {
      SumOfZeros(ind);
    }
  }

  /** A step that does not stop the loop leads to the next iterate. */
  lemma {:induction false} StepAdvances(a: seq<real>, k: Limits, tol: Tolerances, l: Multipliers, n: Multipliers,
                                        steps: nat)
    requires |a| == |k.c| > 0 && Positives(k) && tol.Valid() && Advances(a, k, tol, l, n) && steps > 0
    ensures NewtonFrom(a, k, tol, l.0, l.1, steps) == NewtonFrom(a, k, tol, n.0, n.1, steps - 1)
  {
    hide Times, Mul, Shrink, Prices, Sum, Dot, Indicator, Det, Lam1, Lam2, Balances, Kept, SameAssets, Spread;
    var s := ActiveMoments(Indicator(Shrink(a, Prices(k.c, l.0, l.1))), a, k.c);
    var m: Multipliers :| Balances(a, k, l, m) && n == Clipped(m) && !Accepts(a, k.c, tol, l, m);
    ActiveCount(a, k.c, l);
    BalancesIff(a, k, l, m);
    SameAssetsIff(a, k.c, l, n);
  }

  /** A regular step whose solution is accepted ends the loop with it. */
  lemma {:induction false} StepAccepts(a: seq<real>, k: Limits, tol: Tolerances, l: Multipliers, m: Multipliers,
                                       steps: nat)
    requires |a| == |k.c| > 0 && Positives(k) && tol.Valid() && steps > 0
    requires Regular(a, k.c, tol, l) && Balances(a, k, l, m) && Accepts(a, k.c, tol, l, m)
    ensures NewtonFrom(a, k, tol, l.0, l.1, steps)
         == Solved(Shrink(a, Prices(k.c, Clipped(m).0, Clipped(m).1)), m.0 < 0.0 || m.1 < 0.0)
  {
    hide Times, Mul, Shrink, Prices, Sum, Dot, Indicator, Det, Lam1, Lam2, Balances, Kept, SameAssets, Spread;
    ActiveCount(a, k.c, l);
    BalancesIff(a, k, l, m);
    SameAssetsIff(a, k.c, l, Clipped(m));
  }

  lemma {:induction false} PathLeads(a: seq<real>, k: Limits, tol: Tolerances, path: seq<Multipliers>, steps: nat)
    requires |a| == |k.c| > 0 && Positives(k) && tol.Valid() && Path(a, k, tol, path) && steps >= |path|
    ensures var l := path[|path| - 1];
      NewtonFrom(a, k, tol, path[0].0, path[0].1, steps) == NewtonFrom(a, k, tol, l.0, l.1, steps - (|path| - 1))
    decreases |path|
  {
    hide NewtonFrom, Advances;
    var n := |path| - 1;
    if n > 0 {
      assert Path(a, k, tol, path[..n]);
      PathLeads(a, k, tol, path[..n], steps);
      StepAdvances(a, k, tol, path[n - 1], path[n], steps - (n - 1));
    }
  }

  // ---- what the iteration returns ----

  /** The iteration accepts m within its 15 steps: a path from (0, 0) leads to an active set
      on which m solves the equations and is accepted. */
  ghost predicate AcceptedWithin(a: seq<real>, k: Limits, tol: Tolerances, path: seq<Multipliers>, m: Multipliers)
    requires |a| == |k.c|
  {
    && Path(a, k, tol, path) && |path| <= 15 && path[0] == (0.0, 0.0)
    && var l := path[|path| - 1];
       Regular(a, k.c, tol, l) && Balances(a, k, l, m) && Accepts(a, k.c, tol, l, m)
  }

  /** Then that is what it returns. */
  lemma {:induction false} PathSolves(k: Limits, tol: Tolerances, y: seq<real>, path: seq<Multipliers>, m: Multipliers)
    requires |y| == |k.c| > 0 && Positives(k) && tol.Valid() && AcceptedWithin(AbsOf(y), k, tol, path, m)
    ensures NewtonOf(k, tol, y)
         == Solved(Shrink(AbsOf(y), Prices(k.c, Clipped(m).0, Clipped(m).1)), m.0 < 0.0 || m.1 < 0.0)
  {
    hide NewtonFrom, Advances, Regular, Balances, Accepts, Shrink, Prices;
    var l := path[|path| - 1];
    PathLeads(AbsOf(y), k, tol, path, NEWTON_STEPS);
    StepAccepts(AbsOf(y), k, tol, l, m, NEWTON_STEPS - (|path| - 1));
  }

  /** And it returns nothing that no such path leads to: whatever it accepts, it accepts
      within 15 steps of one. */
  lemma {:induction false} SolvedHasPath(a: seq<real>, k: Limits, tol: Tolerances, path: seq<Multipliers>, steps: nat)
    returns (longer: seq<Multipliers>, m: Multipliers)
    requires |a| == |k.c| > 0 && Positives(k) && tol.Valid() && Path(a, k, tol, path) && path[0] == (0.0, 0.0)
    requires |path| + steps <= 16
    requires var l := path[|path| - 1]; NewtonFrom(a, k, tol, l.0, l.1, steps).Solved?
    ensures AcceptedWithin(a, k, tol, longer, m)
    decreases steps
  {
    hide Times, Mul, Shrink, Prices, Sum, Dot, Indicator, Det, Lam1, Lam2, Balances, Kept, SameAssets, Spread;
    var l := path[|path| - 1];
    var s := ActiveMoments(Indicator(Shrink(a, Prices(k.c, l.0, l.1))), a, k.c);
    ActiveCount(a, k.c, l);
    m := (Lam1(s, k), Lam2(s, k));
    BalancesIff(a, k, l, m);
    SameAssetsIff(a, k.c, l, Clipped(m));
    if Accepts(a, k.c, tol, l, m) {
      longer := path;
    } else {
      assert Advances(a, k, tol, l, Clipped(m));
      PathGrows(a, k, tol, path, Clipped(m));
      longer, m := SolvedHasPath(a, k, tol, path + [Clipped(m)], steps - 1);
    }
  }

  lemma PathGrows(a: seq<real>, k: Limits, tol: Tolerances, path: seq<Multipliers>, n: Multipliers)
    requires |a| == |k.c| && Path(a, k, tol, path) && Advances(a, k, tol, path[|path| - 1], n)
    ensures Path(a, k, tol, path + [n])
  {
    hide Advances;
  }

  /** The iteration returns a point exactly when its iterates reach an accepted solution
      within 15 steps. */
  lemma {:induction false} SolvedIffPath(k: Limits, tol: Tolerances, y: seq<real>)
    requires |y| == |k.c| > 0 && Positives(k) && tol.Valid()
    ensures NewtonOf(k, tol, y).Solved? <==> exists path, m :: AcceptedWithin(AbsOf(y), k, tol, path, m)
  {
    hide NewtonFrom, AcceptedWithin;
    var a := AbsOf(y);
    if NewtonOf(k, tol, y).Solved? {
      var path, m := SolvedHasPath(a, k, tol, [(0.0, 0.0)], NEWTON_STEPS);
    }
    if path, m :| AcceptedWithin(a, k, tol, path, m) {
      PathSolves(k, tol, y, path, m);
    }
  }

  // ---- where it takes the constraints for parallel ----

  /** The active set of l is not empty, its equations are singular and the weights nearly
      equal; b is the most that can be spent on it at their mean without passing a limit. */
  ghost predicate Stalls(a: seq<real>, k: Limits, tol: Tolerances, l: Multipliers, b: real)
    requires |a| == |k.c| > 0
  {
    var ind := Indicator(Shrink(a, Prices(k.c, l.0, l.1)));
    && (exists i :: 0 <= i < |a| && Kept(a, k.c, l, i))
    && DetAt(a, k.c, l) < tol.det && Spread(k.c) < tol.det
    && b <= k.b1 && Times(b, Dot(ind, k.c)) <= Times(k.b2, Sum(ind))
    && (b == k.b1 || Times(b, Dot(ind, k.c)) == Times(k.b2, Sum(ind)))
  }

  lemma FlatBudgetIff(s: Moments, k: Limits, b: real)
    requires s.n > 0.0 && s.c > 0.0
    ensures b == FlatBudget(s, k)
       <==> b <= k.b1 && Times(b, s.c) <= Times(k.b2, s.n) && (b == k.b1 || Times(b, s.c) == Times(k.b2, s.n))
  {
    hide Times, Over;
    OverSignPositive(s.c, s.n);
    var mean := Over(s.c, s.n);
    var q := Over(k.b2, mean);
    Quotient(s.c, s.n);
    Quotient(k.b2, mean);
    TimesAssoc(q, mean, s.n);
    assert Times(q, s.c) == Times(k.b2, s.n);
    TimesSym(s.c, q);
    TimesSym(s.c, b);
    if b < q {
      TimesStrict(s.c, b, q);
    } else if q < b {
      TimesStrict(s.c, q, b);
    }
  }

  ghost predicate StalledWithin(a: seq<real>, k: Limits, tol: Tolerances, path: seq<Multipliers>, b: real)
    requires |a| == |k.c| > 0
  {
    Path(a, k, tol, path) && |path| <= 15 && path[0] == (0.0, 0.0) && Stalls(a, k, tol, path[|path| - 1], b)
  }

  lemma {:induction false} StalledHasPath(a: seq<real>, k: Limits, tol: Tolerances, path: seq<Multipliers>, steps: nat)
    returns (longer: seq<Multipliers>)
    requires |a| == |k.c| > 0 && Positives(k) && tol.Valid() && Path(a, k, tol, path) && path[0] == (0.0, 0.0)
    requires |path| + steps <= 16
    requires var l := path[|path| - 1]; NewtonFrom(a, k, tol, l.0, l.1, steps).Flat?
    ensures var l := path[|path| - 1]; StalledWithin(a, k, tol, longer, NewtonFrom(a, k, tol, l.0, l.1, steps).budget)
    decreases steps
  {
    hide Times, Mul, Shrink, Prices, Sum, Dot, Indicator, Det, Lam1, Lam2, Balances, Kept, SameAssets, Spread,
         FlatBudget;
    var l := path[|path| - 1];
    var cur := Shrink(a, Prices(k.c, l.0, l.1));
    var s := ActiveMoments(Indicator(cur), a, k.c);
    ActiveCount(a, k.c, l);
    ActiveSetHasWeight(Indicator(cur), k.c, cur);
    if Det(s) < tol.det {
      longer := path;
      FlatBudgetIff(s, k, FlatBudget(s, k));
    } else {
      var m := (Lam1(s, k), Lam2(s, k));
      BalancesIff(a, k, l, m);
      SameAssetsIff(a, k.c, l, Clipped(m));
      assert Advances(a, k, tol, l, Clipped(m));
      PathGrows(a, k, tol, path, Clipped(m));
      longer := StalledHasPath(a, k, tol, path + [Clipped(m)], steps - 1);
    }
  }

  lemma {:induction false} StepStalls(a: seq<real>, k: Limits, tol: Tolerances, l: Multipliers, b: real, steps: nat)
    requires |a| == |k.c| > 0 && Positives(k) && tol.Valid() && steps > 0 && Stalls(a, k, tol, l, b)
    ensures NewtonFrom(a, k, tol, l.0, l.1, steps) == Flat(b)
  {
    hide Times, Mul, Shrink, Prices, Sum, Dot, Indicator, Det, Lam1, Lam2, Kept, Spread, FlatBudget;
    var cur := Shrink(a, Prices(k.c, l.0, l.1));
    var s := ActiveMoments(Indicator(cur), a, k.c);
    ActiveCount(a, k.c, l);
    ActiveSetHasWeight(Indicator(cur), k.c, cur);
    FlatBudgetIff(s, k, b);
  }

  /** It takes the two constraints for one budget exactly when its iterates reach such an
      active set within 15 steps, and that is the budget. */
  lemma {:induction false} FlatIffPath(k: Limits, tol: Tolerances, y: seq<real>, b: real)
    requires |y| == |k.c| > 0 && Positives(k) && tol.Valid()
    ensures NewtonOf(k, tol, y) == Flat(b) <==> exists path :: StalledWithin(AbsOf(y), k, tol, path, b)
  {
    hide NewtonFrom, Advances, Stalls;
    var a := AbsOf(y);
    if NewtonOf(k, tol, y) == Flat(b) {
      var path := StalledHasPath(a, k, tol, [(0.0, 0.0)], NEWTON_STEPS);
    }
    if path :| StalledWithin(a, k, tol, path, b) {
      PathLeads(a, k, tol, path, NEWTON_STEPS);
      StepStalls(a, k, tol, path[|path| - 1], b, NEWTON_STEPS - (|path| - 1));
    }
  }
}
