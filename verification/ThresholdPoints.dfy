/** The point of a ball that soft thresholding reaches: it exists, it is unique, and it is
    what the exits of the projection are decided by. */
module ThresholdPoints {
  import opened Vectors
  import opened Sorting
  import opened Geometry
  import opened Projection

  /** x is y's magnitudes lowered by one multiple of w, until they spend exactly b. */
  ghost predicate ThresholdPoint(w: seq<real>, b: real, y: seq<real>, x: seq<real>) {
    && |w| == |y| == |x|
    && exists lam: real :: x == Shrink(AbsOf(y), Scale(lam, w)) && Dot(w, x) == b
  }

  ghost predicate LeveragePoint(k: Limits, y: seq<real>, x: seq<real>) {
    |y| == |k.c| && ThresholdPoint(Ones(|y|), k.b1, y, x)
  }

  ghost predicate DrawdownPoint(k: Limits, y: seq<real>, x: seq<real>) { ThresholdPoint(k.c, k.b2, y, x) }

  // ---- existence ----

  ghost function Below(n: nat): (r: set<nat>)
    ensures forall i: nat :: i in r <==> i < n
  {
    if n == 0 then {} else Below(n - 1) + {n - 1}
  }

  lemma DotWithout(v: seq<real>, y: seq<real>, i: nat)
    requires |v| == |y| && i < |v|
    ensures Dot(v[i := 0.0], y) == Dot(v, y) - Times(v[i], y[i])
  {
    hide Sum, Times;
    var full, cut := Mul(v, y), Mul(v[i := 0.0], y);
    SumWithout(full, i);
    SumWithout(cut, i);
    assert Without(full, i) == Without(cut, i);
    TimesZero(y[i]);
  }

  /** v keeps the weights of the active items and is zero elsewhere. */
  ghost predicate Restricts(v: seq<real>, w: seq<real>, active: set<nat>) {
    && |v| == |w| && (forall i :: i in active ==> i < |w|)
    && forall i :: 0 <= i < |w| ==> v[i] == if i in active then w[i] else 0.0
  }

  /** Solve for the active items alone; drop one that the solution would push below zero
      and solve again, from a larger multiplier. */
  lemma {:induction false} RootFrom(a: seq<real>, w: seq<real>, b: real, v: seq<real>, tau: real, active: set<nat>)
    returns (lam: real)
    requires |a| == |w| > 0 && Positive(w) && b > 0.0 && Restricts(v, w, active)
    requires forall i :: 0 <= i < |w| && i !in active ==> a[i] <= Times(tau, w[i])
    requires Dot(v, a) - Times(tau, Dot(v, w)) >= b
    ensures Dot(w, Shrink(a, Scale(lam, w))) == b
    decreases |active|
  {
    hide Sum, Times, Mul, Shrink, Scale, Dot, Over;
    var s, c := Dot(v, a), Dot(v, w);
    ActiveWeight(a, w, b, v, tau, active);
    var t := Over(s - b, c);
    Quotient(s - b, c);
    if t < tau {
      TimesStrict(c, t, tau);
      TimesSym(c, tau);
    }
    forall i | 0 <= i < |w| && i !in active ensures a[i] <= Times(t, w[i]) {
      TimesMonotone(w[i], tau, t);
      TimesSym(w[i], tau);
      TimesSym(w[i], t);
    }
    if i :| i in active && a[i] < Times(t, w[i]) {
      DotWithout(v, a, i);
      DotWithout(v, w, i);
      DroppedItem(t, w[i], a[i], c);
      TimesSym(c, t);
      lam := RootFrom(a, w, b, v[i := 0.0], t, active - {i});
    } else {
      lam := t;
      SeparatedRoot(a, w, v, t, active);
      TimesSym(c, t);
    }
  }

  lemma ActiveWeight(a: seq<real>, w: seq<real>, b: real, v: seq<real>, tau: real, active: set<nat>)
    requires |a| == |w| && Positive(w) && b > 0.0 && Restricts(v, w, active)
    requires Dot(v, a) - Times(tau, Dot(v, w)) >= b
    ensures Dot(v, w) > 0.0
  {
    hide Sum, Times;
    forall i | 0 <= i < |w| ensures Mul(v, w)[i] >= 0.0 {
      TimesZero(w[i]);
      PositiveProduct(w[i], w[i]);
    }
    SumNonNeg(Mul(v, w));
    if i :| i in active {
      PositiveProduct(w[i], w[i]);
      EntryAtMostSum(Mul(v, w), i);
    } else {
      forall i | 0 <= i < |w| ensures Mul(v, a)[i] == 0.0 && Mul(v, w)[i] == 0.0 {
        TimesZero(w[i]);
        TimesZero(a[i]);
      }
      SumOfZeros(Mul(v, a));
      SumOfZeros(Mul(v, w));
      TimesZero(tau);
    }
  }

  lemma DroppedItem(t: real, w: real, a: real, c: real)
    requires w > 0.0 && a < Times(t, w)
    ensures Times(t, c - Times(w, w)) <= Times(t, c) - Times(w, a)
  {
    TimesStrict(w, a, Times(t, w));
    assert Times(w, Times(t, w)) == Times(t, Times(w, w));
    assert Times(t, c - Times(w, w)) == Times(t, c) - Times(t, Times(w, w));
  }

  /** When the active items stay above zero and the others below, thresholding spends what
      the active items say. */
  lemma SeparatedRoot(a: seq<real>, w: seq<real>, v: seq<real>, t: real, active: set<nat>)
    requires |a| == |w| && Restricts(v, w, active)
    requires forall i :: i in active ==> a[i] >= Times(t, w[i])
    requires forall i :: 0 <= i < |w| && i !in active ==> a[i] <= Times(t, w[i])
    ensures Dot(w, Shrink(a, Scale(t, w))) == Dot(v, a) - Times(t, Dot(v, w))
  {
    hide Sum, Times;
    var x := Shrink(a, Scale(t, w));
    var both := Scale(-t, Mul(v, w));
    SumScale(-t, Mul(v, w), both);
    forall i | 0 <= i < |w| ensures Mul(w, x)[i] == Mul(v, a)[i] + both[i] {
      if i in active {
        SpentItem(w[i], a[i], t);
      } else {
        TimesZero(w[i]);
        TimesZero(a[i]);
        TimesZero(-t);
      }
    }
    SumAdd(Mul(v, a), both, Mul(w, x));
    assert Times(-t, Sum(Mul(v, w))) == -Times(t, Sum(Mul(v, w))) by { NegatedTimes(t, Sum(Mul(v, w))); }
  }

  lemma SpentItem(w: real, a: real, t: real)
    ensures Times(w, a - Times(t, w)) == Times(w, a) + Times(-t, Times(w, w))
  {
  }

  lemma NegatedTimes(t: real, c: real)
    ensures Times(-t, c) == -Times(t, c)
  {
  }

  lemma ThresholdExists(w: seq<real>, b: real, y: seq<real>) returns (x: seq<real>)
    requires |w| == |y| > 0 && Positive(w) && b > 0.0
    ensures ThresholdPoint(w, b, y, x)
  {
    hide Sum, Times, Mul, Shrink, Scale, Dot, Over, AbsOf;
    var a := AbsOf(y);
    var c := Dot(w, w);
    DotSelfPositive(w, 0);
    var tau := Over(Dot(w, a) - b, c);
    Quotient(Dot(w, a) - b, c);
    TimesSym(c, tau);
    var lam := RootFrom(a, w, b, w, tau, Below(|w|));
    x := Shrink(a, Scale(lam, w));
  }

  // ---- uniqueness ----

  lemma ThresholdUnique(w: seq<real>, b: real, y: seq<real>, x: seq<real>, z: seq<real>)
    requires Positive(w) && ThresholdPoint(w, b, y, x) && ThresholdPoint(w, b, y, z)
    ensures x == z
  {
    hide Sum, Times, Dot;
    var a := AbsOf(y);
    var l: real :| x == Shrink(a, Scale(l, w)) && Dot(w, x) == b;
    var m: real :| z == Shrink(a, Scale(m, w)) && Dot(w, z) == b;
    if l <= m {
      LowerThreshold(w, a, l, m, z, x);
      SameSpending(w, z, x);
    } else {
      LowerThreshold(w, a, m, l, x, z);
      SameSpending(w, x, z);
    }
  }

  lemma LowerThreshold(w: seq<real>, a: seq<real>, l: real, m: real, x: seq<real>, z: seq<real>)
    requires |w| == |a| && Positive(w) && l <= m
    requires x == Shrink(a, Scale(m, w)) && z == Shrink(a, Scale(l, w))
    ensures AtMost(x, z)
  {
    hide Times;
    forall i | 0 <= i < |x| ensures x[i] <= z[i] {
      TimesMonotone(w[i], l, m);
      TimesSym(w[i], l);
      TimesSym(w[i], m);
    }
  }

  lemma SameSpending(w: seq<real>, x: seq<real>, z: seq<real>)
    requires |w| == |x| == |z| && Positive(w) && AtMost(x, z) && Dot(w, x) == Dot(w, z)
    ensures x == z
  {
    hide Times, Sum;
    forall i | 0 <= i < |w| ensures Mul(w, x)[i] <= Mul(w, z)[i] {
      TimesMonotone(w[i], x[i], z[i]);
    }
    forall i | 0 <= i < |w| ensures x[i] == z[i] {
      if x[i] < z[i] {
        TimesStrict(w[i], x[i], z[i]);
        SumLeStrict(Mul(w, x), Mul(w, z), i);
      }
    }
  }

  // ---- what the points decide ----

  /** A leverage point as the scan of the source finds it, with one common threshold. */
  lemma LeverageThreshold(k: Limits, y: seq<real>, x: seq<real>) returns (th: real)
    requires LeveragePoint(k, y, x)
    ensures x == Shrink(AbsOf(y), Const(|y|, th)) && Sum(x) == k.b1
  {
    hide Dot, AbsOf, Shrink, Sum, Const, Scale;
    th :| x == Shrink(AbsOf(y), Scale(th, Ones(|y|))) && Dot(Ones(|y|), x) == k.b1;
    ConstAsScale(|y|, th);
    DotOnes(x);
  }

  lemma {:induction false} LeverageThresholdPoint(k: Limits, y: seq<real>, x: seq<real>, th: real)
    requires |y| == |k.c| == |x| && x == Shrink(AbsOf(y), Const(|y|, th)) && Sum(x) == k.b1
    ensures LeveragePoint(k, y, x)
  {
    hide Dot, AbsOf, Shrink, Sum, Const, Scale;
    ConstAsScale(|y|, th);
    DotOnes(x);
  }

  /** Both points exist for any allocation and positive limits, and there is one of each. */
  lemma PointsExist(k: Limits, y: seq<real>) returns (x1: seq<real>, x2: seq<real>)
    requires |y| == |k.c| > 0 && Positives(k) && k.b1 > 0.0 && k.b2 > 0.0
    ensures LeveragePoint(k, y, x1) && DrawdownPoint(k, y, x2)
  {
    x1 := ThresholdExists(Ones(|y|), k.b1, y);
    x2 := ThresholdExists(k.c, k.b2, y);
  }

  lemma PointsUnique(k: Limits, y: seq<real>, x1: seq<real>, x2: seq<real>, z1: seq<real>, z2: seq<real>)
    requires Positives(k) && LeveragePoint(k, y, x1) && DrawdownPoint(k, y, x2)
    requires LeveragePoint(k, y, z1) && DrawdownPoint(k, y, z2)
    ensures x1 == z1 && x2 == z2
  {
    ThresholdUnique(Ones(|y|), k.b1, y, x1, z1);
    ThresholdUnique(k.c, k.b2, y, x2, z2);
  }

  /** Beyond a ball, its threshold point is the one nearest point of the ball. */
  lemma BeyondBall(w: seq<real>, b: real, y: seq<real>, x: seq<real>, p: seq<real>)
    requires Positive(w) && ThresholdPoint(w, b, y, x) && Dot(w, AbsOf(y)) > b
    ensures AbsOf(Signed(x, y)) == x
    ensures IsNearest(Ball(w, b), y, p) <==> p == Signed(x, y)
  {
    hide Sum, Times, Dot, IsNearest, AbsOf, Shrink, Scale, Signed, Ball;
    var lam: real :| x == Shrink(AbsOf(y), Scale(lam, w)) && Dot(w, x) == b;
    NearestInBall(w, b, y, lam, x);
    if IsNearest(Ball(w, b), y, p) {
      NearestUnique(Ball(w, b), y, p, Signed(x, y));
    }
  }
}
