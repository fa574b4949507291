/** Nearest points of convex regions, and the region the sizer projects onto:
    an L1 ball intersected with a weighted L1 ball. */
module Geometry {
  import opened Vectors

  // ---- nearest points in general ----

  /** p is the only point of S at the least distance from y. */
  ghost predicate IsNearest(S: iset<seq<real>>, y: seq<real>, p: seq<real>) {
    && p in S && |p| == |y|
    && forall z :: z in S && |z| == |y| && z != p ==> Dist2(y, p) < Dist2(y, z)
  }

  /** The angle at p between y and every point of S is not acute. */
  ghost predicate Variational(S: iset<seq<real>>, y: seq<real>, p: seq<real>) {
    && p in S && |p| == |y|
    && forall z :: z in S && |z| == |y| ==> Dot(Minus(y, p), Minus(z, p)) <= 0.0
  }

  function Blend(u: seq<real>, v: seq<real>, t: real): (r: seq<real>)
    requires |u| == |v|
    ensures |r| == |u| && forall i :: 0 <= i < |u| ==> r[i] == u[i] + Times(t, v[i] - u[i])
  {
    seq(|u|, i requires 0 <= i < |u| => u[i] + Times(t, v[i] - u[i]))
  }

  ghost predicate Convex(S: iset<seq<real>>) {
    forall u, v, t: real :: u in S && v in S && |u| == |v| && 0.0 <= t <= 1.0 ==> Blend(u, v, t) in S
  }

  lemma VariationalIsNearest(S: iset<seq<real>>, y: seq<real>, p: seq<real>)
    requires Variational(S, y, p)
    ensures IsNearest(S, y, p)
  {
    forall z | z in S && |z| == |y| && z != p ensures Dist2(y, p) < Dist2(y, z) {
      Cosine(y, p, z);
      Dist2Positive(p, z);
    }
  }

  /** The converse needs convexity: a short step towards z must not come closer to y. */
  lemma NearestIsVariational(S: iset<seq<real>>, y: seq<real>, p: seq<real>)
    requires Convex(S) && IsNearest(S, y, p)
    ensures Variational(S, y, p)
  {
    forall z | z in S && |z| == |y| ensures Dot(Minus(y, p), Minus(z, p)) <= 0.0 {
      var t := ShortStep(y, p, z);
      assert Blend(p, z, t) in S;
    }
  }

  /** If z lies on y's side of p, some step from p towards z comes closer to y. */
  lemma ShortStep(y: seq<real>, p: seq<real>, z: seq<real>) returns (t: real)
    requires |y| == |p| == |z|
    ensures 0.0 <= t <= 1.0
    ensures Dot(Minus(y, p), Minus(z, p)) > 0.0 ==> Dist2(y, Blend(p, z, t)) < Dist2(y, p)
  {
    var g, d := Dot(Minus(y, p), Minus(z, p)), Dot(Minus(z, p), Minus(z, p));
    DotSelfNonNeg(Minus(z, p));
    if g <= 0.0 {
      return 0.0;
    }
    t := if d <= g then 1.0 else Over(g, d);
    if d > g {
      Fraction(g, d);
    }
    var q := Blend(p, z, t);
    var step := Minus(q, p);
    forall i | 0 <= i < |y| ensures step[i] == Times(t, Minus(z, p)[i]) {}
    DotScale(t, Minus(z, p), step, Minus(y, p));
    DotScale(t, Minus(z, p), step, step);
    DotScale(t, Minus(z, p), step, Minus(z, p));
    DotSym(step, Minus(y, p));
    DotSym(Minus(z, p), Minus(y, p));
    DotSym(Minus(z, p), step);
    Cosine(y, p, q);
    Dist2Sym(p, q);
    assert Dist2(y, q) == Dist2(y, p) + Times(t, Times(t, d)) - 2.0 * Times(t, g);
    assert Times(t, d) <= g;
    TimesMonotone(t, Times(t, d), g);
    PositiveProduct(t, g);
  }

  lemma Fraction(g: real, d: real)
    requires 0.0 < g < d
    ensures 0.0 < Over(g, d) < 1.0 && Times(Over(g, d), d) == g
  {
    Quotient(g, d);
    var t := Over(g, d);
    if t >= 1.0 {
      TimesMonotone(d, 1.0, t);
    } else if t <= 0.0 {
      TimesMonotone(d, t, 0.0);
    }
  }

  /** Projections onto a convex region never move two points apart. */
  lemma NonExpansive(S: iset<seq<real>>, y1: seq<real>, y2: seq<real>, p1: seq<real>, p2: seq<real>)
    requires Convex(S) && |y1| == |y2|
    requires IsNearest(S, y1, p1) && IsNearest(S, y2, p2)
    ensures Dist2(p1, p2) <= Dist2(y1, y2)
  {
    NearestIsVariational(S, y1, p1);
    NearestIsVariational(S, y2, p2);
    var u, v := Minus(y1, p1), Minus(y2, p2);
    var pd, yd := Minus(p1, p2), Minus(y1, y2);
    var ud := Minus(u, v);
    assert Dot(u, Minus(p2, p1)) <= 0.0 && Dot(v, pd) <= 0.0;
    DotNegated(u, p1, p2);
    DotAdd(ud, v, u, pd);
    assert Dot(ud, pd) >= 0.0;
    DotSquareOfSum(ud, pd, yd);
    DotSelfNonNeg(ud);
  }

  lemma DotNegated(u: seq<real>, p: seq<real>, q: seq<real>)
    requires |u| == |p| == |q|
    ensures Dot(u, Minus(p, q)) == -Dot(u, Minus(q, p))
  {
    var a, b := Mul(u, Minus(p, q)), Mul(u, Minus(q, p));
    forall i | 0 <= i < |u| ensures Plus(a, b)[i] == 0.0 {
      assert Minus(q, p)[i] == -Minus(p, q)[i];
    }
    SumAdd(a, b, Plus(a, b));
    SumOfZeros(Plus(a, b));
  }

  lemma DotSquareOfSum(a: seq<real>, b: seq<real>, s: seq<real>)
    requires |a| == |b| == |s|
    requires forall i :: 0 <= i < |a| ==> s[i] == a[i] + b[i]
    ensures Dot(s, s) == Dot(a, a) + 2.0 * Dot(a, b) + Dot(b, b)
  {
    DotAdd(a, b, s, s);
    DotSym(a, s);
    DotSym(b, s);
    DotAdd(a, b, s, a);
    DotAdd(a, b, s, b);
    DotSym(a, b);
  }

  /** A nearest point of a larger region that lies in the smaller one is nearest there too. */
  lemma NearestInSubset(S: iset<seq<real>>, T: iset<seq<real>>, y: seq<real>, p: seq<real>)
    requires T <= S && IsNearest(S, y, p) && p in T
    ensures IsNearest(T, y, p)
  {
  }

  lemma NearestUnique(S: iset<seq<real>>, y: seq<real>, p: seq<real>, q: seq<real>)
    requires IsNearest(S, y, p) && IsNearest(S, y, q)
    ensures p == q
  {
  }

  // ---- the two balls ----

  /** The leverage bound b1 and the drawdown budget b2 with per-asset weights c. */
  datatype Limits = Limits(c: seq<real>, b1: real, b2: real)

  function Ones(n: nat): seq<real> { Const(n, 1.0) }

  /** Points whose weighted absolute sum is at most b. */
  ghost function Ball(w: seq<real>, b: real): iset<seq<real>> {
    iset z: seq<real> | |z| == |w| && Dot(w, AbsOf(z)) <= b
  }

  predicate Feasible(k: Limits, z: seq<real>) {
    |z| == |k.c| && Norm1(z) <= k.b1 && Dot(k.c, AbsOf(z)) <= k.b2
  }

  ghost function Region(k: Limits): iset<seq<real>> {
    iset z: seq<real> | Feasible(k, z)
  }

  lemma {:induction false} DotOnes(x: seq<real>)
    ensures Dot(Ones(|x|), x) == Sum(x)
  {
    assert Mul(Ones(|x|), x) == x;
  }

  lemma Norm1AsDot(z: seq<real>)
    ensures Dot(Ones(|z|), AbsOf(z)) == Norm1(z)
  {
    DotOnes(AbsOf(z));
  }

  lemma RegionIsIntersection(k: Limits, z: seq<real>)
    requires |z| == |k.c|
    ensures z in Region(k) <==> z in Ball(Ones(|k.c|), k.b1) && z in Ball(k.c, k.b2)
  {
    Norm1AsDot(z);
  }

  lemma RegionInBalls(k: Limits)
    ensures Region(k) <= Ball(Ones(|k.c|), k.b1)
    ensures Region(k) <= Ball(k.c, k.b2)
  {
    forall z | z in Region(k) ensures z in Ball(Ones(|k.c|), k.b1) && z in Ball(k.c, k.b2) {
      RegionIsIntersection(k, z);
    }
  }

  lemma BallConvex(w: seq<real>, b: real)
    requires NonNeg(w)
    ensures Convex(Ball(w, b))
  {
    hide Times, AbsOf, Blend, Sum, Mul, Dot, NonNeg;
    forall u, v, t: real | u in Ball(w, b) && v in Ball(w, b) && 0.0 <= t <= 1.0
      ensures Blend(u, v, t) in Ball(w, b)
    {
      BlendInBall(w, b, u, v, t);
    }
  }

  /** A weighted absolute sum is convex along a segment. */
  lemma BlendSum(w: seq<real>, u: seq<real>, v: seq<real>, t: real)
    requires NonNeg(w) && |u| == |v| == |w| && 0.0 <= t <= 1.0
    ensures Dot(w, AbsOf(Blend(u, v, t))) <= Times(1.0 - t, Dot(w, AbsOf(u))) + Times(t, Dot(w, AbsOf(v)))
  {
    hide AbsOf, Blend, Scale, Plus, Mul, Sum;
    var s := 1.0 - t;
    var mix := Plus(Scale(s, AbsOf(u)), Scale(t, AbsOf(v)));
    forall i | 0 <= i < |w| ensures AbsOf(Blend(u, v, t))[i] <= mix[i] {
      BlendAbs(u[i], v[i], s, t);
    }
    DotMonotone(w, AbsOf(Blend(u, v, t)), mix);
    DotSym(w, mix);
    DotSym(w, AbsOf(u));
    DotSym(w, AbsOf(v));
    DotAdd(Scale(s, AbsOf(u)), Scale(t, AbsOf(v)), mix, w);
    DotScale(s, AbsOf(u), Scale(s, AbsOf(u)), w);
    DotScale(t, AbsOf(v), Scale(t, AbsOf(v)), w);
  }

  lemma BlendInBall(w: seq<real>, b: real, u: seq<real>, v: seq<real>, t: real)
    requires NonNeg(w) && |u| == |v| == |w| && 0.0 <= t <= 1.0
    requires Dot(w, AbsOf(u)) <= b && Dot(w, AbsOf(v)) <= b
    ensures Dot(w, AbsOf(Blend(u, v, t))) <= b
  {
    BlendSum(w, u, v, t);
    TimesMonotone(1.0 - t, Dot(w, AbsOf(u)), b);
    TimesMonotone(t, Dot(w, AbsOf(v)), b);
    assert Times(1.0 - t, b) + Times(t, b) == b;
  }

  lemma BlendAbs(u: real, v: real, s: real, t: real)
    requires 0.0 <= t <= 1.0 && s == 1.0 - t
    ensures Abs(u + Times(t, v - u)) <= Times(s, Abs(u)) + Times(t, Abs(v))
  {
    assert u + Times(t, v - u) == Times(s, u) + Times(t, v);
    TimesMonotone(s, u, Abs(u));
    TimesMonotone(s, -Abs(u), u);
    TimesMonotone(t, v, Abs(v));
    TimesMonotone(t, -Abs(v), v);
    assert Times(s, -Abs(u)) == -Times(s, Abs(u)) && Times(t, -Abs(v)) == -Times(t, Abs(v));
  }

  lemma RegionConvex(k: Limits)
    requires NonNeg(k.c)
    ensures Convex(Region(k))
  {
    BallConvex(Ones(|k.c|), k.b1);
    BallConvex(k.c, k.b2);
    forall u, v, t: real | u in Region(k) && v in Region(k) && 0.0 <= t <= 1.0
      ensures Blend(u, v, t) in Region(k)
    {
      RegionIsIntersection(k, u);
      RegionIsIntersection(k, v);
      RegionIsIntersection(k, Blend(u, v, t));
    }
  }

  // ---- soft thresholds and their optimality ----

  /** Every coordinate of a lowered by t, stopping at zero. */
  function Shrink(a: seq<real>, t: seq<real>): (x: seq<real>)
    requires |a| == |t|
    ensures |x| == |a| && forall i :: 0 <= i < |a| ==> x[i] == Max(0.0, a[i] - t[i])
  {
    seq(|a|, i requires 0 <= i < |a| => Max(0.0, a[i] - t[i]))
  }

  /** The magnitudes x with the signs of y, and zero where y is zero. */
  function Signed(x: seq<real>, y: seq<real>): (r: seq<real>)
    requires |x| == |y|
    ensures |r| == |x|
    ensures forall i :: 0 <= i < |x| ==>
      r[i] == if y[i] > 0.0 then x[i] else if y[i] < 0.0 then -x[i] else 0.0
  {
    seq(|x|, i requires 0 <= i < |x| =>
      if y[i] > 0.0 then x[i] else if y[i] < 0.0 then -x[i] else 0.0)
  }

  /** No coordinate changes sign and zero coordinates stay zero. */
  ghost predicate KeepsSigns(y: seq<real>, r: seq<real>) {
    && |r| == |y|
    && forall i :: 0 <= i < |y| ==>
         && (y[i] == 0.0 ==> r[i] == 0.0)
         && (y[i] > 0.0 ==> r[i] >= 0.0)
         && (y[i] < 0.0 ==> r[i] <= 0.0)
  }

  /** The heart of every optimality proof below: soft thresholding by t pushes y
      away from any z by no more than t charges for the extra magnitude of z. */
  lemma ShrinkInequality(y: seq<real>, t: seq<real>, x: seq<real>, z: seq<real>)
    requires |y| == |t| == |x| == |z| && NonNeg(t)
    requires x == Shrink(AbsOf(y), t)
    ensures AbsOf(Signed(x, y)) == x
    ensures Dot(Minus(y, Signed(x, y)), Minus(z, Signed(x, y))) <= Dot(t, AbsOf(z)) - Dot(t, x)
  {
    hide Times, Mul, Minus, Sum, Shrink;
    var p := Signed(x, y);
    var left, right := Mul(Minus(y, p), Minus(z, p)), Minus(Mul(t, AbsOf(z)), Mul(t, x));
    forall i | 0 <= i < |y| ensures left[i] <= right[i] {
      ShrinkTerm(y[i], t[i], p[i], x[i], z[i]);
    }
    SumLe(left, right);
    SumAdd(right, Mul(t, x), Mul(t, AbsOf(z)));
    assert AbsOf(p) == x;
  }

  lemma ShrinkTerm(y: real, t: real, p: real, x: real, z: real)
    requires t >= 0.0 && x == Max(0.0, Abs(y) - t)
    requires p == if y > 0.0 then x else if y < 0.0 then -x else 0.0
    ensures Times(y - p, z - p) <= Times(t, Abs(z)) - Times(t, x)
  {
    if Abs(y) > t {
      TimesMonotone(t, z, Abs(z));
      TimesMonotone(t, -z, Abs(z));
      if y > 0.0 {
        assert Times(y - p, z - p) == Times(t, z) - Times(t, x);
      } else {
        assert Times(y - p, z - p) == Times(t, -z) - Times(t, x);
      }
    } else {
      TimesZero(t);
      ClosedTerm(y, t, z);
    }
  }

  lemma ClosedTerm(y: real, t: real, z: real)
    requires Abs(y) <= t
    ensures Times(y, z) <= Times(t, Abs(z))
  {
    TimesMonotone(Abs(z), Abs(y), t);
    TimesSym(Abs(z), t);
    if (y >= 0.0) == (z >= 0.0) {
      assert Times(Abs(z), Abs(y)) == Times(y, z);
    } else {
      assert Times(Abs(z), Abs(y)) == -Times(y, z);
      NonNegProduct(Abs(z), Abs(y));
    }
  }

  /** A single multiplier that spends the whole budget of one ball gives its nearest point. */
  lemma BallCertificate(w: seq<real>, b: real, y: seq<real>, lam: real, x: seq<real>)
    requires |y| == |w| == |x| && NonNeg(w) && lam >= 0.0
    requires x == Shrink(AbsOf(y), Scale(lam, w)) && Dot(w, x) == b
    ensures IsNearest(Ball(w, b), y, Signed(x, y))
  {
    hide Times, Mul, AbsOf, Const, Scale, Plus, Minus, Shrink, Signed, Sum;
    forall z | z in Ball(w, b) && |z| == |y|
      ensures Dot(Minus(y, Signed(x, y)), Minus(z, Signed(x, y))) <= 0.0
    {
      BallInequality(w, b, y, lam, x, z);
    }
    BallInequality(w, b, y, lam, x, Const(|y|, 0.0));
    VariationalIsNearest(Ball(w, b), y, Signed(x, y));
  }

  lemma BallInequality(w: seq<real>, b: real, y: seq<real>, lam: real, x: seq<real>, z: seq<real>)
    requires |y| == |w| == |x| == |z| && NonNeg(w) && lam >= 0.0
    requires x == Shrink(AbsOf(y), Scale(lam, w)) && Dot(w, x) == b
    ensures AbsOf(Signed(x, y)) == x
    ensures Dot(w, AbsOf(z)) <= b ==> Dot(Minus(y, Signed(x, y)), Minus(z, Signed(x, y))) <= 0.0
  {
    var t := Scale(lam, w);
    forall i | 0 <= i < |w| ensures t[i] >= 0.0 {
      NonNegProduct(lam, w[i]);
    }
    ShrinkInequality(y, t, x, z);
    DotScale(lam, w, t, AbsOf(z));
    DotScale(lam, w, t, x);
    if Dot(w, AbsOf(z)) <= b {
      TimesMonotone(lam, Dot(w, AbsOf(z)), b);
    }
  }

  /** The price vector of two multipliers. */
  function Prices(c: seq<real>, l1: real, l2: real): (t: seq<real>)
    ensures |t| == |c| && forall i :: 0 <= i < |c| ==> t[i] == l1 + Times(l2, c[i])
  {
    seq(|c|, i requires 0 <= i < |c| => l1 + Times(l2, c[i]))
  }

  lemma {:induction false} DotPrices(c: seq<real>, l1: real, l2: real, x: seq<real>)
    requires |x| == |c|
    ensures Dot(Prices(c, l1, l2), x) == Times(l1, Sum(x)) + Times(l2, Dot(c, x))
  {
    var n := |c|;
    DotScale(l1, Ones(n), Const(n, l1), x);
    DotScale(l2, c, Scale(l2, c), x);
    DotAdd(Const(n, l1), Scale(l2, c), Prices(c, l1, l2), x);
    DotOnes(x);
  }

  /** Non-negative multipliers that both spend their budgets give the nearest point of the region. */
  lemma {:induction false} RegionCertificate(k: Limits, y: seq<real>, l1: real, l2: real, x: seq<real>)
    requires |y| == |k.c| == |x| && NonNeg(k.c) && l1 >= 0.0 && l2 >= 0.0
    requires x == Shrink(AbsOf(y), Prices(k.c, l1, l2))
    requires Sum(x) == k.b1 && Dot(k.c, x) == k.b2
    ensures IsNearest(Region(k), y, Signed(x, y))
  {
    forall z | z in Region(k) && |z| == |y|
      ensures Dot(Minus(y, Signed(x, y)), Minus(z, Signed(x, y))) <= 0.0
    {
      RegionInequality(k, y, l1, l2, x, z);
    }
    RegionInequality(k, y, l1, l2, x, Const(|y|, 0.0));
    VariationalIsNearest(Region(k), y, Signed(x, y));
  }

  lemma {:induction false} RegionInequality(k: Limits, y: seq<real>, l1: real, l2: real, x: seq<real>, z: seq<real>)
    requires |y| == |k.c| == |x| == |z| && NonNeg(k.c) && l1 >= 0.0 && l2 >= 0.0
    requires x == Shrink(AbsOf(y), Prices(k.c, l1, l2))
    requires Sum(x) == k.b1 && Dot(k.c, x) == k.b2
    ensures AbsOf(Signed(x, y)) == x
    ensures Feasible(k, z) ==> Dot(Minus(y, Signed(x, y)), Minus(z, Signed(x, y))) <= 0.0
  {
    var t := Prices(k.c, l1, l2);
    forall i | 0 <= i < |t| ensures t[i] >= 0.0 {
      NonNegProduct(l2, k.c[i]);
    }
    ShrinkInequality(y, t, x, z);
    DotPrices(k.c, l1, l2, AbsOf(z));
    DotPrices(k.c, l1, l2, x);
    if Feasible(k, z) {
      TimesMonotone(l1, Norm1(z), k.b1);
      TimesMonotone(l2, Dot(k.c, AbsOf(z)), k.b2);
    }
  }
}
