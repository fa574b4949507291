/** What a budget that is not fully spent says about a nearest point, and what the source's
    acceptance tolerances therefore cost. */
module Slack {
  import opened Vectors
  import opened Geometry
  import opened Projection

  /** A small enough step from a point with slack towards any z stays inside the ball. */
  lemma StepInside(w: seq<real>, b: real, p: seq<real>, z: seq<real>) returns (t: real)
    requires NonNeg(w) && |p| == |z| == |w| && Dot(w, AbsOf(p)) < b
    ensures 0.0 < t <= 1.0 && Dot(w, AbsOf(Blend(p, z, t))) <= b
  {
    hide Sum, Mul, AbsOf, Blend;
    var have, far := Dot(w, AbsOf(p)), Dot(w, AbsOf(z));
    if far <= b {
      t := 1.0;
    } else {
      Fraction(b - have, far - have);
      t := Over(b - have, far - have);
      assert Times(1.0 - t, have) + Times(t, far) == have + Times(t, far - have);
    }
    BlendSum(w, p, z, t);
    assert t == 1.0 ==> Times(1.0 - t, have) + Times(t, far) == far;
  }

  /** A budget with slack at the nearest point can be dropped. */
  lemma DropSlackBudget(S: iset<seq<real>>, w: seq<real>, b: real, T: iset<seq<real>>, y: seq<real>, p: seq<real>)
    requires Convex(S) && Convex(T) && NonNeg(w) && |y| == |w| == |p|
    requires forall z :: |z| == |w| ==> (z in T <==> z in S && Dot(w, AbsOf(z)) <= b)
    requires IsNearest(T, y, p) && Dot(w, AbsOf(p)) < b
    ensures IsNearest(S, y, p)
  {
    hide Sum, Mul, AbsOf, Dot, IsNearest, Times, Blend;
    NearestIsVariational(T, y, p);
    forall z | z in S && |z| == |y| ensures Dot(Minus(y, p), Minus(z, p)) <= 0.0 {
      var t := StepInside(w, b, p, z);
      assert Blend(p, z, t) in S;
      assert Dot(Minus(y, p), Minus(Blend(p, z, t), p)) <= 0.0;
      StepDot(y, p, z, t);
      PositiveFactor(t, Dot(Minus(y, p), Minus(z, p)));
    }
    VariationalIsNearest(S, y, p);
  }

  lemma StepDot(y: seq<real>, p: seq<real>, z: seq<real>, t: real)
    requires |y| == |p| == |z|
    ensures Dot(Minus(y, p), Minus(Blend(p, z, t), p)) == Times(t, Dot(Minus(y, p), Minus(z, p)))
  {
    DotSym(Minus(y, p), Minus(Blend(p, z, t), p));
    DotSym(Minus(y, p), Minus(z, p));
    DotScale(t, Minus(z, p), Minus(Blend(p, z, t), p), Minus(y, p));
  }

  lemma PositiveFactor(t: real, g: real)
    requires t > 0.0
    ensures Times(t, g) <= 0.0 ==> g <= 0.0
  {
    if g > 0.0 {
      PositiveProduct(t, g);
    }
  }

  lemma RegionAsCuts(k: Limits)
    ensures forall z :: |z| == |k.c| ==>
      (z in Region(k) <==> z in Ball(k.c, k.b2) && Dot(Ones(|k.c|), AbsOf(z)) <= k.b1)
    ensures forall z :: |z| == |k.c| ==>
      (z in Region(k) <==> z in Ball(Ones(|k.c|), k.b1) && Dot(k.c, AbsOf(z)) <= k.b2)
  {
    forall z: seq<real> | |z| == |k.c|
      ensures z in Region(k) <==> z in Ball(k.c, k.b2) && Dot(Ones(|k.c|), AbsOf(z)) <= k.b1
      ensures z in Region(k) <==> z in Ball(Ones(|k.c|), k.b1) && Dot(k.c, AbsOf(z)) <= k.b2
    {
      RegionIsIntersection(k, z);
    }
  }

  /** With leverage to spare, the nearest point of the region is that of the drawdown ball alone. */
  lemma LeverageSlack(k: Limits, y: seq<real>, p: seq<real>)
    requires |y| == |k.c| && Positives(k) && Feasible(k, p) && Norm1(p) < k.b1
    ensures IsNearest(Region(k), y, p) <==> IsNearest(Ball(k.c, k.b2), y, p)
  {
    hide Sum, Mul, AbsOf, Dot, IsNearest, Times, Convex, Ones, Const;
    Norm1AsDot(p);
    OnesConvex(|y|, k.b1);
    RegionConvex(k);
    BallConvex(k.c, k.b2);
    RegionInBalls(k);
    RegionAsCuts(k);
    if IsNearest(Region(k), y, p) {
      DropSlackBudget(Ball(k.c, k.b2), Ones(|y|), k.b1, Region(k), y, p);
    }
    if IsNearest(Ball(k.c, k.b2), y, p) {
      NearestInSubset(Ball(k.c, k.b2), Region(k), y, p);
    }
  }

  /** With drawdown budget to spare, it is that of the leverage ball alone. */
  lemma DrawdownSlack(k: Limits, y: seq<real>, p: seq<real>)
    requires |y| == |k.c| && Positives(k) && Feasible(k, p) && Dot(k.c, AbsOf(p)) < k.b2
    ensures IsNearest(Region(k), y, p) <==> IsNearest(Ball(Ones(|y|), k.b1), y, p)
  {
    hide Sum, Mul, AbsOf, Dot, IsNearest, Times, Convex, Ones, Const;
    RegionConvex(k);
    OnesConvex(|y|, k.b1);
    RegionInBalls(k);
    RegionAsCuts(k);
    if IsNearest(Region(k), y, p) {
      DropSlackBudget(Ball(Ones(|y|), k.b1), k.c, k.b2, Region(k), y, p);
    }
    if IsNearest(Ball(Ones(|y|), k.b1), y, p) {
      NearestInSubset(Ball(Ones(|y|), k.b1), Region(k), y, p);
    }
  }

  lemma OnesConvex(n: nat, b: real)
    ensures Convex(Ball(Ones(n), b)) && NonNeg(Ones(n)) && |Ones(n)| == n
  {
    BallConvex(Ones(n), b);
  }

  /** With both budgets to spare, only y itself is nearest to y. */
  lemma BothSlack(k: Limits, y: seq<real>, p: seq<real>)
    requires |y| == |k.c| && Positives(k) && Feasible(k, p) && !Feasible(k, y)
    requires Norm1(p) < k.b1 && Dot(k.c, AbsOf(p)) < k.b2
    ensures !IsNearest(Region(k), y, p)
  {
    LeverageSlack(k, y, p);
    if IsNearest(Ball(k.c, k.b2), y, p) {
      InsideBall(k.c, k.b2, y, p);
    }
  }

  lemma InsideBall(w: seq<real>, b: real, y: seq<real>, p: seq<real>)
    requires |y| == |w| == |p| && NonNeg(w) && Dot(w, AbsOf(p)) < b
    requires IsNearest(Ball(w, b), y, p)
    ensures p == y
  {
    hide Sum, Mul, AbsOf, Dot, IsNearest, Times;
    var all := iset z: seq<real> | |z| == |y|;
    BallConvex(w, b);
    DropSlackBudget(all, w, b, Ball(w, b), y, p);
    SelfNearest(all, y);
    NearestUnique(all, y, p, y);
  }
}
