/** The boundary solver of UnifiedConvexExecutionSizer.solve: spectral projected gradient
    steps with a backtracking line search, for any objective and any gradient oracle. */
module SpectralGradient {
  import opened Vectors
  import opened Geometry
  import opened Projection
  import opened Newton
  import opened TwoBudgetProjection

  const ARMIJO := 0.0001
  const LINE_TRIALS := 10
  const DEFAULT_ALPHA := 25.0
  const MIN_ALPHA := 0.01
  const MAX_ALPHA := 10000.0
  const CURVATURE_FLOOR := 0.000000000001

  /** One iteration: the projected trial point and the exit it left by, the step length and
      the tracked objective. */
  datatype Step = Step(start: seq<real>, grad: seq<real>, alpha: real, trial: seq<real>, exit: Exit,
                       accepted: bool, beta: real, next: seq<real>, before: real, after: real)

  /** The unconstrained gradient step that is projected. */
  function Target(nu: seq<real>, g: seq<real>, alpha: real): (r: seq<real>)
    requires |g| == |nu|
    ensures |r| == |nu| && forall i :: 0 <= i < |nu| ==> r[i] == nu[i] + Times(alpha, g[i])
  {
    seq(|nu|, i requires 0 <= i < |nu| => nu[i] + Times(alpha, g[i]))
  }

  function HalfPower(j: nat): real { if j == 0 then 1.0 else 0.5 * HalfPower(j - 1) }

  lemma {:induction false} HalfPowerBounds(j: nat)
    ensures 0.0 < HalfPower(j) <= 1.0
  {
    if j > 0 {
      HalfPowerBounds(j - 1);
    }
  }

  // ---- one step ----

  /** An exact trial point makes the gradient and the move agree: alpha * (g . d) >= d . d. */
  lemma ProjectedStepAscends(k: Limits, nu: seq<real>, g: seq<real>, alpha: real, target: seq<real>, trial: seq<real>)
    requires |nu| == |g| == |target| == |k.c| && Positives(k) && Feasible(k, nu)
    requires target == Target(nu, g, alpha)
    requires IsNearest(Region(k), target, trial)
    ensures Times(alpha, Dot(g, Minus(trial, nu))) >= Dot(Minus(trial, nu), Minus(trial, nu))
  {
    hide Sum, Mul, Times, IsNearest, Convex;
    RegionConvex(k);
    NearestIsVariational(Region(k), target, trial);
    var d, back := Minus(trial, nu), Minus(nu, trial);
    assert Dot(Minus(target, trial), back) <= 0.0;
    var ag := Scale(alpha, g);
    DotNegated(Minus(target, trial), nu, trial);
    assert Dot(Minus(target, trial), d) >= 0.0;
    DotAdd(Minus(target, trial), d, ag, d);
    DotScale(alpha, g, ag, d);
  }

  /** None of the first n halvings passes the sufficient-increase test. */
  ghost predicate NoGain(f: seq<real> -> real, nu: seq<real>, trial: seq<real>, level: real, slope: real, n: nat)
    requires |nu| == |trial|
  {
    forall i: nat :: i < n ==>
      f(Blend(nu, trial, HalfPower(i))) < level + Times(0.0001 * HalfPower(i), slope)
  }

  /** Halving j passes the test and no earlier one does. */
  ghost predicate FirstGain(f: seq<real> -> real, nu: seq<real>, trial: seq<real>, level: real, slope: real, j: nat)
    requires |nu| == |trial|
  {
    && NoGain(f, nu, trial, level, slope, j)
    && f(Blend(nu, trial, HalfPower(j))) >= level + Times(0.0001 * HalfPower(j), slope)
  }

  lemma NoGainStart(f: seq<real> -> real, nu: seq<real>, trial: seq<real>, level: real, slope: real)
    requires |nu| == |trial|
    ensures NoGain(f, nu, trial, level, slope, 0)
  {
  }

  lemma NoGainNext(f: seq<real> -> real, nu: seq<real>, trial: seq<real>, level: real, slope: real, j: nat)
    requires |nu| == |trial| && NoGain(f, nu, trial, level, slope, j)
    requires f(Blend(nu, trial, HalfPower(j))) < level + Times(0.0001 * HalfPower(j), slope)
    ensures NoGain(f, nu, trial, level, slope, j + 1)
  {
  }

  lemma {:induction false} GainFound(f: seq<real> -> real, nu: seq<real>, trial: seq<real>, level: real, slope: real,
                                     j: nat)
    requires |nu| == |trial| && NoGain(f, nu, trial, level, slope, j)
    requires f(Blend(nu, trial, HalfPower(j))) >= level + Times(0.0001 * HalfPower(j), slope)
    ensures FirstGain(f, nu, trial, level, slope, j)
  {
  }

  /** Backtracking: the first of ten halvings that gains enough, if any. */
  method LineSearch(f: seq<real> -> real, nu: seq<real>, trial: seq<real>, level: real, slope: real)
    returns (accepted: bool, beta: real, next: seq<real>, after: real)
    requires |nu| == |trial|
    ensures accepted ==> next == Blend(nu, trial, beta) && after == f(next)
    ensures accepted ==> after >= level + Times(0.0001 * beta, slope)
    ensures accepted ==>
      exists j: nat :: j < 10 && beta == HalfPower(j) && FirstGain(f, nu, trial, level, slope, j)
    ensures !accepted ==> next == trial && after == level && NoGain(f, nu, trial, level, slope, 10)
  {
    hide NoGain, FirstGain, Blend, Times;
    accepted, beta, next, after := false, 1.0, trial, level;
    NoGainStart(f, nu, trial, level, slope);
    var j: nat := 0;
    while j < LINE_TRIALS
      invariant j <= 10 && beta == HalfPower(j)
      invariant NoGain(f, nu, trial, level, slope, j)
    {
      var point := Blend(nu, trial, beta);
      var value := f(point);
      if value >= level + Times(ARMIJO * beta, slope) {
        GainFound(f, nu, trial, level, slope, j);
        return true, beta, point, value;
      }
      NoGainNext(f, nu, trial, level, slope, j);
      beta := 0.5 * beta;
      j := j + 1;
    }
  }

  // ---- what one iteration does ----

  ghost predicate Sized(k: Limits, s: Step) {
    |s.start| == |s.trial| == |s.next| == |s.grad| == |k.c| && s.alpha > 0.0
  }

  /** The trial point is what the projection makes of the gradient step. */
  ghost predicate Tried(k: Limits, tol: Tolerances, s: Step)
    requires Sized(k, s) && Positives(k) && tol.Valid()
  {
    ProjectedBy(k, tol, false, Target(s.start, s.grad, s.alpha), s.trial, s.exit)
  }

  function Slope(s: Step): real
    requires |s.start| == |s.trial| == |s.grad|
  {
    Dot(s.grad, Minus(s.trial, s.start))
  }

  /** Accepted: the first halving that gains enough, at its own value.  Rejected: none of
      them does, and the trial point is taken at the old tracked value. */
  ghost predicate Moved(f: seq<real> -> real, s: Step)
    requires |s.start| == |s.trial| == |s.grad|
  {
    if s.accepted then
      && (exists j: nat ::
            j < 10 && s.beta == HalfPower(j) && FirstGain(f, s.start, s.trial, s.before, Slope(s), j))
      && s.next == Blend(s.start, s.trial, s.beta) && s.after == f(s.next)
    else
      && NoGain(f, s.start, s.trial, s.before, Slope(s), 10)
      && s.next == s.trial && s.after == s.before
  }

  ghost predicate Legal(k: Limits, tol: Tolerances, f: seq<real> -> real, s: Step)
    requires Positives(k) && tol.Valid()
  {
    Sized(k, s) && Tried(k, tol, s) && Moved(f, s)
  }

  /** The Barzilai-Borwein step length, clipped, or the default without curvature. */
  function NextAlpha(s: seq<real>, yDiff: seq<real>): (alpha: real)
    requires |s| == |yDiff|
    ensures 0.01 <= alpha <= 10000.0
  {
    var sy := Dot(s, yDiff);
    if sy > CURVATURE_FLOOR then Clip(Over(Dot(s, s), sy), MIN_ALPHA, MAX_ALPHA) else DEFAULT_ALPHA
  }

  /** With curvature along the step, the step length is the number in [0.01, 10000] closest to
      the ratio of s.s and s.y; without, it is 25. */
  lemma NextAlphaMeaning(s: seq<real>, yDiff: seq<real>, r: real)
    requires |s| == |yDiff| && Times(r, Dot(s, yDiff)) == Dot(s, s)
    ensures Dot(s, yDiff) <= 0.000000000001 ==> NextAlpha(s, yDiff) == 25.0
    ensures Dot(s, yDiff) > 0.000000000001 ==>
      0.01 <= NextAlpha(s, yDiff) <= 10000.0
      && (0.01 <= r <= 10000.0 ==> NextAlpha(s, yDiff) == r)
      && (r < 0.01 ==> NextAlpha(s, yDiff) == 0.01) && (r > 10000.0 ==> NextAlpha(s, yDiff) == 10000.0)
  {
    hide Dot, Times, Over;
    var sy := Dot(s, yDiff);
    if sy > 0.000000000001 {
      Quotient(Dot(s, s), sy);
      SameQuotient(r, Over(Dot(s, s), sy), sy);
    }
  }

  lemma SameQuotient(a: real, b: real, k: real)
    requires k > 0.0 && Times(a, k) == Times(b, k)
    ensures a == b
  {
    TimesSym(a, k);
    TimesSym(b, k);
    if a < b {
      TimesStrict(k, a, b);
    } else if b < a {
      TimesStrict(k, b, a);
    }
  }

  /** That ratio is the step length of the secant equation: of all multiples of s, the one by
      its inverse comes closest to the change of the gradient. */
  lemma SecantStep(s: seq<real>, yDiff: seq<real>, r: real, t: real)
    requires |s| == |yDiff| && Dot(s, s) > 0.0 && r != 0.0 && Times(r, Dot(s, yDiff)) == Dot(s, s)
    ensures Dist2(Scale(Over(1.0, r), s), yDiff) <= Dist2(Scale(t, s), yDiff)
  {
    hide Dot, Times, Sum;
    var b := Over(1.0, r);
    MultipleDistance(s, yDiff, b);
    MultipleDistance(s, yDiff, t);
    LeastMultiple(Dot(s, s), Dot(s, yDiff), r, b, t);
  }

  lemma MultipleDistance(s: seq<real>, y: seq<real>, t: real)
    requires |s| == |y|
    ensures Dist2(Scale(t, s), y) == Times(t, Times(t, Dot(s, s))) - 2.0 * Times(t, Dot(s, y)) + Dot(y, y)
  {
    hide Dot, Times, Sum;
    var ts, o := Scale(t, s), Const(|s|, 0.0);
    Cosine(ts, o, y);
    assert Minus(ts, o) == ts && Minus(y, o) == y;
    Dist2AsDot(ts, o);
    Dist2AsDot(y, o);
    Dist2Sym(o, y);
    DotScale(t, s, ts, ts);
    DotScale(t, s, ts, y);
    DotScale(t, s, ts, s);
    DotSym(s, ts);
  }

  lemma LeastMultiple(ss: real, sy: real, r: real, b: real, t: real)
    requires ss > 0.0 && r != 0.0 && Times(r, sy) == ss && b == Over(1.0, r)
    ensures Times(b, Times(b, ss)) - 2.0 * Times(b, sy) <= Times(t, Times(t, ss)) - 2.0 * Times(t, sy)
  {
    assert r * b == 1.0;
    assert sy == b * ss by {
      assert r * (b * ss) == ss;
      assert r * (sy - b * ss) == 0.0;
    }
    assert t * (t * ss) - 2.0 * (t * sy) - (b * (b * ss) - 2.0 * (b * sy)) == (t - b) * (t - b) * ss;
    SquarePositive(t - b);
    NonNegProduct(Times(t - b, t - b), ss);
  }

  /** t takes up exactly where s stopped: the point, the tracked value, the gradient (renewed
      only after an accepted step) and the step length. */
  ghost predicate Follows(grad: seq<real> -> seq<real>, s: Step, t: Step) {
    && t.start == s.next && t.before == s.after
    && t.grad == (if s.accepted then grad(s.next) else s.grad)
    && |s.next| == |s.start| == |s.grad| == |t.grad|
    && t.alpha == NextAlpha(Minus(s.next, s.start), Minus(s.grad, t.grad))
  }

  ghost predicate Joined(grad: seq<real> -> seq<real>, trace: seq<Step>) {
    forall i :: 0 < i < |trace| ==> Follows(grad, trace[i - 1], trace[i])
  }

  /** A run from a feasible start: legal iterations, each taking up where the last stopped.
      Nothing is said here of where the later points lie or what they are worth. */
  ghost predicate Run(k: Limits, tol: Tolerances, f: seq<real> -> real, grad: seq<real> -> seq<real>, start: seq<real>,
                      trace: seq<Step>, last: seq<real>, level: real)
    requires Positives(k) && tol.Valid()
  {
    && (forall i :: 0 <= i < |trace| ==> Legal(k, tol, f, trace[i]))
    && Joined(grad, trace)
    && Feasible(k, start)
    && (if trace == [] then last == start && level == f(start)
        else trace[0].start == start && trace[0].before == f(start)
             && trace[0].grad == grad(start) && trace[0].alpha == 25.0
             && last == trace[|trace| - 1].next && level == trace[|trace| - 1].after)
  }

  method OneStep(k: Limits, tol: Tolerances, f: seq<real> -> real, nu: seq<real>, g: seq<real>, alpha: real,
                 level: real, trial: seq<real>, ghost exit: Exit)
    returns (accepted: bool, next: seq<real>, after: real, ghost step: Step)
    requires Feasible(k, nu) && Feasible(k, trial) && Positives(k) && tol.Valid() && |g| == |nu| == |trial| == |k.c|
    requires alpha > 0.0
    requires ProjectedBy(k, tol, false, Target(nu, g, alpha), trial, exit)
    ensures Legal(k, tol, f, step) && Feasible(k, next)
    ensures step == Step(nu, g, alpha, trial, exit, accepted, step.beta, next, level, after)
  {
    hide Feasible, Sum, Mul, Dot, Times, Blend, Convex, IsNearest, Target, FirstGain, NoGain, ProjectedBy;
    var slope := Dot(g, Minus(trial, nu));
    var beta;
    accepted, beta, next, after := LineSearch(f, nu, trial, level, slope);
    step := Step(nu, g, alpha, trial, exit, accepted, beta, next, level, after);
    assert Slope(step) == slope;
    if accepted {
      ghost var j: nat :| j < 10 && beta == HalfPower(j) && FirstGain(f, nu, trial, level, slope, j);
      HalfPowerBounds(j);
      RegionBlend(k, nu, trial, beta);
    }
    FeasibleLength(k, next);
  }

  lemma RegionBlend(k: Limits, u: seq<real>, v: seq<real>, t: real)
    requires Feasible(k, u) && Feasible(k, v) && Positives(k) && 0.0 <= t <= 1.0
    ensures Feasible(k, Blend(u, v, t))
  {
    RegionConvex(k);
    assert u in Region(k) && v in Region(k);
    assert Blend(u, v, t) in Region(k);
  }

  /** The projected gradient loop from a feasible start. */
  method Ascend(k: Limits, tol: Tolerances, f: seq<real> -> real, grad: seq<real> -> seq<real>, start: seq<real>,
                maxIterations: nat, tolerance: real)
    returns (nu: seq<real>, ghost trace: seq<Step>, ghost last: seq<real>, ghost level: real)
    requires |start| > 0 && Feasible(k, start) && Positives(k) && tol.Valid() && k.b1 >= 0.0 && k.b2 >= 0.0
    requires forall x :: |grad(x)| == |x|
    ensures Feasible(k, nu) && Run(k, tol, f, grad, start, trace, last, level)
    ensures Ended(k, tol, grad, start, trace, last, nu, maxIterations, tolerance)
  {
    hide Feasible, Sum, Mul, Dot, Times, Blend, Convex, IsNearest, Region, KeepsSigns, Uniform, Target, NextAlpha, Run,
         Ball, ProjectedBy, Legal;
    hide Follows, Joined, Ready, WentOn, MovedOn, ArrivedBy, Ended, MaxEntry, AbsOf, Minus;
    nu := start;
    FeasibleLength(k, start);
    var value, g := f(start), grad(start);
    var alpha := DEFAULT_ALPHA;
    trace, last, level := [], start, value;
    RunStarts(k, tol, f, grad, start, tolerance);
    for it := 0 to maxIterations
      invariant |nu| == |g| == |k.c| && alpha > 0.0 && |trace| == it
      invariant WentOn(trace, tolerance) && MovedOn(trace, tolerance)
      invariant Feasible(k, nu) && Ready(grad, start, trace, g, alpha)
      invariant nu == last && value == level && Run(k, tol, f, grad, start, trace, nu, value)
    {
      var target := Target(nu, g, alpha);
      var trial, exit := Project(target, k, tol, false);
      FeasibleLength(k, trial);
      DifferenceLength(trial, nu);
      if MaxEntry(AbsOf(Minus(trial, nu))) < tolerance {
        nu := trial;
        EndsArrived(k, tol, grad, start, trace, last, nu, maxIterations, tolerance, g, alpha, exit);
        return;
      }
      ghost var step;
      var accepted, next, after;
      accepted, next, after, step := OneStep(k, tol, f, nu, g, alpha, value, trial, exit);
      FeasibleLength(k, next);
      DifferenceLength(next, nu);
      RunExtended(k, tol, f, grad, start, trace, nu, value, step);
      StillMoving(trace, step, tolerance);
      var gNext := if accepted then grad(next) else g;
      alpha := NextAlpha(Minus(next, nu), Minus(g, gNext));
      ReadyAgain(grad, start, trace, step, gNext, alpha);
      trace := trace + [step];
      var moved := MaxEntry(AbsOf(Minus(next, nu)));
      nu, g, value := next, gNext, after;
      last, level := nu, value;
      if moved < tolerance {
        EndsShort(k, tol, grad, start, trace, nu, maxIterations, tolerance);
        return;
      }
      LastMoved(trace, tolerance);
    }
    EndsFull(k, tol, grad, start, trace, nu, maxIterations, tolerance);
  }

  lemma DifferenceLength(a: seq<real>, b: seq<real>)
    requires |a| == |b|
    ensures |Minus(a, b)| == |AbsOf(Minus(a, b))| == |a|
  {
  }

  lemma ReadyAgain(grad: seq<real> -> seq<real>, start: seq<real>, trace: seq<Step>, s: Step, g: seq<real>, alpha: real)
    requires |s.next| == |s.start| == |s.grad| == |g| && g == (if s.accepted then grad(s.next) else s.grad)
    requires alpha == NextAlpha(Minus(s.next, s.start), Minus(s.grad, g))
    ensures Ready(grad, start, trace + [s], g, alpha)
  {
  }

  lemma EndsArrived(k: Limits, tol: Tolerances, grad: seq<real> -> seq<real>, start: seq<real>, trace: seq<Step>,
                    last: seq<real>, nu: seq<real>, maxIterations: nat, tolerance: real, g: seq<real>, alpha: real,
                    exit: Exit)
    requires Positives(k) && tol.Valid() && WentOn(trace, tolerance) && MovedOn(trace, tolerance)
    requires |trace| <= maxIterations && |last| == |nu| == |g| == |k.c| > 0 && Ready(grad, start, trace, g, alpha)
    requires ProjectedBy(k, tol, false, Target(last, g, alpha), nu, exit)
    requires MaxEntry(AbsOf(Minus(nu, last))) < tolerance
    ensures Ended(k, tol, grad, start, trace, last, nu, maxIterations, tolerance)
  {
    hide MaxEntry, ProjectedBy, Ready;
    assert ArrivedBy(k, tol, grad, start, trace, last, nu, tolerance, g, alpha, exit);
  }

  lemma EndsShort(k: Limits, tol: Tolerances, grad: seq<real> -> seq<real>, start: seq<real>, trace: seq<Step>,
                  nu: seq<real>, maxIterations: nat, tolerance: real)
    requires Positives(k) && tol.Valid() && WentOn(trace, tolerance) && 0 < |trace| <= maxIterations
    requires MovedOn(trace[..|trace| - 1], tolerance)
    requires var s := trace[|trace| - 1];
      |s.next| == |s.start| > 0 && MaxEntry(AbsOf(Minus(s.next, s.start))) < tolerance
    ensures Ended(k, tol, grad, start, trace, nu, nu, maxIterations, tolerance)
  {
    hide MaxEntry, ProjectedBy, Ready;
  }

  lemma EndsFull(k: Limits, tol: Tolerances, grad: seq<real> -> seq<real>, start: seq<real>, trace: seq<Step>,
                 nu: seq<real>, maxIterations: nat, tolerance: real)
    requires Positives(k) && tol.Valid() && WentOn(trace, tolerance) && MovedOn(trace, tolerance)
    requires |trace| == maxIterations
    ensures Ended(k, tol, grad, start, trace, nu, nu, maxIterations, tolerance)
  {
    hide MaxEntry, ProjectedBy, Ready;
  }

  /** Every step of the trace had a trial point at least the tolerance away. */
  ghost predicate WentOn(trace: seq<Step>, tolerance: real) {
    forall i :: 0 <= i < |trace| ==>
      |trace[i].trial| == |trace[i].start| > 0
      && MaxEntry(AbsOf(Minus(trace[i].trial, trace[i].start))) >= tolerance
  }

  /** Every step moved by at least the tolerance. */
  ghost predicate MovedOn(trace: seq<Step>, tolerance: real) {
    forall i :: 0 <= i < |trace| ==>
      |trace[i].next| == |trace[i].start| > 0
      && MaxEntry(AbsOf(Minus(trace[i].next, trace[i].start))) >= tolerance
  }

  lemma StillMoving(trace: seq<Step>, s: Step, tolerance: real)
    requires WentOn(trace, tolerance) && |s.trial| == |s.start| > 0
    requires MaxEntry(AbsOf(Minus(s.trial, s.start))) >= tolerance
    ensures WentOn(trace + [s], tolerance)
    ensures (trace + [s])[..|trace + [s]| - 1] == trace
  {
    hide MaxEntry;
  }

  lemma LastMoved(trace: seq<Step>, tolerance: real)
    requires trace != [] && MovedOn(trace[..|trace| - 1], tolerance)
    requires var s := trace[|trace| - 1];
      |s.next| == |s.start| > 0 && MaxEntry(AbsOf(Minus(s.next, s.start))) >= tolerance
    ensures MovedOn(trace, tolerance)
  {
    hide MaxEntry;
    forall i | 0 <= i < |trace|
      ensures |trace[i].next| == |trace[i].start| > 0
      ensures MaxEntry(AbsOf(Minus(trace[i].next, trace[i].start))) >= tolerance
    {
      if i < |trace| - 1 {
        assert trace[..|trace| - 1][i] == trace[i];
      }
    }
  }

  /** The point the next gradient step is projected to lies within the tolerance of last. */
  ghost predicate ArrivedBy(k: Limits, tol: Tolerances, grad: seq<real> -> seq<real>, start: seq<real>,
                            trace: seq<Step>, last: seq<real>, nu: seq<real>, tolerance: real, g: seq<real>,
                            alpha: real, exit: Exit)
    requires Positives(k) && tol.Valid()
  {
    && |last| == |nu| == |g| == |k.c| > 0 && Ready(grad, start, trace, g, alpha)
    && ProjectedBy(k, tol, false, Target(last, g, alpha), nu, exit)
    && MaxEntry(AbsOf(Minus(nu, last))) < tolerance
  }

  /** The three ways the loop may stop: its iterations used up, a last step shorter than the
      tolerance, or a next trial point that close, which is then the answer.  Until then no
      trial point was that close and no step that short. */
  ghost predicate Ended(k: Limits, tol: Tolerances, grad: seq<real> -> seq<real>, start: seq<real>, trace: seq<Step>,
                        last: seq<real>, nu: seq<real>, maxIterations: nat, tolerance: real)
    requires Positives(k) && tol.Valid()
  {
    && |trace| <= maxIterations && WentOn(trace, tolerance)
    && (trace != [] ==> MovedOn(trace[..|trace| - 1], tolerance))
    && ((nu == last && |trace| == maxIterations)
        || (nu == last && trace != [] && !MovedOn(trace, tolerance))
        || exists g, alpha, exit :: ArrivedBy(k, tol, grad, start, trace, last, nu, tolerance, g, alpha, exit))
  }

  /** In each of them the answer is within the tolerance of the last iterate. */
  lemma EndedNear(k: Limits, tol: Tolerances, grad: seq<real> -> seq<real>, start: seq<real>, trace: seq<Step>,
                  last: seq<real>, nu: seq<real>, maxIterations: nat, tolerance: real)
    requires Positives(k) && tol.Valid() && Ended(k, tol, grad, start, trace, last, nu, maxIterations, tolerance)
    ensures nu == last || (|nu| == |last| > 0 && MaxEntry(AbsOf(Minus(nu, last))) < tolerance)
  {
    hide MaxEntry, ProjectedBy, Ready;
  }

  lemma RunStarts(k: Limits, tol: Tolerances, f: seq<real> -> real, grad: seq<real> -> seq<real>, start: seq<real>,
                  tolerance: real)
    requires Positives(k) && tol.Valid() && Feasible(k, start)
    ensures Run(k, tol, f, grad, start, [], start, f(start)) && Ready(grad, start, [], grad(start), 25.0)
    ensures WentOn([], tolerance) && MovedOn([], tolerance)
  {
  }

  lemma FeasibleLength(k: Limits, z: seq<real>)
    requires Feasible(k, z)
    ensures |z| == |k.c| && z in Region(k)
  {
  }

  /** Where the next step has to start from. */
  ghost predicate Ready(grad: seq<real> -> seq<real>, start: seq<real>, trace: seq<Step>, g: seq<real>, alpha: real) {
    if trace == [] then g == grad(start) && alpha == 25.0
    else
      var s := trace[|trace| - 1];
      && g == (if s.accepted then grad(s.next) else s.grad)
      && |s.next| == |s.start| == |s.grad| == |g|
      && alpha == NextAlpha(Minus(s.next, s.start), Minus(s.grad, g))
  }

  lemma RunExtended(k: Limits, tol: Tolerances, f: seq<real> -> real, grad: seq<real> -> seq<real>, start: seq<real>,
                    trace: seq<Step>, last: seq<real>, level: real, s: Step)
    requires Positives(k) && tol.Valid() && Run(k, tol, f, grad, start, trace, last, level) && Legal(k, tol, f, s)
    requires s.start == last && s.before == level
    requires Ready(grad, start, trace, s.grad, s.alpha)
    ensures Run(k, tol, f, grad, start, trace + [s], s.next, s.after)
  {
    hide Feasible, Legal, NextAlpha;
    var t := trace + [s];
    forall i | 0 < i < |t| ensures Follows(grad, t[i - 1], t[i]) {
      if i == |trace| {
        assert t[i] == s && t[i - 1] == trace[|trace| - 1];
      } else {
        assert t[i] == trace[i] && t[i - 1] == trace[i - 1];
      }
    }
  }

  // ---- every point of a run is feasible ----

  /** One iteration from a feasible point: the trial point is projected, and the accepted
      point lies between two feasible ones. */
  lemma StepStaysFeasible(k: Limits, tol: Tolerances, f: seq<real> -> real, s: Step)
    requires Positives(k) && tol.Valid() && k.b1 >= 0.0 && k.b2 >= 0.0 && Legal(k, tol, f, s) && Feasible(k, s.start)
    ensures Feasible(k, s.trial) && Feasible(k, s.next)
  {
    hide Feasible, Target, ProjectedBy, FirstGain, NoGain, Blend;
    ProjectedFeasible(k, tol, Target(s.start, s.grad, s.alpha), s.trial, s.exit);
    if s.accepted {
      var j: nat :| j < 10 && s.beta == HalfPower(j) && FirstGain(f, s.start, s.trial, s.before, Slope(s), j);
      HalfPowerBounds(j);
      RegionBlend(k, s.start, s.trial, s.beta);
    }
  }

  lemma ProjectedFeasible(k: Limits, tol: Tolerances, y: seq<real>, res: seq<real>, exit: Exit)
    requires |y| == |k.c| && Positives(k) && tol.Valid() && k.b1 >= 0.0 && k.b2 >= 0.0
    requires ProjectedBy(k, tol, false, y, res, exit)
    ensures Feasible(k, res)
  {
    hide Dispatched, IsNearest, Feasible;
    if k.b1 == 0.0 || k.b2 == 0.0 {
      DegenerateNearest(k, y);
      NearestFeasible(k, y, res);
    } else if !Feasible(k, y) {
      DispatchedFeasible(k, tol, false, y, res, exit);
    }
  }

  /** Every point a run visits respects both limits, by induction from its feasible start. */
  lemma {:induction false} RunStaysFeasible(k: Limits, tol: Tolerances, f: seq<real> -> real,
                                            grad: seq<real> -> seq<real>, start: seq<real>, trace: seq<Step>,
                                            last: seq<real>, level: real, i: nat)
    requires Positives(k) && tol.Valid() && k.b1 >= 0.0 && k.b2 >= 0.0
    requires Run(k, tol, f, grad, start, trace, last, level) && i < |trace|
    ensures Feasible(k, trace[i].start) && Feasible(k, trace[i].trial) && Feasible(k, trace[i].next)
    decreases i
  {
    hide Feasible, Legal;
    if i > 0 {
      RunStaysFeasible(k, tol, f, grad, start, trace, last, level, i - 1);
      assert Follows(grad, trace[i - 1], trace[i]);
    }
    StepStaysFeasible(k, tol, f, trace[i]);
  }

  lemma RunEndsFeasible(k: Limits, tol: Tolerances, f: seq<real> -> real, grad: seq<real> -> seq<real>,
                        start: seq<real>, trace: seq<Step>, last: seq<real>, level: real)
    requires Positives(k) && tol.Valid() && k.b1 >= 0.0 && k.b2 >= 0.0
    requires Run(k, tol, f, grad, start, trace, last, level)
    ensures Feasible(k, last)
  {
    hide Feasible, Legal;
    if trace != [] {
      RunStaysFeasible(k, tol, f, grad, start, trace, last, level, |trace| - 1);
    }
  }

  // ---- runs of exact projections ascend ----

  /** The trial point is the nearest feasible point to the gradient step. */
  ghost predicate ExactTrial(k: Limits, s: Step)
    requires |s.start| == |s.grad|
  {
    IsNearest(Region(k), Target(s.start, s.grad, s.alpha), s.trial)
  }

  /** What an accepted step must gain, times its alpha: 1e-4 * beta * d . d. */
  function Credit(s: Step): real
    requires |s.trial| == |s.start|
  {
    Times(0.0001 * s.beta, Dist2(s.trial, s.start))
  }

  /** The gain an exact step guarantees: 1e-4 * beta * d . d / alpha when accepted. */
  function Gain(s: Step): real
    requires s.alpha > 0.0 && |s.trial| == |s.start|
  {
    if s.accepted then Over(Credit(s), s.alpha) else 0.0
  }

  function Gains(trace: seq<Step>): real
    requires forall i :: 0 <= i < |trace| ==> trace[i].alpha > 0.0 && |trace[i].trial| == |trace[i].start|
  {
    if trace == [] then 0.0 else Gains(trace[..|trace| - 1]) + Gain(trace[|trace| - 1])
  }

  lemma {:induction false} GainsIsSum(trace: seq<Step>, gains: seq<real>)
    requires forall i :: 0 <= i < |trace| ==> trace[i].alpha > 0.0 && |trace[i].trial| == |trace[i].start|
    requires |gains| == |trace| && forall i :: 0 <= i < |trace| ==> gains[i] == Gain(trace[i])
    ensures Gains(trace) == Sum(gains)
  {
    hide Gain;
    if trace != [] {
      var n := |trace| - 1;
      GainsIsSum(trace[..n], gains[..n]);
    }
  }

  lemma ArmijoGain(alpha: real, q: real, slope: real, dd: real, gain: real)
    requires alpha > 0.0 && q >= 0.0 && Times(alpha, slope) >= dd && gain >= Times(q, slope)
    ensures gain >= Over(Times(q, dd), alpha)
  {
    hide Times, Over;
    var credit := Times(q, dd);
    TimesMonotone(q, dd, Times(alpha, slope));
    TimesMonotone(alpha, Times(q, slope), gain);
    TimesAssoc(q, alpha, slope);
    TimesAssoc(alpha, q, slope);
    TimesSym(q, alpha);
    Quotient(credit, alpha);
    if gain < Over(credit, alpha) {
      TimesStrict(alpha, gain, Over(credit, alpha));
    }
  }

  lemma StepGain(k: Limits, tol: Tolerances, f: seq<real> -> real, s: Step)
    requires Positives(k) && tol.Valid() && Legal(k, tol, f, s) && Feasible(k, s.start) && ExactTrial(k, s)
    ensures |s.trial| == |s.start| && s.alpha > 0.0 && s.after >= s.before + Gain(s)
    ensures s.accepted ==> Times(s.alpha, Gain(s)) == Times(0.0001 * s.beta, Dist2(s.trial, s.start))
    ensures !s.accepted ==> Gain(s) == 0.0
  {
    hide IsNearest, Blend, Target, Times, Over, Dot, Dist2, ProjectedBy, NoGain, FirstGain, Feasible, Positives, Region;
    if s.accepted {
      var j: nat :| j < 10 && s.beta == HalfPower(j) && FirstGain(f, s.start, s.trial, s.before, Slope(s), j);
      HalfPowerBounds(j);
      FirstGainAt(f, s.start, s.trial, s.before, Slope(s), j);
      ProjectedStepAscends(k, s.start, s.grad, s.alpha, Target(s.start, s.grad, s.alpha), s.trial);
      Dist2AsDot(s.trial, s.start);
      Quotient(Credit(s), s.alpha);
      ArmijoGain(s.alpha, 0.0001 * s.beta, Slope(s), Dist2(s.trial, s.start), s.after - s.before);
    }
  }

  lemma {:induction false} FirstGainAt(f: seq<real> -> real, nu: seq<real>, trial: seq<real>, level: real, slope: real,
                                       j: nat)
    requires |nu| == |trial| && FirstGain(f, nu, trial, level, slope, j)
    ensures f(Blend(nu, trial, HalfPower(j))) >= level + Times(0.0001 * HalfPower(j), slope)
  {
  }

  lemma Dist2AsDot(a: seq<real>, b: seq<real>)
    requires |a| == |b|
    ensures Dist2(a, b) == Dot(Minus(a, b), Minus(a, b))
  {
  }

  lemma RunPrefix(k: Limits, tol: Tolerances, f: seq<real> -> real, grad: seq<real> -> seq<real>, start: seq<real>,
                  trace: seq<Step>, last: seq<real>, level: real)
    requires Positives(k) && tol.Valid() && Run(k, tol, f, grad, start, trace, last, level) && trace != []
    ensures var s := trace[|trace| - 1];
      && Legal(k, tol, f, s) && s.after == level
      && Run(k, tol, f, grad, start, trace[..|trace| - 1], s.start, s.before)
  {
    hide Feasible, Legal;
    var n := |trace| - 1;
    var s, init := trace[n], trace[..n];
    forall i | 0 < i < n ensures Follows(grad, init[i - 1], init[i]) {
      assert Follows(grad, trace[i - 1], trace[i]);
    }
    if n > 0 {
      assert Follows(grad, trace[n - 1], s);
      assert init[n - 1] == trace[n - 1];
    }
  }

  lemma LegalLengths(k: Limits, tol: Tolerances, f: seq<real> -> real, trace: seq<Step>)
    requires Positives(k) && tol.Valid() && forall i :: 0 <= i < |trace| ==> Legal(k, tol, f, trace[i])
    ensures forall i :: 0 <= i < |trace| ==>
      trace[i].alpha > 0.0 && |trace[i].trial| == |trace[i].start| == |trace[i].grad| == |k.c|
  {
    hide Tried, Moved;
    forall i | 0 <= i < |trace|
      ensures trace[i].alpha > 0.0 && |trace[i].trial| == |trace[i].start| == |trace[i].grad| == |k.c|
    {
      assert Legal(k, tol, f, trace[i]);
    }
  }

  /** Over any run whose trial points are nearest points the tracked objective never falls
      and collects at least the gain of every accepted step. */
  lemma {:induction false} RunAscends(k: Limits, tol: Tolerances, f: seq<real> -> real, grad: seq<real> -> seq<real>,
                                      start: seq<real>, trace: seq<Step>, last: seq<real>, level: real)
    requires Positives(k) && tol.Valid() && k.b1 >= 0.0 && k.b2 >= 0.0
    requires Run(k, tol, f, grad, start, trace, last, level)
    requires forall i :: 0 <= i < |trace| ==> |trace[i].start| == |trace[i].grad| && ExactTrial(k, trace[i])
    ensures forall i :: 0 <= i < |trace| ==> trace[i].alpha > 0.0 && |trace[i].trial| == |trace[i].start|
    ensures level >= f(start) + Gains(trace)
    decreases |trace|
  {
    hide Legal, Joined, Feasible, Gain, ExactTrial, Positives;
    LegalLengths(k, tol, f, trace);
    if trace != [] {
      var n := |trace| - 1;
      RunPrefix(k, tol, f, grad, start, trace, last, level);
      RunAscends(k, tol, f, grad, start, trace[..n], trace[n].start, trace[n].before);
      RunStaysFeasible(k, tol, f, grad, start, trace, last, level, n);
      StepGain(k, tol, f, trace[n]);
    }
  }

  /** After an accepted last step the tracked value is the objective itself, so such a run
      that ends on one has truly improved it. */
  lemma {:induction false} AcceptedRunImproves(k: Limits, tol: Tolerances, f: seq<real> -> real,
                                               grad: seq<real> -> seq<real>, start: seq<real>, trace: seq<Step>,
                                               last: seq<real>, level: real)
    requires Positives(k) && tol.Valid() && k.b1 >= 0.0 && k.b2 >= 0.0
    requires Run(k, tol, f, grad, start, trace, last, level)
    requires trace != [] && trace[|trace| - 1].accepted
    requires forall i :: 0 <= i < |trace| ==> |trace[i].start| == |trace[i].grad| && ExactTrial(k, trace[i])
    ensures forall i :: 0 <= i < |trace| ==> trace[i].alpha > 0.0 && |trace[i].trial| == |trace[i].start|
    ensures f(last) >= f(start) + Gains(trace)
  {
    hide Tried, ExactTrial, Feasible;
    assert Legal(k, tol, f, trace[|trace| - 1]);
    RunAscends(k, tol, f, grad, start, trace, last, level);
  }

  // ---- when the line search must succeed ----

  /** From nu towards trial, f falls below its linear model by no more than the curvature
      allows. */
  ghost predicate SmoothAlong(f: seq<real> -> real, nu: seq<real>, g: seq<real>, trial: seq<real>, curvature: real)
    requires |nu| == |g| == |trial|
  {
    forall t: real :: 0.0 <= t <= 1.0 ==>
      f(Blend(nu, trial, t))
      >= f(nu) + Times(t, Dot(g, Minus(trial, nu))) - Times(Times(0.5, curvature), Times(Times(t, t), Dist2(trial, nu)))
  }

  /** Halving j is short enough for the curvature and the step length. */
  predicate ShortEnough(curvature: real, alpha: real, j: nat) {
    Times(Times(curvature, alpha), HalfPower(j)) <= 2.0 * (1.0 - 0.0001)
  }

  lemma {:induction false} HalfPowersFall(i: nat, j: nat)
    requires i <= j
    ensures HalfPower(j) <= HalfPower(i)
    decreases j
  {
    if i < j {
      HalfPowersFall(i, j - 1);
      HalfPowerBounds(j - 1);
    }
  }

  /** An exact step on a smooth objective is accepted, at the latest with the first halving
      that is short enough. */
  lemma {:induction false} SmoothStepAccepted(k: Limits, tol: Tolerances, f: seq<real> -> real, s: Step,
                                              curvature: real, j: nat)
    requires Positives(k) && tol.Valid() && Legal(k, tol, f, s) && Feasible(k, s.start) && ExactTrial(k, s)
    requires s.before == f(s.start) && curvature >= 0.0 && SmoothAlong(f, s.start, s.grad, s.trial, curvature)
    requires j < 10 && ShortEnough(curvature, s.alpha, j)
    ensures s.accepted && s.beta >= HalfPower(j)
  {
    hide IsNearest, Blend, Target, Times, Over, Dot, Dist2, ProjectedBy, FirstGain, Feasible, Positives, Region,
         HalfPower, SmoothAlong;
    HalfPowerBounds(j);
    ProjectedStepAscends(k, s.start, s.grad, s.alpha, Target(s.start, s.grad, s.alpha), s.trial);
    Dist2AsDot(s.trial, s.start);
    DotSelfNonNeg(Minus(s.trial, s.start));
    ShortGain(s.alpha, Slope(s), Dist2(s.trial, s.start), HalfPower(j), curvature);
    SmoothAt(f, s.start, s.grad, s.trial, curvature, HalfPower(j));
    if s.accepted {
      var i: nat :| i < 10 && s.beta == HalfPower(i) && FirstGain(f, s.start, s.trial, s.before, Slope(s), i);
      if j < i {
        NoGainBefore(f, s.start, s.trial, s.before, Slope(s), i, j);
      } else {
        HalfPowersFall(i, j);
      }
    }
  }

  lemma SmoothAt(f: seq<real> -> real, nu: seq<real>, g: seq<real>, trial: seq<real>, curvature: real, t: real)
    requires |nu| == |g| == |trial| && SmoothAlong(f, nu, g, trial, curvature) && 0.0 <= t <= 1.0
    ensures f(Blend(nu, trial, t))
      >= f(nu) + Times(t, Dot(g, Minus(trial, nu))) - Times(Times(0.5, curvature), Times(Times(t, t), Dist2(trial, nu)))
  {
  }

  lemma {:induction false} NoGainBefore(f: seq<real> -> real, nu: seq<real>, trial: seq<real>, level: real, slope: real,
                                        i: nat, j: nat)
    requires |nu| == |trial| && FirstGain(f, nu, trial, level, slope, i) && j < i
    ensures f(Blend(nu, trial, HalfPower(j))) < level + Times(0.0001 * HalfPower(j), slope)
  {
  }

  /** Over a short step the linear gain outweighs what the curvature takes. */
  lemma ShortGain(alpha: real, slope: real, dd: real, beta: real, curvature: real)
    requires alpha > 0.0 && dd >= 0.0 && Times(alpha, slope) >= dd && beta > 0.0 && curvature >= 0.0
    requires Times(Times(curvature, alpha), beta) <= 2.0 * (1.0 - 0.0001)
    ensures Times(beta, slope) - Times(Times(0.5, curvature), Times(Times(beta, beta), dd))
         >= Times(0.0001 * beta, slope)
  {
    hide Times;
    if slope < 0.0 {
      TimesStrict(alpha, slope, 0.0);
      TimesZero(alpha);
      assert false;
    }
    var cb := Times(curvature, beta);
    NonNegProduct(curvature, beta);
    TimesMonotone(cb, dd, Times(alpha, slope));
    TimesAssoc(cb, alpha, slope);
    Reordered(curvature, beta, alpha);
    TimesMonotone(slope, Times(cb, alpha), 2.0 * (1.0 - 0.0001));
    TimesSym(slope, Times(cb, alpha));
    TimesMonotone(beta, Times(cb, dd), Times(slope, 2.0 * (1.0 - 0.0001)));
    HalvedLoss(beta, curvature, dd, slope);
  }

  lemma Reordered(c: real, b: real, a: real)
    ensures Times(Times(c, b), a) == Times(Times(c, a), b)
  {
  }

  lemma HalvedLoss(beta: real, curvature: real, dd: real, slope: real)
    ensures Times(Times(0.5, curvature), Times(Times(beta, beta), dd))
         == Times(0.5, Times(beta, Times(Times(curvature, beta), dd)))
    ensures Times(0.5, Times(beta, Times(slope, 2.0 * (1.0 - 0.0001))))
         == Times(beta, slope) - Times(0.0001 * beta, slope)
    ensures forall x, y :: x <= y ==> Times(0.5, x) <= Times(0.5, y)
  {
    var x := Times(beta, Times(Times(curvature, beta), dd));
    assert Times(Times(beta, beta), dd) * curvature == x;
    assert Times(slope, 2.0 * (1.0 - 0.0001)) == 2.0 * slope - 2.0 * 0.0001 * slope;
  }

  /** The gradient oracle is a gradient whose objective has bounded curvature. */
  ghost predicate Smooth(f: seq<real> -> real, grad: seq<real> -> seq<real>, curvature: real, n: nat) {
    && curvature >= 0.0 && (forall u: seq<real> :: |grad(u)| == |u|)
    && forall u: seq<real>, v: seq<real> {:trigger f(u), grad(v)} :: |u| == |v| == n ==>
         f(u) >= f(v) + Dot(grad(v), Minus(u, v)) - Times(Times(0.5, curvature), Dist2(u, v))
  }

  lemma SmoothEverywhere(f: seq<real> -> real, grad: seq<real> -> seq<real>, curvature: real, nu: seq<real>,
                         trial: seq<real>)
    requires |trial| == |nu| && Smooth(f, grad, curvature, |nu|)
    ensures |grad(nu)| == |nu| && SmoothAlong(f, nu, grad(nu), trial, curvature)
  {
    hide Times, Dot, Dist2;
    var g, d := grad(nu), Minus(trial, nu);
    forall t: real | 0.0 <= t <= 1.0
      ensures f(Blend(nu, trial, t))
           >= f(nu) + Times(t, Dot(g, d)) - Times(Times(0.5, curvature), Times(Times(t, t), Dist2(trial, nu)))
    {
      var u := Blend(nu, trial, t);
      var e := Minus(u, nu);
      DotScale(t, d, e, g);
      DotSym(d, g);
      DotSym(e, g);
      DotScale(t, d, e, e);
      DotScale(t, d, e, d);
      DotSym(d, e);
      TimesAssoc(t, t, Dot(d, d));
      Dist2AsDot(u, nu);
      Dist2AsDot(trial, nu);
      assert f(u) >= f(nu) + Dot(grad(nu), Minus(u, nu)) - Times(Times(0.5, curvature), Dist2(u, nu));
    }
  }

  /** On an objective whose curvature the longest step tolerates, every step of a run of
      exact trial points is accepted, and the tracked value and gradient stay true. */
  lemma {:induction false} SmoothRunAccepts(k: Limits, tol: Tolerances, f: seq<real> -> real,
                                            grad: seq<real> -> seq<real>, start: seq<real>, trace: seq<Step>,
                                            last: seq<real>, level: real, curvature: real, i: nat)
    requires Positives(k) && tol.Valid() && k.b1 >= 0.0 && k.b2 >= 0.0
    requires Run(k, tol, f, grad, start, trace, last, level) && i < |trace|
    requires forall j :: 0 <= j < |trace| ==> |trace[j].start| == |trace[j].grad| && ExactTrial(k, trace[j])
    requires Smooth(f, grad, curvature, |k.c|) && Times(curvature, 10000.0) <= 1023.8976
    ensures trace[i].accepted && trace[i].after == f(trace[i].next)
    ensures trace[i].before == f(trace[i].start) && trace[i].grad == grad(trace[i].start)
    decreases i
  {
    hide Feasible, Tried, ExactTrial, Smooth, ShortEnough, NextAlpha, FirstGain, NoGain, Blend, SmoothAlong, HalfPower;
    var s := trace[i];
    assert Legal(k, tol, f, s);
    if i > 0 {
      SmoothRunAccepts(k, tol, f, grad, start, trace, last, level, curvature, i - 1);
      assert Follows(grad, trace[i - 1], trace[i]);
    }
    RunStaysFeasible(k, tol, f, grad, start, trace, last, level, i);
    SmoothEverywhere(f, grad, curvature, s.start, s.trial);
    LongestStep(curvature, s.alpha, f, grad, |k.c|);
    SmoothStepAccepted(k, tol, f, s, curvature, 9);
  }

  lemma NinthHalf()
    ensures HalfPower(9) == 0.001953125 && Times(HalfPower(9), 1023.8976) == 2.0 * (1.0 - 0.0001)
  {
    assert HalfPower(3) == 0.125;
    assert HalfPower(6) == 0.015625;
  }

  lemma LongestStep(curvature: real, alpha: real, f: seq<real> -> real, grad: seq<real> -> seq<real>, n: nat)
    requires Smooth(f, grad, curvature, n) && Times(curvature, 10000.0) <= 1023.8976 && alpha <= 10000.0
    ensures curvature >= 0.0 && ShortEnough(curvature, alpha, 9)
  {
    hide Times, HalfPower;
    var h := HalfPower(9);
    NinthHalf();
    HalfPowerBounds(9);
    TimesMonotone(curvature, alpha, 10000.0);
    TimesMonotone(h, Times(curvature, alpha), Times(curvature, 10000.0));
    TimesMonotone(h, Times(curvature, 10000.0), 1023.8976);
    TimesSym(h, Times(curvature, alpha));
  }

  /** So such a run ends with the objective itself improved by all the guaranteed gains. */
  lemma {:induction false} SmoothRunImproves(k: Limits, tol: Tolerances, f: seq<real> -> real,
                                             grad: seq<real> -> seq<real>, start: seq<real>, trace: seq<Step>,
                                             last: seq<real>, level: real, curvature: real)
    requires Positives(k) && tol.Valid() && k.b1 >= 0.0 && k.b2 >= 0.0
    requires Run(k, tol, f, grad, start, trace, last, level)
    requires forall j :: 0 <= j < |trace| ==> |trace[j].start| == |trace[j].grad| && ExactTrial(k, trace[j])
    requires Smooth(f, grad, curvature, |k.c|) && Times(curvature, 10000.0) <= 1023.8976
    ensures forall i :: 0 <= i < |trace| ==>
      trace[i].accepted && trace[i].alpha > 0.0 && |trace[i].trial| == |trace[i].start|
    ensures level == f(last) >= f(start) + Gains(trace)
  {
    hide Feasible, Legal, ExactTrial, Smooth, ShortEnough, Joined;
    RunAscends(k, tol, f, grad, start, trace, last, level);
    forall i | 0 <= i < |trace| ensures trace[i].accepted && trace[i].after == f(trace[i].next) {
      SmoothRunAccepts(k, tol, f, grad, start, trace, last, level, curvature, i);
    }
  }

  /** Wherever the gradient step from start is projected to, it is at least the tolerance
      away. */
  ghost predicate LeavesStart(k: Limits, tol: Tolerances, start: seq<real>, g: seq<real>, tolerance: real)
    requires |start| == |g| == |k.c| > 0 && Positives(k) && tol.Valid()
  {
    forall p, exit :: |p| == |start| && ProjectedBy(k, tol, false, Target(start, g, 25.0), p, exit) ==>
      MaxEntry(AbsOf(Minus(p, start))) >= tolerance
  }

  lemma FirstStepTaken(k: Limits, tol: Tolerances, grad: seq<real> -> seq<real>, start: seq<real>, trace: seq<Step>,
                       nu: seq<real>, maxIterations: nat, tolerance: real)
    requires Positives(k) && tol.Valid() && |start| == |grad(start)| == |k.c| > 0 && maxIterations >= 1
    requires LeavesStart(k, tol, start, grad(start), tolerance)
    requires Ended(k, tol, grad, start, trace, start, nu, maxIterations, tolerance)
    ensures trace != []
  {
    hide MaxEntry, ProjectedBy, AbsOf, Minus, Target;
  }

  lemma MovedApart(a: seq<real>, b: seq<real>, tolerance: real)
    requires |a| == |b| > 0 && tolerance > 0.0 && MaxEntry(AbsOf(Minus(a, b))) >= tolerance
    ensures Dist2(a, b) > 0.0
  {
    EntriesBetween(AbsOf(Minus(a, b)));
    Dist2Positive(a, b);
  }

  /** An accepted step away from its start has a positive guaranteed gain. */
  lemma GainPositive(k: Limits, tol: Tolerances, f: seq<real> -> real, s: Step, tolerance: real)
    requires Positives(k) && tol.Valid() && Legal(k, tol, f, s) && s.accepted && tolerance > 0.0
    requires |s.trial| == |s.start| > 0 && MaxEntry(AbsOf(Minus(s.trial, s.start))) >= tolerance
    ensures s.alpha > 0.0 && Gain(s) > 0.0
  {
    hide Tried, FirstGain, NoGain, Blend, Dist2, MaxEntry, Times, Over;
    var j: nat :| j < 10 && s.beta == HalfPower(j) && FirstGain(f, s.start, s.trial, s.before, Slope(s), j);
    HalfPowerBounds(j);
    MovedApart(s.trial, s.start, tolerance);
    PositiveProduct(0.0001 * s.beta, Dist2(s.trial, s.start));
    PositiveQuotient(Credit(s), s.alpha);
  }

  lemma PositiveQuotient(a: real, b: real)
    requires a > 0.0 && b > 0.0
    ensures Over(a, b) > 0.0
  {
  }

  lemma {:induction false} GainsPositive(trace: seq<Step>)
    requires forall i :: 0 <= i < |trace| ==>
      trace[i].alpha > 0.0 && |trace[i].trial| == |trace[i].start| && Gain(trace[i]) > 0.0
    ensures Gains(trace) >= 0.0 && (trace != [] ==> Gains(trace) > 0.0)
    decreases |trace|
  {
    hide Gain;
    if trace != [] {
      GainsPositive(trace[..|trace| - 1]);
    }
  }

  /** A solve that may iterate and whose start a projected gradient step leaves does iterate:
      with a smooth objective and exact trial points it strictly improves on its start. */
  lemma SmoothSolveImproves(k: Limits, tol: Tolerances, f: seq<real> -> real, grad: seq<real> -> seq<real>,
                            start: seq<real>, trace: seq<Step>, last: seq<real>, level: real, nu: seq<real>,
                            curvature: real, maxIterations: nat, tolerance: real)
    requires Positives(k) && tol.Valid() && k.b1 >= 0.0 && k.b2 >= 0.0 && |k.c| > 0
    requires Run(k, tol, f, grad, start, trace, last, level)
    requires Ended(k, tol, grad, start, trace, last, nu, maxIterations, tolerance)
    requires forall j :: 0 <= j < |trace| ==> |trace[j].start| == |trace[j].grad| && ExactTrial(k, trace[j])
    requires Smooth(f, grad, curvature, |k.c|) && Times(curvature, 10000.0) <= 1023.8976
    requires maxIterations >= 1 && tolerance > 0.0
    requires |start| == |grad(start)| == |k.c| && LeavesStart(k, tol, start, grad(start), tolerance)
    ensures trace != [] && f(last) > f(start)
  {
    hide Feasible, Legal, ExactTrial, Smooth, LeavesStart, Joined, MaxEntry, Gain, ArrivedBy, MovedOn;
    if trace == [] {
      FirstStepTaken(k, tol, grad, start, trace, nu, maxIterations, tolerance);
    }
    SmoothRunImproves(k, tol, f, grad, start, trace, last, level, curvature);
    forall i | 0 <= i < |trace|
      ensures trace[i].alpha > 0.0 && |trace[i].trial| == |trace[i].start| && Gain(trace[i]) > 0.0
    {
      GainPositive(k, tol, f, trace[i], tolerance);
    }
    GainsPositive(trace);
  }

  /** The gradient step is one the projection finds the nearest point for: a bound is zero, a
      single ball settles it, or the Newton iteration on it reproduces its active set. */
  ghost predicate SolvableStep(k: Limits, tol: Tolerances, s: Step)
    requires |s.start| == |s.grad| == |k.c| && Positives(k) && tol.Valid()
  {
    k.b1 == 0.0 || k.b2 == 0.0 || Solvable(k, tol, Target(s.start, s.grad, s.alpha))
  }

  /** At slack 0 runs of such steps ascend. */
  lemma {:induction false} ZeroSlackRunAscends(k: Limits, tol: Tolerances, f: seq<real> -> real,
                                               grad: seq<real> -> seq<real>, start: seq<real>, trace: seq<Step>,
                                               last: seq<real>, level: real)
    requires Positives(k) && tol.Valid() && k.b1 >= 0.0 && k.b2 >= 0.0
    requires Run(k, tol, f, grad, start, trace, last, level)
    requires tol.exit == 0.0
    requires forall i :: 0 <= i < |trace| ==>
      |trace[i].start| == |trace[i].grad| == |k.c| && SolvableStep(k, tol, trace[i])
    ensures forall i :: 0 <= i < |trace| ==> trace[i].alpha > 0.0 && |trace[i].trial| == |trace[i].start|
    ensures level >= f(start) + Gains(trace)
  {
    hide Moved, Feasible, Joined, ProjectedBy, IsNearest, Solvable, LeverageSuffices, DrawdownSuffices, Target, Gains;
    LegalLengths(k, tol, f, trace);
    forall i | 0 <= i < |trace| ensures |trace[i].start| == |trace[i].grad| && ExactTrial(k, trace[i]) {
      var s := trace[i];
      assert Legal(k, tol, f, s);
      var target := Target(s.start, s.grad, s.alpha);
      if k.b1 == 0.0 || k.b2 == 0.0 {
        DegenerateNearest(k, target);
        assert s.trial == Const(|target|, 0.0) by { DegenerateTrial(k, tol, s); }
      } else {
        ProjectionExact(k, tol, false, target, s.trial, s.exit);
      }
    }
    RunAscends(k, tol, f, grad, start, trace, last, level);
  }

  lemma DegenerateTrial(k: Limits, tol: Tolerances, s: Step)
    requires Positives(k) && tol.Valid() && Sized(k, s) && Tried(k, tol, s) && (k.b1 <= 0.0 || k.b2 <= 0.0)
    ensures s.trial == Const(|s.start|, 0.0)
  {
    hide Dispatched, Feasible, Target;
    assert |Target(s.start, s.grad, s.alpha)| == |s.start|;
  }

  /** Assets with one common drawdown weight always make such steps: at slack 0 each of
      their runs ascends. */
  lemma {:induction false} UniformRunAscends(k: Limits, tol: Tolerances, f: seq<real> -> real,
                                             grad: seq<real> -> seq<real>, start: seq<real>, trace: seq<Step>,
                                             last: seq<real>, level: real)
    requires Positives(k) && tol.Valid() && k.b1 >= 0.0 && k.b2 >= 0.0
    requires Run(k, tol, f, grad, start, trace, last, level)
    requires tol.exit == 0.0 && Uniform(k.c)
    ensures forall i :: 0 <= i < |trace| ==> trace[i].alpha > 0.0 && |trace[i].trial| == |trace[i].start|
    ensures level >= f(start) + Gains(trace)
  {
    hide Moved, Feasible, Joined, ProjectedBy, Target, Gains, Uniform, OneBallSettles;
    LegalLengths(k, tol, f, trace);
    forall i | 0 <= i < |trace| ensures SolvableStep(k, tol, trace[i]) {
      var s := trace[i];
      assert Legal(k, tol, f, s);
      UniformLeavesEarly(k, tol, false, Target(s.start, s.grad, s.alpha), s.trial, s.exit);
    }
    ZeroSlackRunAscends(k, tol, f, grad, start, trace, last, level);
  }

  // ---- the whole solve ----

  /** From any candidate of the unconstrained solver: keep it if feasible, otherwise project
      and ascend; the closing safety projection never changes the answer. */
  method Solve(k: Limits, tol: Tolerances, f: seq<real> -> real, grad: seq<real> -> seq<real>, candidate: seq<real>,
               haircut: real, maxIterations: nat, tolerance: real)
    returns (target: seq<real>, ghost start: seq<real>, ghost trace: seq<Step>, ghost last: seq<real>,
             ghost level: real)
    requires |candidate| == |k.c| > 0 && Positives(k) && tol.Valid() && k.b1 >= 0.0 && k.b2 >= 0.0
    requires forall x :: |grad(x)| == |x|
    ensures Feasible(k, target)
    ensures haircut <= 0.0 ==> target == Const(|k.c|, 0.0)
    ensures haircut > 0.0 && Feasible(k, candidate) ==> target == candidate
    ensures haircut > 0.0 && !Feasible(k, candidate) ==>
      && Run(k, tol, f, grad, start, trace, last, level)
      && (exists exit :: ProjectedBy(k, tol, false, candidate, start, exit))
      && Ended(k, tol, grad, start, trace, last, target, maxIterations, tolerance)
  {
    hide IsNearest, Run, Uniform, Dispatched, Region, Ended;
    start, trace, last, level := candidate, [], candidate, 0.0;
    if haircut <= 0.0 {
      target := Const(|k.c|, 0.0);
      OriginFeasible(k);
      return;
    }
    var star := candidate;
    ghost var exit;
    if !(Norm1(candidate) <= k.b1 && Dot(k.c, AbsOf(candidate)) <= k.b2) {
      var projected;
      projected, exit := Project(candidate, k, tol, false);
      start := projected;
      star, trace, last, level := Ascend(k, tol, f, grad, projected, maxIterations, tolerance);
    }
    target, exit := Project(star, k, tol, false);
    if k.b1 == 0.0 || k.b2 == 0.0 {
      OnlyOrigin(k, star);
    }
  }

  lemma OriginFeasible(k: Limits)
    requires k.b1 >= 0.0 && k.b2 >= 0.0
    ensures Feasible(k, Const(|k.c|, 0.0))
  {
    var o := Const(|k.c|, 0.0);
    SumOfZeros(AbsOf(o));
    SumOfZeros(Mul(k.c, AbsOf(o)));
  }
}
