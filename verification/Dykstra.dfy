/** The fallback: Dykstra's alternating projections between the two budgets. */
module Dykstra {
  import opened Vectors
  import opened Geometry
  import opened Thresholds
  import opened Projection
  import opened Newton

  function PositivePart(x: seq<real>): (r: seq<real>)
    ensures |r| == |x| && NonNeg(r) && forall i :: 0 <= i < |x| ==> r[i] == Max(0.0, x[i])
  {
    seq(|x|, i requires 0 <= i < |x| => Max(0.0, x[i]))
  }

  /** s lies in the budget set and p points out of it at s. */
  ghost predicate Normal(w: seq<real>, b: real, p: seq<real>, s: seq<real>) {
    && |p| == |s| == |w| && NonNeg(s) && Dot(w, s) <= b
    && forall z :: |z| == |w| && NonNeg(z) && Dot(w, z) <= b ==> Dot(p, Minus(z, s)) <= 0.0
  }

  /** x splits the magnitudes a into itself and one correction per budget. */
  ghost predicate Split(a: seq<real>, x: seq<real>, p: seq<real>, q: seq<real>) {
    && |a| == |x| == |p| == |q|
    && forall i :: 0 <= i < |a| ==> a[i] == x[i] + p[i] + q[i]
  }

  // ---- one half step ----

  lemma OrthantNormal(w: seq<real>, b: real, y: seq<real>, lam: real, s: seq<real>)
    requires |w| == |y| == |s| && Positive(w) && lam >= 0.0
    requires s == Shrink(PositivePart(y), Scale(lam, w))
    requires Dot(w, s) == b || (lam == 0.0 && Dot(w, s) <= b)
    ensures Normal(w, b, Minus(y, s), s)
  {
    forall z | |z| == |w| && NonNeg(z) && Dot(w, z) <= b ensures Dot(Minus(y, s), Minus(z, s)) <= 0.0 {
      OrthantInequality(w, y, lam, s, z);
      if lam > 0.0 {
        TimesMonotone(lam, Dot(w, z), b);
      }
    }
  }

  lemma OrthantInequality(w: seq<real>, y: seq<real>, lam: real, s: seq<real>, z: seq<real>)
    requires |w| == |y| == |s| == |z| && Positive(w) && lam >= 0.0 && NonNeg(z)
    requires s == Shrink(PositivePart(y), Scale(lam, w))
    ensures Dot(Minus(y, s), Minus(z, s)) <= Times(lam, Dot(w, z)) - Times(lam, Dot(w, s))
  {
    var left := Mul(Minus(y, s), Minus(z, s));
    var wz, ws := Scale(lam, Mul(w, z)), Scale(lam, Mul(w, s));
    forall i | 0 <= i < |y| ensures left[i] <= Minus(wz, ws)[i] {
    }
    SumLe(left, Minus(wz, ws));
    SumAdd(Minus(wz, ws), ws, wz);
    SumScale(lam, Mul(w, z), wz);
    SumScale(lam, Mul(w, s), ws);
  }

  /** A non-negative threshold takes away and never adds. */
  lemma ThresholdBelow(y: seq<real>, w: seq<real>, lam: real)
    requires |w| == |y| && Positive(w) && lam >= 0.0 && NonNeg(y)
    ensures AtMost(Shrink(PositivePart(y), Scale(lam, w)), y)
  {
    hide Times;
    forall i | 0 <= i < |y| ensures Times(lam, w[i]) >= 0.0 {
      NonNegProduct(lam, w[i]);
    }
  }

  method LeverageStep(y1: seq<real>, b: real) returns (s: seq<real>)
    requires |y1| > 0 && b > 0.0
    ensures |s| == |y1| && Normal(Ones(|y1|), b, Minus(y1, s), s)
    ensures NonNeg(y1) ==> AtMost(s, y1)
  {
    var pos := PositivePart(y1);
    if Sum(pos) > b {
      var th := L1Threshold(pos, b);
      s := Shrink(pos, Const(|pos|, th));
      LeverageOrder(b, pos, th, s);
      ConstAsScale(|pos|, th);
      DotOnes(s);
      OrthantNormal(Ones(|y1|), b, y1, th, s);
      if NonNeg(y1) {
        ThresholdBelow(y1, Ones(|y1|), th);
      }
    } else {
      s := pos;
      DotOnes(s);
      OrthantNormal(Ones(|y1|), b, y1, 0.0, s);
    }
  }

  method DrawdownStep(y2: seq<real>, c: seq<real>, b: real) returns (s: seq<real>)
    requires |y2| == |c| > 0 && Positive(c) && b > 0.0
    ensures |s| == |y2| && Normal(c, b, Minus(y2, s), s)
    ensures NonNeg(y2) ==> AtMost(s, y2)
  {
    var pos := PositivePart(y2);
    if Dot(c, pos) > b {
      var lam := RatioThreshold(pos, c, b);
      s := Shrink(pos, Scale(lam, c));
      ThresholdPositive(c, pos, lam, b);
      OrthantNormal(c, b, y2, lam, s);
      if NonNeg(y2) {
        ThresholdBelow(y2, c, lam);
      }
    } else {
      s := pos;
      OrthantNormal(c, b, y2, 0.0, s);
    }
  }

  // ---- the alternation ----

  /** One pass: the leverage half step, then the drawdown half step, each corrected by what
      it removed the time before.  The corrections only ever take away. */
  method Pass(ghost a: seq<real>, k: Limits, x: seq<real>, p: seq<real>, q: seq<real>)
    returns (x': seq<real>, ghost mid: seq<real>, p': seq<real>, q': seq<real>)
    requires |x| == |k.c| > 0 && Positives(k) && k.b1 > 0.0 && k.b2 > 0.0
    requires Split(a, x, p, q) && NonNeg(x) && NonNeg(p) && NonNeg(q)
    ensures Split(a, x', p', q') && NonNeg(x') && NonNeg(p') && NonNeg(q')
    ensures Normal(Ones(|a|), k.b1, p', mid) && Normal(k.c, k.b2, q', x')
    ensures |p| == |q| == |x| == |mid| == |x'|
    ensures p' == Minus(Plus(x, p), mid) && q' == Minus(Plus(mid, q), x')
  {
    var y1 := Plus(x, p);
    var yStep := LeverageStep(y1, k.b1);
    mid := yStep;
    p' := Minus(y1, yStep);
    var y2 := Plus(yStep, q);
    x' := DrawdownStep(y2, k.c, k.b2);
    q' := Minus(y2, x');
  }

  /** The state after at least one pass. */
  ghost predicate Alternated(a: seq<real>, k: Limits, x: seq<real>, mid: seq<real>, p: seq<real>, q: seq<real>) {
    && |a| == |k.c|
    && Split(a, x, p, q) && NonNeg(p) && NonNeg(q)
    && Normal(Ones(|a|), k.b1, p, mid) && Normal(k.c, k.b2, q, x)
  }

  /** One pass on record: its two half steps and the corrections after it. */
  datatype Swing = Swing(mid: seq<real>, x: seq<real>, p: seq<real>, q: seq<real>)

  /** Before the first pass: the magnitudes themselves, uncorrected. */
  function Rest(a: seq<real>): Swing { Swing(a, a, Const(|a|, 0.0), Const(|a|, 0.0)) }

  /** What stood before pass i. */
  function Before(a: seq<real>, trace: seq<Swing>, i: nat): Swing
    requires i <= |trace|
  {
    if i == 0 then Rest(a) else trace[i - 1]
  }

  ghost predicate SwingOf(a: seq<real>, k: Limits, s: Swing, t: Swing) {
    && Alternated(a, k, t.x, t.mid, t.p, t.q)
    && |s.x| == |s.p| == |s.q| == |s.mid| == |a|
    && t.p == Minus(Plus(s.x, s.p), t.mid) && t.q == Minus(Plus(t.mid, s.q), t.x)
  }

  /** Every pass takes up where the last one stopped, the first at the magnitudes. */
  ghost predicate Swings(a: seq<real>, k: Limits, trace: seq<Swing>) {
    forall i :: 0 <= i < |trace| ==> SwingOf(a, k, Before(a, trace, i), trace[i])
  }

  /** Up to 40 passes, all of them unless the last one moved the iterate by less than the
      tolerance. */
  ghost predicate Exhausted(a: seq<real>, tol: Tolerances, trace: seq<Swing>) {
    && 1 <= |trace| <= 40
    && |trace[|trace| - 1].x| == |Before(a, trace, |trace| - 1).x| > 0
    && (|trace| < 40 ==>
          MaxEntry(AbsOf(Minus(trace[|trace| - 1].x, Before(a, trace, |trace| - 1).x))) < tol.conv)
  }

  /** At most 40 passes, or until the iterate moves by less than the tolerance.  The two
      corrections always make up exactly what the iterate has lost. */
  method Alternate(a: seq<real>, k: Limits, tol: Tolerances) returns (x: seq<real>, ghost trace: seq<Swing>)
    requires |a| == |k.c| > 0 && NonNeg(a) && Positives(k) && k.b1 > 0.0 && k.b2 > 0.0
    ensures Swings(a, k, trace) && Exhausted(a, tol, trace) && x == trace[|trace| - 1].x
    ensures var last := trace[|trace| - 1]; Alternated(a, k, x, last.mid, last.p, last.q)
  {
    hide *;
    x, trace := a, [];
    var pCorr, qCorr := Const(|a|, 0.0), Const(|a|, 0.0);
    RestReady(a, k);
    var before := a;
    var pass := 0;
    while pass < DYKSTRA_PASSES
      invariant 0 <= pass == |trace| <= DYKSTRA_PASSES && Swings(a, k, trace)
      invariant SwingReady(a, Before(a, trace, pass)) && Before(a, trace, pass).x == x
      invariant Before(a, trace, pass).p == pCorr && Before(a, trace, pass).q == qCorr
      invariant pass > 0 ==> Before(a, trace, pass - 1).x == before && |before| == |a|
    {
      ghost var s := Before(a, trace, pass);
      ReadySizes(a, s);
      before := x;
      ghost var mid;
      x, mid, pCorr, qCorr := Pass(a, k, x, pCorr, qCorr);
      ghost var t := Swing(mid, x, pCorr, qCorr);
      PassIsSwing(a, k, s, t);
      AddSwing(a, k, trace, t);
      trace := trace + [t];
      pass := pass + 1;
      if MaxEntry(AbsOf(Minus(x, before))) < tol.conv {
        break;
      }
    }
    ReadySizes(a, Before(a, trace, pass));
    LastSwing(a, k, tol, trace);
  }

  /** The corrections split what the iterate has lost, and only ever take away. */
  ghost predicate SwingReady(a: seq<real>, s: Swing) {
    Split(a, s.x, s.p, s.q) && |s.mid| == |a| && NonNeg(s.x) && NonNeg(s.p) && NonNeg(s.q)
  }

  lemma ReadySizes(a: seq<real>, s: Swing)
    requires SwingReady(a, s)
    ensures Split(a, s.x, s.p, s.q) && NonNeg(s.x) && NonNeg(s.p) && NonNeg(s.q)
    ensures |s.x| == |s.p| == |s.q| == |s.mid| == |a|
  {
  }

  lemma RestReady(a: seq<real>, k: Limits)
    requires NonNeg(a)
    ensures SwingReady(a, Rest(a)) && Before(a, [], 0) == Rest(a)
    ensures Rest(a) == Swing(a, a, Const(|a|, 0.0), Const(|a|, 0.0))
    ensures Swings(a, k, []) && DYKSTRA_PASSES == 40
  {
  }

  lemma PassIsSwing(a: seq<real>, k: Limits, s: Swing, t: Swing)
    requires |a| == |k.c| && |s.x| == |s.p| == |s.q| == |s.mid| == |a| == |t.mid| == |t.x|
    requires Split(a, t.x, t.p, t.q) && NonNeg(t.x) && NonNeg(t.p) && NonNeg(t.q)
    requires Normal(Ones(|a|), k.b1, t.p, t.mid) && Normal(k.c, k.b2, t.q, t.x)
    requires t.p == Minus(Plus(s.x, s.p), t.mid) && t.q == Minus(Plus(t.mid, s.q), t.x)
    ensures SwingOf(a, k, s, t) && SwingReady(a, t)
  {
    hide Split, Normal, Minus, Plus;
  }

  lemma AddSwing(a: seq<real>, k: Limits, trace: seq<Swing>, t: Swing)
    requires Swings(a, k, trace) && SwingOf(a, k, Before(a, trace, |trace|), t)
    ensures Swings(a, k, trace + [t])
    ensures Before(a, trace + [t], |trace|) == Before(a, trace, |trace|)
    ensures Before(a, trace + [t], |trace| + 1) == t
  {
    hide SwingOf;
    var next := trace + [t];
    forall i | 0 <= i < |next| ensures SwingOf(a, k, Before(a, next, i), next[i]) {
      assert Before(a, next, i) == Before(a, trace, i);
    }
  }

  lemma LastSwing(a: seq<real>, k: Limits, tol: Tolerances, trace: seq<Swing>)
    requires Swings(a, k, trace) && 1 <= |trace| <= 40 && |a| > 0
    requires var s, t := Before(a, trace, |trace| - 1), Before(a, trace, |trace|);
      && |s.x| == |t.x| == |a|
      && (|trace| < 40 ==> MaxEntry(AbsOf(Minus(t.x, s.x))) < tol.conv)
    ensures Exhausted(a, tol, trace) && Before(a, trace, |trace|) == trace[|trace| - 1]
    ensures var last := trace[|trace| - 1]; Alternated(a, k, last.x, last.mid, last.p, last.q)
  {
    hide Alternated;
    assert SwingOf(a, k, Before(a, trace, |trace| - 1), trace[|trace| - 1]);
  }

  // ---- a bound known beforehand ----

  /** z respects both budgets. */
  ghost predicate Admissible(k: Limits, z: seq<real>) {
    |z| == |k.c| && NonNeg(z) && Sum(z) <= k.b1 && Dot(k.c, z) <= k.b2
  }

  /** The squared lengths of all half steps of a run. */
  function Travel(a: seq<real>, trace: seq<Swing>): real
    requires forall i :: 0 <= i < |trace| ==> |trace[i].mid| == |trace[i].x| == |a|
  {
    if trace == [] then 0.0
    else
      var n := |trace| - 1;
      Travel(a, trace[..n]) + Dist2(Before(a, trace, n).x, trace[n].mid) + Dist2(trace[n].mid, trace[n].x)
  }

  /** How far the run is from z, with what its corrections still hold back. */
  function Potential(s: Swing, z: seq<real>): real
    requires |s.mid| == |s.x| == |s.p| == |s.q| == |z|
  {
    Dist2(s.x, z) + 2.0 * (Dot(s.p, Minus(s.mid, z)) + Dot(s.q, Minus(s.x, z)))
  }

  /** A correction is zero, or points out of its budget set. */
  ghost predicate Corrects(w: seq<real>, b: real, p: seq<real>, s: seq<real>) {
    Normal(w, b, p, s) || (|p| == |s| == |w| && forall i :: 0 <= i < |p| ==> p[i] == 0.0)
  }

  lemma CorrectionAngle(w: seq<real>, b: real, p: seq<real>, s: seq<real>, z: seq<real>)
    requires Corrects(w, b, p, s) && |z| == |w| && NonNeg(z) && Dot(w, z) <= b
    ensures |p| == |s| == |w| && Dot(p, Minus(z, s)) <= 0.0
  {
    hide Sum, Mul;
    if !Normal(w, b, p, s) {
      ZeroDot(p, Minus(z, s));
    }
  }

  lemma ZeroDot(p: seq<real>, v: seq<real>)
    requires |p| == |v| && forall i :: 0 <= i < |p| ==> p[i] == 0.0
    ensures Dot(p, v) == 0.0
  {
    hide Sum;
    forall i | 0 <= i < |p| ensures Mul(p, v)[i] == 0.0 {
      TimesZero(v[i]);
    }
    SumOfZeros(Mul(p, v));
  }

  /** One half step pays for its length out of the distance to z. */
  lemma HalfStepPays(w: seq<real>, b: real, u: seq<real>, p: seq<real>, s: seq<real>, s': seq<real>, p': seq<real>,
                     z: seq<real>)
    requires |u| == |w| && Corrects(w, b, p, s) && Normal(w, b, p', s') && |z| == |w| && NonNeg(z) && Dot(w, z) <= b
    requires p' == Minus(Plus(u, p), s')
    ensures Dist2(s', z) + Dist2(u, s') + 2.0 * Dot(p', Minus(s', z)) <= Dist2(u, z) + 2.0 * Dot(p, Minus(s, z))
  {
    hide Sum, Mul, Times;
    CorrectionAngle(w, b, p, s, s');
    Cosine(u, s', z);
    DotNegated(Minus(u, s'), s', z);
    DotAdd(Minus(u, s'), p, p', Minus(s', z));
    DotAdd(Minus(s', s), Minus(s, z), Minus(s', z), p);
    DotSym(p, Minus(s', z));
    DotSym(p, Minus(s', s));
    DotSym(p, Minus(s, z));
  }

  lemma BeforeCorrects(a: seq<real>, k: Limits, trace: seq<Swing>, i: nat)
    requires Swings(a, k, trace) && i <= |trace| && |a| == |k.c|
    ensures var s := Before(a, trace, i);
      && |s.mid| == |s.x| == |s.p| == |s.q| == |a|
      && Corrects(Ones(|a|), k.b1, s.p, s.mid) && Corrects(k.c, k.b2, s.q, s.x)
  {
    hide Normal;
    if i > 0 {
      assert SwingOf(a, k, Before(a, trace, i - 1), trace[i - 1]);
      NormalSizes(Ones(|a|), k.b1, trace[i - 1].p, trace[i - 1].mid);
      NormalSizes(k.c, k.b2, trace[i - 1].q, trace[i - 1].x);
    }
  }

  lemma NormalSizes(w: seq<real>, b: real, p: seq<real>, s: seq<real>)
    requires Normal(w, b, p, s)
    ensures |p| == |s| == |w|
  {
  }

  /** The squared lengths of all half steps, and the squared distance still left, add up to
      no more than the squared distance at the start, to every admissible point. */
  lemma {:induction false} TravelBounded(a: seq<real>, k: Limits, trace: seq<Swing>, z: seq<real>)
    requires Swings(a, k, trace) && |a| == |k.c| && Admissible(k, z)
    ensures forall i :: 0 <= i < |trace| ==> |trace[i].mid| == |trace[i].x| == |a|
    ensures var s := Before(a, trace, |trace|);
      && |s.mid| == |s.x| == |s.p| == |s.q| == |a|
      && Potential(s, z) + Travel(a, trace) <= Dist2(a, z)
      && Dist2(s.x, z) <= Potential(s, z)
    decreases |trace|
  {
    hide Swings, Sum, Dot, Dist2, Potential, Before;
    SwingSizes(a, k, trace);
    BeforeCorrects(a, k, trace, |trace|);
    PotentialAbove(k, Before(a, trace, |trace|), z);
    if trace == [] {
      RestPotential(a, z);
    } else {
      var n := |trace| - 1;
      SwingsPrefix(a, k, trace);
      SwingSizes(a, k, trace[..n]);
      TravelBounded(a, k, trace[..n], z);
      PassPays(a, k, trace, z);
    }
  }

  lemma SwingSizes(a: seq<real>, k: Limits, trace: seq<Swing>)
    requires Swings(a, k, trace) && |a| == |k.c|
    ensures forall i :: 0 <= i < |trace| ==> |trace[i].mid| == |trace[i].x| == |a|
  {
    hide SwingOf, Swings, Corrects;
    forall i | 0 <= i < |trace| ensures |trace[i].mid| == |trace[i].x| == |a| {
      BeforeCorrects(a, k, trace, i + 1);
    }
  }

  lemma RestPotential(a: seq<real>, z: seq<real>)
    requires |z| == |a|
    ensures Before(a, [], 0) == Rest(a) && Potential(Rest(a), z) == Dist2(a, z)
  {
    hide Sum, Dot, Dist2;
    var s := Rest(a);
    ZeroDot(s.p, Minus(s.mid, z));
    ZeroDot(s.q, Minus(s.x, z));
  }

  /** The corrections never hold back less than nothing. */
  lemma PotentialAbove(k: Limits, s: Swing, z: seq<real>)
    requires Admissible(k, z) && |s.mid| == |s.x| == |s.p| == |s.q| == |z|
    requires Corrects(Ones(|z|), k.b1, s.p, s.mid) && Corrects(k.c, k.b2, s.q, s.x)
    ensures Dist2(s.x, z) <= Potential(s, z)
  {
    hide Normal, Sum, Dot, Corrects, Dist2;
    DotOnes(z);
    CorrectionAngle(Ones(|z|), k.b1, s.p, s.mid, z);
    CorrectionAngle(k.c, k.b2, s.q, s.x, z);
    DotNegated(s.p, z, s.mid);
    DotNegated(s.q, z, s.x);
  }

  lemma SwingsPrefix(a: seq<real>, k: Limits, trace: seq<Swing>)
    requires Swings(a, k, trace) && trace != []
    ensures var n := |trace| - 1; Swings(a, k, trace[..n]) && Before(a, trace[..n], n) == Before(a, trace, n)
    ensures Before(a, trace, |trace|) == trace[|trace| - 1]
  {
    hide SwingOf;
    var n := |trace| - 1;
    forall i | 0 <= i < n ensures SwingOf(a, k, Before(a, trace[..n], i), trace[..n][i]) {
      assert Before(a, trace[..n], i) == Before(a, trace, i);
    }
  }

  /** One pass pays for both its half steps out of the potential. */
  lemma PassPays(a: seq<real>, k: Limits, trace: seq<Swing>, z: seq<real>)
    requires Swings(a, k, trace) && trace != [] && |a| == |k.c| && Admissible(k, z)
    ensures var s, t := Before(a, trace, |trace| - 1), trace[|trace| - 1];
      && |s.mid| == |s.x| == |s.p| == |s.q| == |a| && |t.mid| == |t.x| == |t.p| == |t.q| == |a|
      && Potential(t, z) + Dist2(s.x, t.mid) + Dist2(t.mid, t.x) <= Potential(s, z)
  {
    hide Normal, Sum, Dot, Corrects, Split;
    var n := |trace| - 1;
    var s, t := Before(a, trace, n), trace[n];
    BeforeCorrects(a, k, trace, n);
    BeforeCorrects(a, k, trace, n + 1);
    assert SwingOf(a, k, s, t);
    DotOnes(z);
    HalfStepPays(Ones(|a|), k.b1, s.x, s.p, s.mid, t.mid, t.p, z);
    HalfStepPays(k.c, k.b2, t.mid, s.q, s.x, t.x, t.q, z);
  }

  /** So one of n passes ends with half steps no farther apart, squared, than the n-th part
      of the squared distance from the magnitudes to any admissible point. */
  lemma {:induction false} SomePassIsClose(a: seq<real>, k: Limits, trace: seq<Swing>, z: seq<real>) returns (i: nat)
    requires Swings(a, k, trace) && trace != [] && |a| == |k.c| && Admissible(k, z)
    ensures i < |trace| && |trace[i].mid| == |trace[i].x|
    ensures Times(|trace| as real, Dist2(trace[i].mid, trace[i].x)) <= Dist2(a, z)
  {
    hide Swings, Sum, Dot, Times, Potential, Dist2;
    TravelBounded(a, k, trace, z);
    var s := Before(a, trace, |trace|);
    Dist2Positive(s.x, z);
    i := LeastGap(a, trace);
  }

  lemma {:induction false} LeastGap(a: seq<real>, trace: seq<Swing>) returns (i: nat)
    requires trace != [] && forall j :: 0 <= j < |trace| ==> |trace[j].mid| == |trace[j].x| == |a|
    ensures i < |trace| && Times(|trace| as real, Dist2(trace[i].mid, trace[i].x)) <= Travel(a, trace)
    decreases |trace|
  {
    hide Dist2, Times;
    var n := |trace| - 1;
    var gap := Dist2(trace[n].mid, trace[n].x);
    Dist2Positive(Before(a, trace, n).x, trace[n].mid);
    if n == 0 {
      i := 0;
      TimesOne(gap);
    } else {
      var j := LeastGap(a, trace[..n]);
      i := if Dist2(trace[j].mid, trace[j].x) <= gap then j else n;
      var least := Dist2(trace[i].mid, trace[i].x);
      TimesMonotone(n as real, least, Dist2(trace[j].mid, trace[j].x));
      TimesSuccessor(n, least);
    }
  }

  lemma TimesSuccessor(n: nat, x: real)
    ensures Times((n + 1) as real, x) == Times(n as real, x) + x
  {
  }

  /** The certificate left behind by any pass: no direction from x into the region makes a
      larger product with what x has lost than the first correction makes with the gap
      between the two half steps. */
  lemma {:induction false} AlternationGap(a: seq<real>, k: Limits, x: seq<real>, mid: seq<real>, p: seq<real>,
                                          q: seq<real>, z: seq<real>)
    requires Alternated(a, k, x, mid, p, q)
    requires |z| == |a| && NonNeg(z) && Sum(z) <= k.b1 && Dot(k.c, z) <= k.b2
    ensures Dot(Minus(a, x), Minus(z, x)) <= Dot(p, Minus(mid, x))
  {
    hide Times, Mul, Minus, Sum, Plus;
    DotOnes(z);
    DotAdd(p, q, Minus(a, x), Minus(z, x));
    DotSym(p, Minus(z, x));
    DotSym(p, Minus(z, mid));
    DotSym(p, Minus(mid, x));
    DotAdd(Minus(z, mid), Minus(mid, x), Minus(z, x), p);
  }

  /** x solves the problem among the non-negative vectors. */
  ghost predicate OrthantOptimal(k: Limits, a: seq<real>, x: seq<real>) {
    && |a| == |x| == |k.c| && NonNeg(x) && Sum(x) <= k.b1 && Dot(k.c, x) <= k.b2
    && forall z :: |z| == |a| && NonNeg(z) && Sum(z) <= k.b1 && Dot(k.c, z) <= k.b2
         ==> Dot(Minus(a, x), Minus(z, x)) <= 0.0
  }

  /** So the squared distance to the solution is at most that product plus what x gains by
      leaving the leverage budget, which is nothing when x keeps it. */
  lemma {:induction false} AlternationDistance(a: seq<real>, k: Limits, x: seq<real>, mid: seq<real>, p: seq<real>,
                                               q: seq<real>, z: seq<real>)
    requires Alternated(a, k, x, mid, p, q) && OrthantOptimal(k, a, z)
    ensures Dist2(z, x) <= Dot(p, Minus(mid, x)) + Dot(Minus(a, z), Minus(x, z))
    ensures Sum(x) <= k.b1 ==> Dist2(z, x) <= Dot(p, Minus(mid, x))
  {
    hide Times, Mul, Minus, Sum, Plus;
    AlternationGap(a, k, x, mid, p, q, z);
    DotAdd(Minus(a, z), Minus(z, x), Minus(a, x), Minus(z, x));
    DotNegated(Minus(a, z), z, x);
  }

  /** An exact solution among non-negative vectors never exceeds the magnitudes. */
  lemma OrthantSolutionBelow(a: seq<real>, k: Limits, x: seq<real>)
    requires NonNeg(a) && Positives(k) && OrthantOptimal(k, a, x)
    ensures AtMost(x, a)
  {
    var z := seq(|a|, i requires 0 <= i < |a| => Min(a[i], x[i]));
    SumLe(z, x);
    DotMonotone(k.c, z, x);
    assert Dot(Minus(a, x), Minus(z, x)) <= 0.0;
    CappedTerms(a, x, z);
  }

  lemma CappedTerms(a: seq<real>, x: seq<real>, z: seq<real>)
    requires |a| == |x| == |z| && (forall i :: 0 <= i < |a| ==> z[i] == Min(a[i], x[i]))
    requires Dot(Minus(a, x), Minus(z, x)) <= 0.0
    ensures AtMost(x, a)
  {
    var terms := Mul(Minus(a, x), Minus(z, x));
    forall i | 0 <= i < |a| ensures terms[i] >= 0.0 && (x[i] > a[i] ==> terms[i] > 0.0) {
    }
    SumZero(terms);
  }

  /** An exact solution for the magnitudes is, with the signs of y, the nearest point for y. */
  lemma OrthantNearest(y: seq<real>, k: Limits, x: seq<real>)
    requires |y| == |k.c| && Positives(k) && OrthantOptimal(k, AbsOf(y), x)
    ensures AbsOf(Signed(x, y)) == x && IsNearest(Region(k), y, Signed(x, y))
  {
    OrthantSolutionBelow(AbsOf(y), k, x);
    SignedMagnitudes(x, y);
    forall z | z in Region(k) && |z| == |y|
      ensures Dot(Minus(y, Signed(x, y)), Minus(z, Signed(x, y))) <= 0.0
    {
      SignedInequality(y, x, z);
      assert Dot(Minus(AbsOf(y), x), Minus(AbsOf(z), x)) <= 0.0;
    }
    VariationalIsNearest(Region(k), y, Signed(x, y));
  }

  lemma SignedMagnitudes(x: seq<real>, y: seq<real>)
    requires |x| == |y| && NonNeg(x) && AtMost(x, AbsOf(y))
    ensures AbsOf(Signed(x, y)) == x
  {
  }

  lemma SignedInequality(y: seq<real>, x: seq<real>, z: seq<real>)
    requires |y| == |x| == |z| && NonNeg(x) && AtMost(x, AbsOf(y))
    ensures Dot(Minus(y, Signed(x, y)), Minus(z, Signed(x, y))) <= Dot(Minus(AbsOf(y), x), Minus(AbsOf(z), x))
  {
    var p := Signed(x, y);
    var left, right := Mul(Minus(y, p), Minus(z, p)), Mul(Minus(AbsOf(y), x), Minus(AbsOf(z), x));
    forall i | 0 <= i < |y| ensures left[i] <= right[i] {
    }
    SumLe(left, right);
  }

  /** If the last pass left both half steps at the same point, the alternation has found
      the nearest point exactly. */
  lemma SettledIsNearest(y: seq<real>, k: Limits, x: seq<real>, p: seq<real>, q: seq<real>)
    requires |y| == |k.c| && Positives(k) && Alternated(AbsOf(y), k, x, x, p, q)
    ensures AbsOf(Signed(x, y)) == x && IsNearest(Region(k), y, Signed(x, y))
  {
    DotOnes(x);
    forall z | |z| == |y| && NonNeg(z) && Sum(z) <= k.b1 && Dot(k.c, z) <= k.b2
      ensures Dot(Minus(AbsOf(y), x), Minus(z, x)) <= 0.0
    {
      AlternationGap(AbsOf(y), k, x, x, p, q, z);
    }
    OrthantNearest(y, k, x);
  }
}
